/** Observations, evidence records, and the arithmetic of ara/ollama_evidence.py. */
module Evidence {
  import opened Wrappers

  const SYSTEM_MARGIN_BYTES := 0x8000_0000
  const ACCELERATOR_MARGIN_BYTES := 0x4000_0000
  const RUNTIME_OVERHEAD_BYTES := 0x4000_0000
  const KV_ELEMENT_BYTES := 4

  // ---------- observations ----------

  datatype AcceleratorKind = Apple | Nvidia | OtherKind(name: string)

  datatype MemorySnapshot = MemorySnapshot(
    systemTotal: Option<int>,
    systemAvailable: Option<int>,
    kind: Option<AcceleratorKind>,
    count: Option<int>,
    acceleratorTotal: Option<int>,
    acceleratorAvailable: Option<int>,
    unified: bool)

  /** One row of `/api/ps`. */
  datatype Process = Process(
    name: string,
    digest: Option<string>,
    size: Option<int>,
    sizeVram: Option<int>,
    effectiveContext: Option<int>)

  datatype Scope = Loopback | Cloud | Remote | UnknownScope

  datatype Endpoint = Endpoint(url: Option<string>, scope: Scope)

  datatype Authority = Authority(
    endpoint: Endpoint,
    serverVersion: Option<string>,
    serverInstance: Option<string>,
    listenerPid: Option<int>,
    bindHost: Option<string>,
    configuredInputs: seq<(string, string)>,
    numParallel: Option<int>,
    numParallelAuthority: Option<string>,
    issue: Option<string>)

  datatype ModelScope = LocalModel | CloudModel | UnknownModel

  /** One row of `/api/tags`. */
  datatype Model = Model(
    name: string,
    digest: Option<string>,
    size: Option<int>,
    format: Option<string>,
    capabilities: seq<string>,
    scope: ModelScope)

  // ---------- evidence records (JSON objects whose fields may be absent or malformed) ----------

  datatype Field = Null | Int(n: int) | Malformed(text: string)

  function ToField(v: Option<int>): Field {
    if v.Some? then Int(v.value) else Null
  }

  predicate NonnegativeInt(f: Field) {
    f.Int? && f.n >= 0
  }

  datatype Placement = Cpu | Unified | Accelerator | PartialOffload | UnknownPlacement | OtherPlacement(text: string)

  datatype Wall = SystemWall | SystemUnifiedWall | AcceleratorWall | OtherWall(text: string)

  predicate Offloaded(p: Placement) {
    p == Accelerator || p == PartialOffload
  }

  datatype Reason =
    | SystemWallUnknown | ModelSizeUnknown | RequestedContextUnknown | ContextAllocationUnknown
    | AllocationExceedsSystemWall | AllocationExceedsAcceleratorWall
    | PlacementIsUnknown | AcceleratorWallUnknown
    | SystemMarginBreached | AcceleratorMarginBreached | EffectiveContextMismatch
    | GenerationFailed | EffectiveResidencyUnverified
    | TopologyDrift | WallEvidenceMissing | SystemHeadroomInsufficient | AcceleratorHeadroomInsufficient
    | PlacementOrAllocationDrift

  /** The eight physical-wall fields that a point and its configuration must share. */
  datatype Cell = Cell(
    placement: Placement,
    residentTotal: Field,
    residentAccelerator: Field,
    walls: seq<Wall>,
    systemDelta: Field,
    acceleratorDelta: Field,
    systemMargin: Field,
    acceleratorMargin: Field)

  datatype AdmissionMethod = ContextAwareConservativeV1 | OtherAdmissionMethod(text: string)

  datatype Watchdog = UnavailableExternalDaemon | OtherWatchdog(text: string)

  datatype AdmissionRecord = AdmissionRecord(
    methodology: AdmissionMethod,
    reason: Option<Reason>,
    requestedContext: Field,
    modelSize: Field,
    residencyBound: Field,
    kvBound: Field,
    runtimeBound: Field,
    totalBound: Field,
    walls: seq<Wall>,
    systemAvailable: Field,
    acceleratorAvailable: Field,
    systemMargin: Field,
    acceleratorMargin: Field,
    watchdog: Watchdog)

  datatype Point = Point(
    context: Field,
    requestedContext: Field,
    effectiveContext: Field,
    fit: bool,
    cell: Cell,
    reasons: seq<Reason>,
    admission: Option<AdmissionRecord>)

  // ---------- admission before a load ----------

  datatype Admission = Admission(
    reason: Option<Reason>,
    requested: Option<int>,
    modelSize: Option<int>,
    residencyBound: Option<int>,
    kvBound: Option<int>,
    totalBound: Option<int>,
    walls: seq<Wall>,
    systemAvailable: Option<int>,
    acceleratorAvailable: Option<int>)
  {
    function AsRecord(): AdmissionRecord {
      AdmissionRecord(
        ContextAwareConservativeV1, reason, ToField(requested), ToField(modelSize), ToField(residencyBound),
        ToField(kvBound), Int(RUNTIME_OVERHEAD_BYTES), ToField(totalBound), walls,
        ToField(systemAvailable), ToField(acceleratorAvailable), Int(SYSTEM_MARGIN_BYTES),
        if AcceleratorWall in walls then Int(ACCELERATOR_MARGIN_BYTES) else Null,
        UnavailableExternalDaemon)
    }
  }

  /** Architecture metadata: `general.architecture` and the architecture-prefixed integer fields. */
  datatype ModelInfo = ModelInfo(architecture: Option<string>, fields: map<string, Field>)

  function Positive(v: Option<int>): Option<int> {
    if v.Some? && v.value > 0 then v else None
  }

  function PositiveField(info: ModelInfo, key: string): Option<int> {
    if key in info.fields && info.fields[key].Int? && info.fields[key].n > 0 then Some(info.fields[key].n) else None
  }

  function Max(a: int, b: int): int {
    if a >= b then a else b
  }

  /** Bytes of key/value cache at one context: layers, heads, head size, key plus value, element size. */
  function ContextAllocationBound(requested: int, info: ModelInfo): Option<int> {
    if info.architecture.None? || info.architecture.value == "" then None
    else
      var layers := PositiveField(info, info.architecture.value + ".block_count");
      var heads := PositiveField(info, info.architecture.value + ".attention.head_count_kv");
      var dim := PositiveField(info, info.architecture.value + ".attention.key_length");
      if layers.None? || heads.None? || dim.None? then None
      else Some(requested * layers.value * heads.value * dim.value * 2 * KV_ELEMENT_BYTES)
  }

  function ResidencyBound(size: int): int {
    (size * 5 + 4 - 1) / 4
  }

  /** The walls a load may touch on this topology, or why they cannot be named. */
  function LoadWalls(s: MemorySnapshot): (Option<Reason>, seq<Wall>, Option<int>) {
    if s.kind == Some(Apple) && s.unified then (None, [SystemUnifiedWall], None)
    else if s.kind == Some(Nvidia) then
      if s.count != Some(1) then (Some(PlacementIsUnknown), [], None)
      else if s.acceleratorAvailable.None? || s.acceleratorAvailable.value < 0 then (Some(AcceleratorWallUnknown), [], None)
      else (None, [SystemWall, AcceleratorWall], s.acceleratorAvailable)
    else if s.kind.None? && (s.count.None? || s.count == Some(0)) then (None, [SystemWall], None)
    else (Some(PlacementIsUnknown), [], None)
  }

  function PreflightAdmission(s: MemorySnapshot, modelSize: Option<int>, requestedContext: int, info: ModelInfo): Admission {
    var requested := Positive(Some(requestedContext));
    var size := Positive(modelSize);
    var available := if s.systemAvailable.Some? && s.systemAvailable.value >= 0 then s.systemAvailable else None;
    var missing :=
      if Positive(s.systemTotal).None? || available.None? then Some(SystemWallUnknown)
      else if size.None? then Some(ModelSizeUnknown)
      else if requested.None? then Some(RequestedContextUnknown)
      else None;
    var kv := if requested.Some? then ContextAllocationBound(requested.value, info) else None;
    var unknown := if missing.None? && kv.None? then Some(ContextAllocationUnknown) else missing;
    var residency := if size.Some? then Some(ResidencyBound(size.value)) else None;
    var total :=
      if residency.Some? && kv.Some? then Some(residency.value + kv.value + RUNTIME_OVERHEAD_BYTES) else None;
    var system :=
      if unknown.None? && total.Some? && available.Some? && total.value > Max(0, available.value - SYSTEM_MARGIN_BYTES)
      then Some(AllocationExceedsSystemWall) else unknown;
    var (placed, walls, accelerator) := if system.None? then LoadWalls(s) else (system, [], None);
    var final :=
      if placed.None? && total.Some? && AcceleratorWall in walls && accelerator.Some?
         && total.value > Max(0, accelerator.value - ACCELERATOR_MARGIN_BYTES)
      then Some(AllocationExceedsAcceleratorWall) else placed;
    Admission(final, requested, size, residency, kv, total, walls, available, accelerator)
  }

  // ---------- one measured rung ----------

  function ClassifyPlacement(s: MemorySnapshot, p: Process): Placement {
    if p.size.None? || p.size.value <= 0 then UnknownPlacement
    else if p.sizeVram.None? || p.sizeVram.value < 0 || p.sizeVram.value > p.size.value then UnknownPlacement
    else if p.sizeVram.value == 0 then Cpu
    else if s.unified && s.kind == Some(Apple) then Unified
    else if s.kind == Some(Nvidia) && s.count == Some(1) then
      if p.sizeVram == p.size then Accelerator else PartialOffload
    else UnknownPlacement
  }

  function WallsFor(p: Placement): seq<Wall> {
    match p
    case Cpu => [SystemWall]
    case Unified => [SystemUnifiedWall]
    case Accelerator => [SystemWall, AcceleratorWall]
    case PartialOffload => [SystemWall, AcceleratorWall]
    case _ => []
  }

  function Delta(before: Option<int>, after: Option<int>): Option<int> {
    if before.None? || after.None? then None else Some(Max(0, before.value - after.value))
  }

  function PointReasons(placement: Placement, after: MemorySnapshot, p: Process, context: int): seq<Reason> {
    if placement == UnknownPlacement then [PlacementIsUnknown]
    else
      (if after.systemAvailable.None? || after.systemTotal.None? then [SystemWallUnknown]
       else if after.systemAvailable.value < SYSTEM_MARGIN_BYTES then [SystemMarginBreached]
       else [])
      + (if AcceleratorWall !in WallsFor(placement) then []
         else if after.acceleratorAvailable.None? || after.acceleratorTotal.None? then [AcceleratorWallUnknown]
         else if after.acceleratorAvailable.value < ACCELERATOR_MARGIN_BYTES then [AcceleratorMarginBreached]
         else [])
      + (if p.effectiveContext != Some(context) then [EffectiveContextMismatch] else [])
  }

  function CharacterizationPoint(before: MemorySnapshot, after: MemorySnapshot, p: Process, context: int): Point {
    var placement := ClassifyPlacement(after, p);
    var walls := WallsFor(placement);
    var reasons := PointReasons(placement, after, p, context);
    Point(
      Int(context), Int(context), ToField(p.effectiveContext), reasons == [],
      Cell(placement, ToField(p.size), ToField(p.sizeVram), walls,
           ToField(Delta(before.systemAvailable, after.systemAvailable)),
           if AcceleratorWall in walls
           then ToField(Delta(before.acceleratorAvailable, after.acceleratorAvailable)) else Null,
           Int(SYSTEM_MARGIN_BYTES),
           if AcceleratorWall in walls then Int(ACCELERATOR_MARGIN_BYTES) else Null),
      reasons, None)
  }

  function FailedPoint(context: int, reason: Reason): Point {
    Point(Int(context), Int(context), Null, false,
          Cell(UnknownPlacement, Null, Null, [], Null, Null, Int(SYSTEM_MARGIN_BYTES), Null), [reason], None)
  }

  // ---------- the live gates ----------

  function LiveHeadroomRefusal(s: MemorySnapshot, cell: Cell, resident: bool): Option<Reason> {
    var offloaded := Offloaded(cell.placement);
    if s.systemTotal.None? || s.systemAvailable.None? then Some(SystemWallUnknown)
    else if cell.placement == Unified && !(s.unified && s.kind == Some(Apple)) then Some(TopologyDrift)
    else if offloaded && !(s.kind == Some(Nvidia) && s.count == Some(1)) then Some(TopologyDrift)
    else if !NonnegativeInt(cell.residentTotal) || !NonnegativeInt(cell.residentAccelerator) then Some(WallEvidenceMissing)
    else
      var systemPeak :=
        if resident then 0
        else if offloaded then cell.residentTotal.n - cell.residentAccelerator.n
        else cell.residentTotal.n;
      if systemPeak < 0 then Some(WallEvidenceMissing)
      else if s.systemAvailable.value < systemPeak + SYSTEM_MARGIN_BYTES then Some(SystemHeadroomInsufficient)
      else if !offloaded then None
      else if s.acceleratorTotal.None? || s.acceleratorAvailable.None? then Some(AcceleratorWallUnknown)
      else if s.acceleratorAvailable.value < (if resident then 0 else cell.residentAccelerator.n) + ACCELERATOR_MARGIN_BYTES
      then Some(AcceleratorHeadroomInsufficient)
      else None
  }

  function LiveResidencyRefusal(s: MemorySnapshot, p: Process, cell: Cell, context: int): Option<Reason> {
    var point := CharacterizationPoint(s, s, p, context);
    if point.reasons != [] then Some(point.reasons[0])
    else if point.cell.placement != cell.placement || point.cell.walls != cell.walls then Some(PlacementOrAllocationDrift)
    else None
  }
}
