/** Characterization records: what a ramp stores, and the strict reading that lets a record govern a request. */
module Characterization {
  import opened Wrappers
  import opened Evidence
  import Text
  import Engines

  // ---------- identities ----------

  /** Artifact identities by their prefix. */
  datatype ArtifactId =
    | OllamaManifest(digest: string)
    | HuggingFace(rest: string)
    | LocalGguf(rest: string)
    | LegacyUnverified(model: string)
    | OtherArtifact(text: string)

  datatype Confidence = Strong | ObservedDigest | ManifestHash | LegacyConfidence | UnknownConfidence

  predicate StrongConfidence(c: Confidence) {
    c == Strong || c == ObservedDigest || c == ManifestHash
  }

  predicate IsHex(c: char) {
    '0' <= c <= '9' || 'a' <= c <= 'f'
  }

  predicate IsDigest(s: string) {
    |s| == 64 && forall i :: 0 <= i < 64 ==> IsHex(s[i])
  }

  function Classify(a: ArtifactId): Confidence {
    match a
    case OllamaManifest(digest) => if IsDigest(Text.Lower(digest)) then ObservedDigest else UnknownConfidence
    case HuggingFace(_) => ManifestHash
    case LocalGguf(_) => Strong
    case LegacyUnverified(_) => LegacyConfidence
    case OtherArtifact(_) => UnknownConfidence
  }

  datatype MethodologyKey = LegacyMethodology | OllamaMethodology | OtherMethodology(text: string)

  /** The observable identity that an Ollama fingerprint hashes; SHA-256 is taken to be injective. */
  datatype EngineFingerprint =
    | LegacyEngine
    | OllamaRuntime(endpoint: string, version: string, serverInstance: string, pid: Option<int>, bindHost: Option<string>,
                    inputs: multiset<(string, string)>, numParallel: int, numParallelAuthority: string)
    | OtherEngine(text: string)

  predicate Named(s: Option<string>) {
    s.Some? && s.value != ""
  }

  function RuntimeFingerprint(a: Authority): Option<EngineFingerprint> {
    if a.issue.Some? || a.endpoint.scope != Loopback || !Named(a.endpoint.url) || !Named(a.serverVersion)
       || !Named(a.serverInstance) || a.numParallel != Some(1) || !Named(a.numParallelAuthority)
    then None
    else Some(OllamaRuntime(a.endpoint.url.value, a.serverVersion.value, a.serverInstance.value, a.listenerPid,
                            a.bindHost, multiset(a.configuredInputs), 1, a.numParallelAuthority.value))
  }

  /** Python's `dict(pairs)`: a later pair wins. */
  function DictOf(pairs: seq<(string, string)>): map<string, string> {
    if pairs == [] then map[]
    else
      var last := pairs[|pairs| - 1];
      DictOf(pairs[..|pairs| - 1])[last.0 := last.1]
  }

  function Lookup(m: map<string, string>, key: string): string {
    if key in m then m[key] else "unknown"
  }

  // ---------- the stored configuration ----------

  datatype Text3 = Text3(kvCacheType: Option<string>, flashAttention: Option<string>, schedulerSpread: Option<string>)

  function ConfiguredText(inputs: map<string, string>): Text3 {
    Text3(Some(Lookup(inputs, "OLLAMA_KV_CACHE_TYPE")), Some(Lookup(inputs, "OLLAMA_FLASH_ATTENTION")),
          Some(Lookup(inputs, "OLLAMA_SCHED_SPREAD")))
  }

  const EFFECTIVE_TEXT := Text3(Some("unknown"), Some("unknown"), Some("unknown"))

  datatype ConfigMethod = PhysicalWallsV1 | OtherConfigMethod(text: string)

  datatype EffectiveParallelAuthority = ConfiguredMaximumIsOne | OtherParallelAuthority(text: string)

  datatype ProbeTarget = ProbeTarget(name: string, artifact: ArtifactId, context: int)

  datatype Config = Config(
    methodology: ConfigMethod,
    runtime: Option<string>,
    runtimeVersion: Option<string>,
    endpointAuthority: Option<string>,
    serverInstance: Option<string>,
    format: Option<string>,
    capability: Option<string>,
    configuredInputs: Option<map<string, string>>,
    numParallel: Option<int>,
    numParallelAuthority: Option<string>,
    effectiveNumParallel: Field,
    effectiveParallelAuthority: EffectiveParallelAuthority,
    requestedContext: Field,
    effectiveContext: Field,
    cell: Cell,
    configured: Text3,
    effective: Text3,
    admission: Option<AdmissionRecord>,
    watchdog: Watchdog,
    probe: Option<ProbeTarget>)

  /** One row of the characterizations table from version 7 on, with its JSON columns decoded. `safeContext` and the
      direct context are stored with the same value. */
  datatype Row = Row(
    machineKey: string,
    runtime: string,
    backend: string,
    artifact: ArtifactId,
    configKey: string,
    logicalModel: string,
    legacyEngine: Option<string>,
    safeContext: Option<int>,
    fittedContext: Option<int>,
    config: Option<Config>,
    points: Option<seq<Point>>,
    confidence: Confidence,
    reusable: bool,
    measuredAt: Option<string>,
    authorityKey: string,
    methodologyKey: MethodologyKey,
    fingerprint: EngineFingerprint)

  // ---------- producing a record ----------

  /** `next(p for p in reversed(points) if p.fit and p.requested_context == best)`. */
  function BestPoint(points: seq<Point>, best: Field): Option<Point> {
    if points == [] then None
    else
      var last := points[|points| - 1];
      if last.fit && last.requestedContext == best then Some(last) else BestPoint(points[..|points| - 1], best)
  }

  const NO_CELL := Cell(UnknownPlacement, Null, Null, [], Null, Null, Null, Null)

  function CharacterizationConfig(a: Authority, record: Model, best: Option<int>, points: seq<Point>): Config {
    var point := BestPoint(points, ToField(best));
    var inputs := DictOf(a.configuredInputs);
    Config(
      PhysicalWallsV1, Some("ollama"), a.serverVersion, a.endpoint.url, a.serverInstance,
      if record.format.Some? then Some(Text.Lower(record.format.value)) else None,
      if "completion" in record.capabilities then Some("completion") else None,
      Some(inputs), a.numParallel, a.numParallelAuthority, Int(1), ConfiguredMaximumIsOne,
      ToField(best),
      if point.Some? then point.value.effectiveContext else Null,
      if point.Some? then point.value.cell else NO_CELL,
      ConfiguredText(inputs), EFFECTIVE_TEXT,
      if point.Some? then point.value.admission else None,
      UnavailableExternalDaemon, None)
  }

  function OllamaBackend(p: Placement): string {
    match p
    case Cpu => "cpu"
    case Unified => "apple"
    case Accelerator => "cuda"
    case PartialOffload => "cuda"
    case _ => Engines.ForEngine(Some("ollama")).1
  }

  /** The arguments of `db.save_characterization`; the keys are supplied by the caller. */
  datatype Saving = Saving(
    machineKey: string, engine: string, model: string, safe: Option<int>, fitted: Option<int>, points: seq<Point>,
    measuredAt: string, config: Config, artifact: Option<ArtifactId>, configKey: string, authorityKey: string,
    methodology: MethodologyKey, fingerprint: EngineFingerprint)

  /** The row it writes. */
  function SavedRow(s: Saving): Row {
    var (runtime, backend) := Engines.ForEngine(Some(s.engine));
    var stored := if s.artifact.Some? then s.artifact.value else LegacyUnverified(s.model);
    var confidence := Classify(stored);
    Row(s.machineKey, runtime,
        if runtime == "ollama" then OllamaBackend(s.config.cell.placement) else backend,
        stored, s.configKey, s.model, Engines.CanonicalEngine(Some(s.engine)), s.safe, s.fitted, Some(s.config), Some(s.points),
        confidence, StrongConfidence(confidence) && s.methodology != LegacyMethodology && s.fingerprint != LegacyEngine,
        Some(s.measuredAt), s.authorityKey, s.methodology, s.fingerprint)
  }

  // ---------- judging a record ----------

  predicate AdmissionEvidenceComplete(config: Config, point: Point) {
    config.admission == point.admission && config.admission.Some? &&
    var a := config.admission.value;
    && a.methodology == ContextAwareConservativeV1
    && a.watchdog == UnavailableExternalDaemon
    && config.watchdog == UnavailableExternalDaemon
    && a.reason.None?
    && a.requestedContext == config.requestedContext
    && NonnegativeInt(a.residencyBound) && a.residencyBound.n != 0
    && NonnegativeInt(a.kvBound) && a.kvBound.n != 0
    && a.runtimeBound == Int(RUNTIME_OVERHEAD_BYTES)
    && a.totalBound == Int(a.residencyBound.n + a.kvBound.n + RUNTIME_OVERHEAD_BYTES)
    && (a.walls == [SystemWall] || a.walls == [SystemUnifiedWall] || a.walls == [SystemWall, AcceleratorWall])
    && NonnegativeInt(a.systemAvailable)
    && a.systemMargin == Int(SYSTEM_MARGIN_BYTES)
    && a.totalBound.n <= Max(0, a.systemAvailable.n - SYSTEM_MARGIN_BYTES)
    && (if AcceleratorWall !in a.walls then a.acceleratorAvailable == Null && a.acceleratorMargin == Null
        else
          && NonnegativeInt(a.acceleratorAvailable)
          && a.acceleratorMargin == Int(ACCELERATOR_MARGIN_BYTES)
          && a.totalBound.n <= Max(0, a.acceleratorAvailable.n - ACCELERATOR_MARGIN_BYTES))
  }

  predicate WallEvidenceComplete(config: Cell, point: Cell)
    requires config.placement in {Cpu, Unified, Accelerator, PartialOffload}
  {
    && config == point
    && NonnegativeInt(config.residentTotal) && config.residentTotal.n != 0
    && NonnegativeInt(config.residentAccelerator)
    && (match config.placement
        case Cpu => config.residentAccelerator.n == 0
        case Unified => config.residentAccelerator.n <= config.residentTotal.n
        case Accelerator => config.residentAccelerator == config.residentTotal
        case PartialOffload => 0 < config.residentAccelerator.n < config.residentTotal.n)
    && config.walls == WallsFor(config.placement)
    && NonnegativeInt(config.systemDelta)
    && config.systemMargin == Int(SYSTEM_MARGIN_BYTES)
    && (if Offloaded(config.placement)
        then NonnegativeInt(config.acceleratorDelta) && config.acceleratorMargin == Int(ACCELERATOR_MARGIN_BYTES)
        else config.acceleratorDelta == Null && config.acceleratorMargin == Null)
  }

  /** `initial_governed_model_error(model) is None`. */
  predicate GovernedModel(m: Model) {
    && m.scope == LocalModel
    && m.format.Some? && Text.Lower(m.format.value) == "gguf"
    && "completion" in m.capabilities
  }

  predicate CurrentAuthority(row: Row, a: Authority) {
    && row.config.Some?
    && row.config.value.endpointAuthority == a.endpoint.url
    && row.config.value.runtimeVersion == a.serverVersion
    && row.config.value.serverInstance == a.serverInstance
    && row.config.value.configuredInputs == Some(DictOf(a.configuredInputs))
  }

  /** The preference among candidate rows: current and same method and engine, then current, then newest. */
  datatype Rank = Rank(exact: bool, current: bool, measuredAt: string, configKey: string)

  function RankOf(row: Row, a: Authority): Rank {
    var current := CurrentAuthority(row, a);
    Rank(current && row.methodologyKey == OllamaMethodology && Some(row.fingerprint) == RuntimeFingerprint(a),
         current, row.measuredAt.GetOr(""), row.configKey)
  }

  predicate Outranks(x: Rank, y: Rank) {
    if x.exact != y.exact then x.exact
    else if x.current != y.current then x.current
    else if x.measuredAt != y.measuredAt then Text.Precedes(y.measuredAt, x.measuredAt)
    else Text.Precedes(y.configKey, x.configKey)
  }

  /** Python's `max`: the first row that no other outranks. */
  function Preferred(rows: seq<Row>, a: Authority): Row
    requires rows != []
  {
    var last := rows[|rows| - 1];
    if |rows| == 1 then last
    else
      var best := Preferred(rows[..|rows| - 1], a);
      if Outranks(RankOf(last, a), RankOf(best, a)) then last else best
  }

  function OfArtifact(rows: seq<Row>, artifact: Option<ArtifactId>): seq<Row> {
    if rows == [] then []
    else (if artifact == Some(rows[0].artifact) then [rows[0]] else []) + OfArtifact(rows[1..], artifact)
  }

  function ArtifactOf(m: Model): Option<ArtifactId> {
    if m.digest.Some? then Some(OllamaManifest(m.digest.value)) else None
  }

  datatype DisplayReason =
    | MissingEvidence | MethodologyMissing | MethodologyMismatch | UnsupportedModelCell | ArtifactMismatch
    | SafeContextMissing | RuntimeAuthorityIncomplete | EndpointMismatch | RuntimeVersionMismatch
    | ServerInstanceMismatch | ConfiguredInputsMismatch | RuntimeConfigIncomplete | ParallelismMismatch
    | ModelCellMismatch | ContextEvidenceIncomplete | PlacementUnsupported | WallEvidenceIncomplete
    | AdmissionEvidenceIncomplete | RuntimeFingerprintMismatch | StorageNotReusable

  datatype Assessment = Assessment(display: Option<Row>, reusable: Option<Row>, reason: Option<DisplayReason>)

  /** The stored point that proves the row's safe context. */
  function ProvingPoint(points: seq<Point>, safe: int): Option<Point> {
    if points == [] then None
    else
      var p := points[0];
      if p.fit && p.context == Int(safe) && p.requestedContext == Int(safe) && p.effectiveContext == Int(safe)
         && p.reasons == []
      then Some(p) else ProvingPoint(points[1..], safe)
  }

  /** Why one chosen row may not govern a request, or `None` when it may. */
  function Refusal(row: Row, m: Model, a: Authority): Option<DisplayReason> {
    if row.config.None? || row.config.value.methodology != PhysicalWallsV1 then Some(MethodologyMissing)
    else if row.methodologyKey != OllamaMethodology then Some(MethodologyMismatch)
    else if !GovernedModel(m) then Some(UnsupportedModelCell)
    else if ArtifactOf(m) != Some(row.artifact) then Some(ArtifactMismatch)
    else if row.safeContext.None? || row.safeContext.value <= 0 then Some(SafeContextMissing)
    else if a.issue.Some? then Some(RuntimeAuthorityIncomplete)
    else
      var c := row.config.value;
      var safe := row.safeContext.value;
      var point := if row.points.Some? then ProvingPoint(row.points.value, safe) else None;
      if a.endpoint.scope != Loopback || c.endpointAuthority != a.endpoint.url then Some(EndpointMismatch)
      else if c.runtime != Some("ollama") || c.runtimeVersion != a.serverVersion then Some(RuntimeVersionMismatch)
      else if c.serverInstance != a.serverInstance then Some(ServerInstanceMismatch)
      else if c.configuredInputs != Some(DictOf(a.configuredInputs)) then Some(ConfiguredInputsMismatch)
      else if c.configured != ConfiguredText(DictOf(a.configuredInputs)) || c.effective != EFFECTIVE_TEXT
      then Some(RuntimeConfigIncomplete)
      else if a.numParallel != Some(1) || c.numParallel != a.numParallel
              || c.numParallelAuthority != a.numParallelAuthority || c.effectiveNumParallel != Int(1)
              || c.effectiveParallelAuthority != ConfiguredMaximumIsOne
      then Some(ParallelismMismatch)
      else if c.format != Some("gguf") || c.capability != Some("completion") then Some(ModelCellMismatch)
      else if c.requestedContext != Int(safe) || c.effectiveContext != Int(safe) then Some(ContextEvidenceIncomplete)
      else if point.None? then Some(ContextEvidenceIncomplete)
      else if c.cell.placement !in {Cpu, Unified, Accelerator, PartialOffload} then Some(PlacementUnsupported)
      else if !WallEvidenceComplete(c.cell, point.value.cell) then Some(WallEvidenceIncomplete)
      else if !AdmissionEvidenceComplete(c, point.value) then Some(AdmissionEvidenceIncomplete)
      else if RuntimeFingerprint(a).None? then Some(RuntimeAuthorityIncomplete)
      else if Some(row.fingerprint) != RuntimeFingerprint(a) then Some(RuntimeFingerprintMismatch)
      else if !row.reusable then Some(StorageNotReusable)
      else None
  }

  /** `assess_characterization` on the display rows of one machine, runtime and model name. */
  function Assess(rows: seq<Row>, m: Model, a: Authority): Assessment {
    if rows == [] then Assessment(None, None, Some(MissingEvidence))
    else
      var ofArtifact := OfArtifact(rows, ArtifactOf(m));
      var row := Preferred(if ofArtifact != [] then ofArtifact else rows, a);
      var refusal := Refusal(row, m, a);
      if refusal.Some? then Assessment(Some(row), None, refusal) else Assessment(Some(row), Some(row), None)
  }
}
