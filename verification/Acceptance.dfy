/** What stored evidence must say to govern a request, and what a live reading must show. */
module Acceptance {
  import opened Wrappers
  import opened Evidence
  import opened Characterization
  import Text

  const ONE_GIB := 1024 * 1024 * 1024

  // ---------- the stored admission ----------

  /** The parts of an admission's need: the model's weights, its cache, and one GiB for the runtime. */
  predicate NeedIs(r: AdmissionRecord, weights: int, cache: int) {
    && weights > 0 && cache > 0
    && r.residencyBound == Int(weights) && r.kvBound == Int(cache) && r.runtimeBound == Int(ONE_GIB)
    && r.totalBound == Int(weights + cache + ONE_GIB)
  }

  /** Every wall that the record names keeps its margin on the recorded reading, however an allocation within the recorded
      need is split between system memory and the accelerator. */
  ghost predicate KeepsNamedMargins(r: AdmissionRecord) {
    && r.systemAvailable.Int? && r.totalBound.Int?
    && forall system: nat, accelerator: nat :: system + accelerator <= r.totalBound.n ==>
         && r.systemAvailable.n - OnSystem(r, system, accelerator) >= 2 * ONE_GIB
         && (AcceleratorWall in r.walls ==> r.acceleratorAvailable.Int? && r.acceleratorAvailable.n - accelerator >= ONE_GIB)
  }

  /** With one wall named, everything is on it. */
  function OnSystem(r: AdmissionRecord, system: int, accelerator: int): int {
    if AcceleratorWall in r.walls then system else system + accelerator
  }

  /** The record is of the present method, without a reason against the load, for this context, and its need leaves room. */
  ghost predicate SoundAdmission(r: AdmissionRecord, context: Field) {
    && r.methodology == ContextAwareConservativeV1 && r.watchdog == UnavailableExternalDaemon
    && r.reason.None? && r.requestedContext == context
    && (exists weights, cache :: NeedIs(r, weights, cache))
    && r.walls in {[SystemWall], [SystemUnifiedWall], [SystemWall, AcceleratorWall]}
    && r.systemMargin == Int(2 * ONE_GIB)
    && r.acceleratorMargin == (if AcceleratorWall in r.walls then Int(ONE_GIB) else Null)
    && (AcceleratorWall !in r.walls ==> r.acceleratorAvailable == Null)
    && KeepsNamedMargins(r)
  }

  /** An admission record is believed exactly when configuration and point share it and it is sound. */
  lemma AdmissionIsBelieved(config: Config, point: Point)
    ensures AdmissionEvidenceComplete(config, point)
            <==> config.admission == point.admission && config.admission.Some? && config.watchdog == UnavailableExternalDaemon
                 && SoundAdmission(config.admission.value, config.requestedContext)
  {
    if config.admission.Some? {
      var r := config.admission.value;
      if AdmissionEvidenceComplete(config, point) {
        assert NeedIs(r, r.residencyBound.n, r.kvBound.n);
      }
      if SoundAdmission(r, config.requestedContext) {
        var weights, cache :| NeedIs(r, weights, cache);
        WholeNeed(r);
      }
    }
  }

  /** The whole need on one memory is one of the splits. */
  lemma WholeNeed(r: AdmissionRecord)
    requires KeepsNamedMargins(r) && r.totalBound.n >= 0
    ensures r.systemAvailable.n - r.totalBound.n >= 2 * ONE_GIB
    ensures AcceleratorWall in r.walls ==> r.acceleratorAvailable.Int? && r.acceleratorAvailable.n - r.totalBound.n >= ONE_GIB
  {
    var need: nat, none: nat := r.totalBound.n, 0;
    assert OnSystem(r, need, none) == need;
    assert need + none <= r.totalBound.n && none + need <= r.totalBound.n;
    assert r.systemAvailable.n - OnSystem(r, need, none) >= 2 * ONE_GIB;
    assert AcceleratorWall in r.walls ==> r.systemAvailable.n - OnSystem(r, none, need) >= 2 * ONE_GIB;
  }

  // ---------- the stored walls ----------

  /** A runner of `total` bytes of which `onAccelerator` are in accelerator memory has this placement. */
  predicate PlacedAs(placement: Placement, total: int, onAccelerator: int) {
    && total > 0
    && match placement
       case Cpu => onAccelerator == 0
       case Unified => 0 <= onAccelerator <= total
       case Accelerator => onAccelerator == total
       case PartialOffload => 0 < onAccelerator < total
       case _ => false
  }

  /** Which walls a placement touches. */
  function TouchedWalls(placement: Placement): seq<Wall> {
    if placement == Unified then [SystemUnifiedWall]
    else if placement == Cpu then [SystemWall]
    else [SystemWall, AcceleratorWall]
  }

  ghost predicate SoundWalls(c: Cell) {
    && (exists total, onAccelerator ::
          c.residentTotal == Int(total) && c.residentAccelerator == Int(onAccelerator) && PlacedAs(c.placement, total, onAccelerator))
    && c.walls == TouchedWalls(c.placement)
    && c.systemDelta.Int? && c.systemDelta.n >= 0 && c.systemMargin == Int(2 * ONE_GIB)
    && (if AcceleratorWall in c.walls
        then c.acceleratorDelta.Int? && c.acceleratorDelta.n >= 0 && c.acceleratorMargin == Int(ONE_GIB)
        else c.acceleratorDelta == Null && c.acceleratorMargin == Null)
  }

  lemma WallsAreBelieved(config: Cell, point: Cell)
    requires config.placement in {Cpu, Unified, Accelerator, PartialOffload}
    ensures WallEvidenceComplete(config, point) <==> config == point && SoundWalls(config)
  {
    if WallEvidenceComplete(config, point) {
      assert PlacedAs(config.placement, config.residentTotal.n, config.residentAccelerator.n);
    }
  }

  // ---------- the whole row ----------

  /** The first point that fitted at this context, for this context, with nothing against it. */
  predicate ProvesAt(points: seq<Point>, i: nat, safe: int) {
    i < |points| && Proves(points[i], safe) && forall k :: 0 <= k < i ==> !Proves(points[k], safe)
  }

  predicate Proves(p: Point, safe: int) {
    p.fit && p.context == p.requestedContext == p.effectiveContext == Int(safe) && p.reasons == []
  }

  lemma {:induction false} ProvingPointIsFirst(points: seq<Point>, safe: int)
    ensures ProvingPoint(points, safe).None? <==> forall i :: 0 <= i < |points| ==> !Proves(points[i], safe)
    ensures forall i: nat :: ProvesAt(points, i, safe) ==> ProvingPoint(points, safe) == Some(points[i])
    ensures ProvingPoint(points, safe).Some? ==> exists i: nat :: ProvesAt(points, i, safe)
  {
    if points != [] {
      var rest := points[1..];
      ProvingPointIsFirst(rest, safe);
      if Proves(points[0], safe) {
        assert ProvesAt(points, 0, safe);
      } else {
        forall i: nat | ProvesAt(points, i, safe) ensures ProvingPoint(points, safe) == Some(points[i]) {
          assert i > 0 && points[i] == rest[i - 1];
          assert forall k :: 0 <= k < i - 1 ==> rest[k] == points[k + 1];
          assert ProvesAt(rest, i - 1, safe);
        }
        if ProvingPoint(rest, safe).Some? {
          var j: nat :| ProvesAt(rest, j, safe);
          assert forall k :: 0 < k <= j ==> points[k] == rest[k - 1];
          assert ProvesAt(points, j + 1, safe);
        }
        if i :| 0 <= i < |points| && Proves(points[i], safe) {
          assert rest[i - 1] == points[i];
        }
      }
    }
  }

  /** The row is a record of this model under this manifest, by the present method, that the store marks reusable. */
  predicate OfModel(row: Row, m: Model) {
    && m.scope == LocalModel && m.format.Some? && Text.Lower(m.format.value) == "gguf" && "completion" in m.capabilities
    && m.digest.Some? && row.artifact == OllamaManifest(m.digest.value)
    && row.methodologyKey == OllamaMethodology && row.reusable
  }

  /** The configuration is that of this daemon: endpoint, version, instance, inputs, parallelism and build. */
  predicate OfDaemon(row: Row, c: Config, a: Authority) {
    var inputs := DictOf(a.configuredInputs);
    && a.issue.None? && a.endpoint.scope == Loopback && RuntimeFingerprint(a) == Some(row.fingerprint)
    && c.endpointAuthority == a.endpoint.url && c.runtime == Some("ollama") && c.runtimeVersion == a.serverVersion
    && c.serverInstance == a.serverInstance && c.configuredInputs == Some(inputs)
    && c.configured.kvCacheType == Some(Lookup(inputs, "OLLAMA_KV_CACHE_TYPE"))
    && c.configured.flashAttention == Some(Lookup(inputs, "OLLAMA_FLASH_ATTENTION"))
    && c.configured.schedulerSpread == Some(Lookup(inputs, "OLLAMA_SCHED_SPREAD"))
    && c.effective == Text3(Some("unknown"), Some("unknown"), Some("unknown"))
    && a.numParallel == c.numParallel == Some(1) && c.numParallelAuthority == a.numParallelAuthority
    && c.effectiveNumParallel == Int(1) && c.effectiveParallelAuthority == ConfiguredMaximumIsOne
    && c.format == Some("gguf") && c.capability == Some("completion") && c.methodology == PhysicalWallsV1
  }

  /** The ceiling is positive, and the first point that proves it carries the configuration's walls and admission, both sound. */
  ghost predicate ProvenContext(row: Row, c: Config) {
    && row.safeContext.Some? && row.safeContext.value > 0
    && c.requestedContext == c.effectiveContext == Int(row.safeContext.value)
    && SoundWalls(c.cell)
    && c.admission.Some? && c.watchdog == UnavailableExternalDaemon && SoundAdmission(c.admission.value, c.requestedContext)
    && row.points.Some?
    && exists i: nat :: ProvesAt(row.points.value, i, row.safeContext.value)
                        && row.points.value[i].cell == c.cell && row.points.value[i].admission == c.admission
  }

  lemma SoundWallsArePlaced(c: Cell)
    requires SoundWalls(c)
    ensures c.placement in {Cpu, Unified, Accelerator, PartialOffload}
  {
  }

  /** The tests on contexts, walls and admission are those of a proven context. */
  lemma ContextIsBelieved(row: Row, c: Config, safe: int, points: seq<Point>)
    requires row.safeContext == Some(safe) && safe > 0 && row.points == Some(points)
    requires c.requestedContext == c.effectiveContext == Int(safe)
    ensures ProvenContext(row, c)
            <==> && ProvingPoint(points, safe).Some? && c.cell.placement in {Cpu, Unified, Accelerator, PartialOffload}
                 && WallEvidenceComplete(c.cell, ProvingPoint(points, safe).value.cell)
                 && AdmissionEvidenceComplete(c, ProvingPoint(points, safe).value)
  {
    hide AdmissionEvidenceComplete, WallEvidenceComplete, SoundAdmission, SoundWalls, ProvingPoint, Proves;
    ProvingPointIsFirst(points, safe);
    if SoundWalls(c.cell) { SoundWallsArePlaced(c.cell); }
    if ProvingPoint(points, safe).Some? {
      var point := ProvingPoint(points, safe).value;
      var i: nat :| ProvesAt(points, i, safe);
      AdmissionIsBelieved(c, point);
      if c.cell.placement in {Cpu, Unified, Accelerator, PartialOffload} {
        WallsAreBelieved(c.cell, point.cell);
      }
    }
  }

  /** A row is accepted exactly when it is of this model and this daemon and proves its context. */
  lemma AcceptedExactly(row: Row, m: Model, a: Authority)
    ensures Refusal(row, m, a).None?
            <==> row.config.Some? && OfModel(row, m) && OfDaemon(row, row.config.value, a) && ProvenContext(row, row.config.value)
  {
    hide AdmissionEvidenceComplete, WallEvidenceComplete, SoundAdmission, SoundWalls, RuntimeFingerprint, Lookup, DictOf,
      ProvingPoint, ProvesAt;
    if row.config.Some? && row.safeContext.Some? && row.safeContext.value > 0 && row.points.Some? {
      var c, safe := row.config.value, row.safeContext.value;
      if c.requestedContext == c.effectiveContext == Int(safe) {
        ContextIsBelieved(row, c, safe, row.points.value);
        hide ProvenContext;
      }
    }
  }

  /** An accepted row's admission is sound for its safe context: whatever was allocated within the recorded need, each named
      wall kept its margin on the recorded readings. */
  lemma AcceptedAdmissionIsSound(row: Row, m: Model, a: Authority)
    requires Refusal(row, m, a).None?
    ensures row.config.Some? && row.safeContext.Some? && row.config.value.admission.Some?
    ensures SoundAdmission(row.config.value.admission.value, Int(row.safeContext.value))
  {
    AcceptedExactly(row, m, a);
  }

  // ---------- live readings ----------

  /** A measurement fits exactly when its placement is known, every touched wall keeps its margin, and the runner has the
      requested context. */
  lemma FitsExactly(before: MemorySnapshot, after: MemorySnapshot, p: Process, context: int)
    ensures CharacterizationPoint(before, after, p, context).fit
            <==> exists placement :: IsPlaced(after, p, placement) && WallsHold(after, placement) && p.effectiveContext == Some(context)
    ensures CharacterizationPoint(before, after, p, context).fit ==>
              IsPlaced(after, p, CharacterizationPoint(before, after, p, context).cell.placement)
  {
    var placement := ClassifyPlacement(after, p);
    PlacementIsUnique(after, p);
    if CharacterizationPoint(before, after, p, context).fit {
      assert IsPlaced(after, p, placement) && WallsHold(after, placement);
    }
  }

  /** Where the runner's bytes are, on this topology. */
  predicate IsPlaced(s: MemorySnapshot, p: Process, placement: Placement) {
    && p.size.Some? && p.sizeVram.Some? && PlacedAs(placement, p.size.value, p.sizeVram.value)
    && (placement == Cpu || (if s.unified && s.kind == Some(Apple) then placement == Unified && p.sizeVram.value > 0
                             else s.kind == Some(Nvidia) && s.count == Some(1) && placement != Unified))
  }

  predicate WallsHold(s: MemorySnapshot, placement: Placement) {
    && s.systemTotal.Some? && s.systemAvailable.Some? && s.systemAvailable.value >= 2 * ONE_GIB
    && (placement in {Accelerator, PartialOffload} ==>
          s.acceleratorTotal.Some? && s.acceleratorAvailable.Some? && s.acceleratorAvailable.value >= ONE_GIB)
  }

  lemma PlacementIsUnique(s: MemorySnapshot, p: Process)
    ensures forall placement :: IsPlaced(s, p, placement) <==> placement == ClassifyPlacement(s, p) && placement != UnknownPlacement
  {
  }

  /** A live reading is accepted exactly when the runner is placed as recorded, on the recorded walls, within its margins, at
      this context. */
  lemma LiveResidencyExactly(s: MemorySnapshot, p: Process, cell: Cell, context: int)
    requires cell.walls == TouchedWalls(cell.placement)
    ensures LiveResidencyRefusal(s, p, cell, context).None?
            <==> IsPlaced(s, p, cell.placement) && WallsHold(s, cell.placement) && p.effectiveContext == Some(context)
  {
    PlacementIsUnique(s, p);
  }

  // ---------- the build ----------

  predicate HasText(s: Option<string>) {
    s.Some? && s.value != ""
  }

  /** A runtime has a fingerprint exactly when it is a local one without an issue, fully described, and serves one request at
      a time; two such runtimes share it exactly when they agree in all of this. */
  lemma FingerprintsEqualExactly(a: Authority, b: Authority)
    ensures RuntimeFingerprint(a).Some?
            <==> && a.issue.None? && a.endpoint.scope == Loopback && HasText(a.endpoint.url) && HasText(a.serverVersion)
                 && HasText(a.serverInstance) && a.numParallel == Some(1) && HasText(a.numParallelAuthority)
    ensures RuntimeFingerprint(a).Some? && RuntimeFingerprint(b).Some? ==>
              (RuntimeFingerprint(a) == RuntimeFingerprint(b)
               <==> && a.endpoint.url == b.endpoint.url && a.serverVersion == b.serverVersion && a.serverInstance == b.serverInstance
                    && a.listenerPid == b.listenerPid && a.bindHost == b.bindHost
                    && multiset(a.configuredInputs) == multiset(b.configuredInputs)
                    && a.numParallelAuthority == b.numParallelAuthority)
  {
  }
}
