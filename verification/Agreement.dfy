/** The record a ramp stores is the record the strict reader accepts, and the live gates agree with both. */
module Agreement {
  import opened Wrappers
  import opened Evidence
  import opened AdmissionProofs
  import opened RampEvidence
  import opened Characterization
  import Text
  import RampSchedule

  /** The row that `ara characterize --engine ollama` saves for a ceiling and its points. */
  function RowFrom(
    machineKey: string, m: Model, a: Authority, best: Option<int>, points: seq<Point>,
    probe: Option<ProbeTarget>, measuredAt: string, configKey: string, authorityKey: string): Row
    requires RuntimeFingerprint(a).Some?
  {
    SavedRow(Saving(machineKey, "ollama", m.name, best, None, points, measuredAt,
                    CharacterizationConfig(a, m, best, points).(probe := probe), ArtifactOf(m), configKey, authorityKey,
                    OllamaMethodology, RuntimeFingerprint(a).value))
  }

  /** The row that is saved after a ramp with these observations. */
  function RecordedRow(
    machineKey: string, m: Model, a: Authority, rungs: seq<int>, subject: Subject, obs: seq<RungObservation>,
    probe: Option<ProbeTarget>, measuredAt: string, configKey: string, authorityKey: string): Row
    requires |obs| <= |rungs| && RuntimeFingerprint(a).Some?
  {
    RowFrom(machineKey, m, a, BestOf(rungs, obs), PointsOf(rungs, subject, obs), probe, measuredAt, configKey, authorityKey)
  }

  /** The rung observation behind the ceiling. */
  function BestObservation(rungs: seq<int>, obs: seq<RungObservation>): RungObservation
    requires |obs| <= |rungs| && BestOf(rungs, obs).Some?
  {
    var last := |obs| - 1;
    if FitsAt(obs[last], rungs[last]) then obs[last] else BestObservation(rungs, obs[..last])
  }

  lemma {:induction false} BestObservationIsBest(rungs: seq<int>, subject: Subject, obs: seq<RungObservation>) returns (k: nat)
    requires RampRun(rungs, subject, obs) && RampSchedule.Ascending(rungs) && BestOf(rungs, obs).Some?
    ensures k < |obs| && BestOf(rungs, obs) == Some(rungs[k])
    ensures obs[k] == BestObservation(rungs, obs) && FitsAt(obs[k], rungs[k])
    ensures k < |PointsOf(rungs, subject, obs)| && Some(PointsOf(rungs, subject, obs)[k]) == PointAt(obs[k], rungs[k], subject)
  {
    PointsOfShape(rungs, subject, obs);
    k := BestIndex(rungs, obs);
    BestObservationAt(rungs, obs, k);
    assert k >= |obs| - 2;
    if k == |obs| - 1 {
      PointsOfFitting(rungs, subject, obs);
    }
  }

  lemma {:induction false} BestObservationAt(rungs: seq<int>, obs: seq<RungObservation>, k: nat)
    requires |obs| <= |rungs| && k < |obs| && FitsAt(obs[k], rungs[k])
    requires forall i :: k < i < |obs| ==> !FitsAt(obs[i], rungs[i])
    ensures BestOf(rungs, obs).Some? && BestObservation(rungs, obs) == obs[k]
  {
    if k < |obs| - 1 {
      BestObservationAt(rungs, obs[..|obs| - 1], k);
    }
  }

  /** In ascending points, the point searched for backwards by context is the one at that index. */
  lemma {:induction false} BestPointAt(points: seq<Point>, rungs: seq<int>, k: nat)
    requires |points| <= |rungs| && RampSchedule.Ascending(rungs) && k < |points| && points[k].fit
    requires forall i :: 0 <= i < |points| ==> points[i].requestedContext == Int(rungs[i])
    ensures BestPoint(points, Int(rungs[k])) == Some(points[k])
  {
    if k < |points| - 1 {
      BestPointAt(points[..|points| - 1], rungs, k);
    }
  }

  /** In ascending points, the point searched for forwards as proof of a context is the one at that index. */
  lemma {:induction false} ProvingPointAt(points: seq<Point>, safe: int, k: nat)
    requires k < |points| && points[k].fit && points[k].context == points[k].requestedContext == Int(safe)
    requires points[k].effectiveContext == Int(safe) && points[k].reasons == []
    requires forall i :: 0 <= i < k ==> points[i].context != Int(safe)
    ensures ProvingPoint(points, safe) == Some(points[k])
  {
    if k > 0 {
      ProvingPointAt(points[1..], safe, k - 1);
    }
  }

  /** A fitting measurement has a known placement, its margins intact, and the requested effective context. */
  lemma FittingMeasurement(before: MemorySnapshot, after: MemorySnapshot, p: Process, context: int)
    requires CharacterizationPoint(before, after, p, context).fit
    ensures ClassifyPlacement(after, p) in {Cpu, Unified, Accelerator, PartialOffload}
    ensures p.effectiveContext == Some(context)
    ensures after.systemTotal.Some? && after.systemAvailable.Some? && after.systemAvailable.value >= SYSTEM_MARGIN_BYTES
    ensures Offloaded(ClassifyPlacement(after, p)) ==>
              after.acceleratorTotal.Some? && after.acceleratorAvailable.Some?
              && after.acceleratorAvailable.value >= ACCELERATOR_MARGIN_BYTES
  {
    var placement := ClassifyPlacement(after, p);
    var walls := WallsFor(placement);
    assert Offloaded(placement) <==> AcceleratorWall in walls;
    var reasons := PointReasons(placement, after, p, context);
    if placement != UnknownPlacement {
      assert reasons == [];
    }
  }

  /** The wall evidence of a fitting measurement is complete exactly when an offloaded placement had its
      accelerator reading before the load; all other wall fields are always complete. */
  lemma MeasuredWallsComplete(before: MemorySnapshot, after: MemorySnapshot, p: Process, context: int)
    requires CharacterizationPoint(before, after, p, context).fit
    requires before.systemAvailable.Some?
    ensures var cell := CharacterizationPoint(before, after, p, context).cell;
            && cell.placement in {Cpu, Unified, Accelerator, PartialOffload}
            && (WallEvidenceComplete(cell, cell)
                <==> (Offloaded(cell.placement) ==> before.acceleratorAvailable.Some?))
  {
    FittingMeasurement(before, after, p, context);
  }

  /** The admission stored with a loaded rung satisfies every admission test of the strict reader. */
  lemma AdmittedEvidenceComplete(s: MemorySnapshot, subject: Subject, context: int, config: Config, point: Point)
    requires Admits(s, subject.size, context, subject.info)
    requires config.requestedContext == Int(context) && config.watchdog == UnavailableExternalDaemon
    requires config.admission == point.admission
             == Some(PreflightAdmission(s, subject.size, context, subject.info).AsRecord())
    ensures AdmissionEvidenceComplete(config, point)
  {
    AdmittedTotal(s, subject.size, context, subject.info);
  }

  /** Producer and validator agree on every field: the row saved by a ramp that found a ceiling is reusable for the
      same model and runtime, exactly when an offloaded placement had its accelerator reading before the load;
      otherwise the only complaint is incomplete wall evidence. */
  lemma ProducedRowIsReusable(
    machineKey: string, m: Model, a: Authority, max: int, subject: Subject, obs: seq<RungObservation>,
    probe: Option<ProbeTarget>, measuredAt: string, configKey: string, authorityKey: string)
    requires RampRun(RampSchedule.Rungs(max), subject, obs)
    requires BestOf(RampSchedule.Rungs(max), obs).Some?
    requires RuntimeFingerprint(a).Some? && GovernedModel(m) && m.digest.Some? && IsDigest(m.digest.value)
    ensures var rungs := RampSchedule.Rungs(max);
            var o := BestObservation(rungs, obs);
            var row := RecordedRow(machineKey, m, a, rungs, subject, obs, probe, measuredAt, configKey, authorityKey);
            && o.Measured?
            && Refusal(row, m, a)
               == (if Offloaded(ClassifyPlacement(o.after, o.process)) && o.before.acceleratorAvailable.None?
                   then Some(WallEvidenceIncomplete) else None)
            && row.reusable
            && RankOf(row, a).exact
  {
    hide PreflightAdmission, CharacterizationPoint, BestPoint, ProvingPoint, Refusal, WallEvidenceComplete, AdmissionEvidenceComplete, PointsOf, BestOf, BestObservation, IsDigest, DictOf;
    var rungs := RampSchedule.Rungs(max);
    RampSchedule.RungsShape(RampSchedule.FLOOR, max);
    var safe, point := CeilingPoint(rungs, subject, obs);
    var points := PointsOf(rungs, subject, obs);
    var row := RecordedRow(machineKey, m, a, rungs, subject, obs, probe, measuredAt, configKey, authorityKey);
    LowerOfDigest(m.digest.value);
    assert AdmissionEvidenceComplete(row.config.value, point) by {
      var o := BestObservation(rungs, obs);
      AdmittedEvidenceComplete(o.before, subject, safe, row.config.value, point);
    }
    MatchingRowJudged(row, m, a, safe, points, point, probe);
  }

  // A machine whose accelerator answered only after the load: its query timed out at the reading before.

  const BEFORE_ANSWER := MemorySnapshot(Some(0x10_0000_0000), Some(0x8_0000_0000), None, Some(0), None, None, false)
  const AFTER_ANSWER :=
    MemorySnapshot(Some(0x10_0000_0000), Some(0x6_0000_0000), Some(Nvidia), Some(1), Some(0x4_0000_0000), Some(0x2_0000_0000), false)
  const SMALL_MODEL :=
    Subject(Some(0x1_0000_0000),
            ModelInfo(Some("llama"), map["llama" + ".block_count" := Int(32), "llama" + ".attention.head_count_kv" := Int(8),
                                         "llama" + ".attention.key_length" := Int(128)]))

  function SplitRunner(probe: string, digest: string): Process {
    Process(probe, Some(digest), Some(0x2_0000_0000), Some(0x1_0000_0000), Some(2048))
  }

  /** The failing case is real: the admission named only the system wall, the runner was split over both memories, the
      ramp found a ceiling, and the row saved as reusable is refused by the assessment of the very same daemon. */
  lemma LateAcceleratorIsRefused(
    machineKey: string, m: Model, a: Authority, name: string, digest: string, probe: Option<ProbeTarget>, measuredAt: string,
    configKey: string, authorityKey: string)
    requires RuntimeFingerprint(a).Some? && GovernedModel(m) && m.digest.Some? && IsDigest(m.digest.value)
    ensures var rungs := RampSchedule.Rungs(2048);
            var obs := [Measured(BEFORE_ANSWER, AFTER_ANSWER, SplitRunner(name, digest))];
            && RampRun(rungs, SMALL_MODEL, obs) && BestOf(rungs, obs) == Some(2048)
            && var row := RecordedRow(machineKey, m, a, rungs, SMALL_MODEL, obs, probe, measuredAt, configKey, authorityKey);
               row.reusable && Refusal(row, m, a) == Some(WallEvidenceIncomplete)
  {
    hide Refusal, IsDigest, RuntimeFingerprint, GovernedModel, RowFrom;
    var obs := [Measured(BEFORE_ANSWER, AFTER_ANSWER, SplitRunner(name, digest))];
    LateAcceleratorFits(name, digest);
    ProducedRowIsReusable(machineKey, m, a, 2048, SMALL_MODEL, obs, probe, measuredAt, configKey, authorityKey);
  }

  lemma LateAcceleratorFits(name: string, digest: string)
    ensures RampSchedule.Rungs(2048) == [2048]
    ensures Admits(BEFORE_ANSWER, SMALL_MODEL.size, 2048, SMALL_MODEL.info)
    ensures ClassifyPlacement(AFTER_ANSWER, SplitRunner(name, digest)) == PartialOffload
    ensures CharacterizationPoint(BEFORE_ANSWER, AFTER_ANSWER, SplitRunner(name, digest), 2048).fit
  {
    var info := SMALL_MODEL.info;
    var layers, heads, dim := "llama" + ".block_count", "llama" + ".attention.head_count_kv", "llama" + ".attention.key_length";
    assert |layers| == 17 && |heads| == 29 && |dim| == 26;
    assert ContextAllocationBound(2048, info) == Some(2048 * 32 * 8 * 128 * 2 * KV_ELEMENT_BYTES);
  }

  /** The point that set the ceiling is the one the configuration copies and the one the strict reader finds. */
  lemma CeilingPoint(rungs: seq<int>, subject: Subject, obs: seq<RungObservation>) returns (safe: int, point: Point)
    requires RampRun(rungs, subject, obs) && RampSchedule.Ascending(rungs) && BestOf(rungs, obs).Some?
    ensures BestOf(rungs, obs) == Some(safe) && safe > 0
    ensures var o := BestObservation(rungs, obs);
            var points := PointsOf(rungs, subject, obs);
            && o.Measured? && Admits(o.before, subject.size, safe, subject.info)
            && Some(point) == BestPoint(points, Int(safe)) == ProvingPoint(points, safe)
            && point.fit && point.effectiveContext == Int(safe)
            && point.admission == Some(PreflightAdmission(o.before, subject.size, safe, subject.info).AsRecord())
            && point.cell == CharacterizationPoint(o.before, o.after, o.process, safe).cell
            && point.cell.placement == ClassifyPlacement(o.after, o.process)
            && point.cell.placement in {Cpu, Unified, Accelerator, PartialOffload}
            && (WallEvidenceComplete(point.cell, point.cell)
                <==> (Offloaded(point.cell.placement) ==> o.before.acceleratorAvailable.Some?))
  {
    var k := BestObservationIsBest(rungs, subject, obs);
    var points := PointsOf(rungs, subject, obs);
    PointsOfShape(rungs, subject, obs);
    safe, point := rungs[k], points[k];
    var o := obs[k];
    AdmittedTotal(o.before, subject.size, safe, subject.info);
    FittingMeasurement(o.before, o.after, o.process, safe);
    MeasuredWallsComplete(o.before, o.after, o.process, safe);
    forall i | 0 <= i < |points| ensures points[i].context == points[i].requestedContext == Int(rungs[i]) {
      PointFacts(obs[i], rungs[i], subject);
    }
    BestPointAt(points, rungs, k);
    ProvingPointAt(points, safe, k);
  }

  lemma LowerOfDigest(s: string)
    requires IsDigest(s)
    ensures Text.Lower(s) == s
  {
  }

  /** A row whose configuration was built for this model and runtime can only be refused for its wall evidence. */
  lemma MatchingRowJudged(
    row: Row, m: Model, a: Authority, safe: int, points: seq<Point>, point: Point, probe: Option<ProbeTarget>)
    requires row.config == Some(CharacterizationConfig(a, m, Some(safe), points).(probe := probe))
    requires row.safeContext == Some(safe) && safe > 0 && row.points == Some(points) && row.reusable
    requires row.methodologyKey == OllamaMethodology && Some(row.fingerprint) == RuntimeFingerprint(a)
    requires ArtifactOf(m) == Some(row.artifact) && GovernedModel(m)
    requires BestPoint(points, Int(safe)) == Some(point) == ProvingPoint(points, safe)
    requires point.effectiveContext == Int(safe)
    requires point.cell.placement in {Cpu, Unified, Accelerator, PartialOffload}
    requires AdmissionEvidenceComplete(row.config.value, point)
    ensures Refusal(row, m, a)
            == (if WallEvidenceComplete(point.cell, point.cell) then None else Some(WallEvidenceIncomplete))
    ensures RankOf(row, a).exact
  {
  }

  /** One memory topology at two moments. */
  predicate SameTopology(x: MemorySnapshot, y: MemorySnapshot) {
    x.kind == y.kind && x.count == y.count && x.unified == y.unified
  }

  /** With an unchanged topology, admission has already read the accelerator, so the stored row is reusable. */
  lemma SameTopologyKeepsEvidence(before: MemorySnapshot, after: MemorySnapshot, p: Process, subject: Subject, context: int)
    requires SameTopology(before, after) && Admits(before, subject.size, context, subject.info)
    ensures Offloaded(ClassifyPlacement(after, p)) ==> before.acceleratorAvailable.Some?
  {
  }

  // ---------- the newest row is the one chosen ----------

  lemma OutranksIsTransitive(x: Rank, y: Rank, z: Rank)
    requires !Outranks(x, y) && !Outranks(y, z)
    ensures !Outranks(x, z)
  {
    Text.PrecedesTotal(x.measuredAt, y.measuredAt);
    Text.PrecedesTotal(y.measuredAt, z.measuredAt);
    Text.PrecedesTotal(x.measuredAt, z.measuredAt);
    Text.PrecedesTotal(x.configKey, y.configKey);
    Text.PrecedesTotal(y.configKey, z.configKey);
    Text.PrecedesTotal(x.configKey, z.configKey);
    if Text.Precedes(x.measuredAt, y.measuredAt) && Text.Precedes(y.measuredAt, z.measuredAt) {
      Text.PrecedesTransitive(x.measuredAt, y.measuredAt, z.measuredAt);
    }
    if Text.Precedes(x.configKey, y.configKey) && Text.Precedes(y.configKey, z.configKey) {
      Text.PrecedesTransitive(x.configKey, y.configKey, z.configKey);
    }
  }

  lemma OutranksIsIrreflexive(x: Rank)
    ensures !Outranks(x, x)
  {
    Text.PrecedesTotal(x.configKey, x.configKey);
  }

  /** No row outranks the preferred one. */
  lemma {:induction false} PreferredIsMaximal(rows: seq<Row>, a: Authority)
    requires rows != []
    ensures Preferred(rows, a) in rows
    ensures forall r :: r in rows ==> !Outranks(RankOf(r, a), RankOf(Preferred(rows, a), a))
  {
    var last := rows[|rows| - 1];
    OutranksIsIrreflexive(RankOf(last, a));
    if |rows| > 1 {
      var front := rows[..|rows| - 1];
      var best := Preferred(front, a);
      PreferredIsMaximal(front, a);
      assert forall r :: r in rows ==> r in front || r == last;
      if Outranks(RankOf(last, a), RankOf(best, a)) {
        OutranksIsAsymmetric(RankOf(last, a), RankOf(best, a));
        forall r | r in front ensures !Outranks(RankOf(r, a), RankOf(last, a)) {
          OutranksIsTransitive(RankOf(r, a), RankOf(best, a), RankOf(last, a));
        }
      }
    } else {
      assert rows == [last];
    }
  }

  lemma OutranksIsAsymmetric(x: Rank, y: Rank)
    requires Outranks(x, y)
    ensures !Outranks(y, x)
  {
    Text.PrecedesTotal(x.measuredAt, y.measuredAt);
    Text.PrecedesTotal(x.configKey, y.configKey);
  }

  lemma {:induction false} OfArtifactContents(rows: seq<Row>, artifact: Option<ArtifactId>, r: Row)
    ensures r in OfArtifact(rows, artifact) <==> r in rows && artifact == Some(r.artifact)
  {
    if rows != [] {
      OfArtifactContents(rows[1..], artifact, r);
      assert r in rows <==> r == rows[0] || r in rows[1..];
    }
  }

  /** A row for this artifact, runtime and methodology that is measured later than every other such row is the one
      assessed, whatever else the history holds. */
  lemma NewestExactRowIsAssessed(rows: seq<Row>, m: Model, a: Authority, row: Row)
    requires row in rows && ArtifactOf(m) == Some(row.artifact) && RankOf(row, a).exact
    requires forall r :: r in rows && r != row && r.artifact == row.artifact && RankOf(r, a).exact ==>
               Text.Precedes(r.measuredAt.GetOr(""), row.measuredAt.GetOr(""))
    ensures Assess(rows, m, a).display == Some(row)
    ensures Assess(rows, m, a).reusable == (if Refusal(row, m, a).None? then Some(row) else None)
  {
    var candidates := OfArtifact(rows, ArtifactOf(m));
    OfArtifactContents(rows, ArtifactOf(m), row);
    PreferredIsMaximal(candidates, a);
    var chosen := Preferred(candidates, a);
    OfArtifactContents(rows, ArtifactOf(m), chosen);
    Text.PrecedesTotal(chosen.measuredAt.GetOr(""), row.measuredAt.GetOr(""));
    assert chosen == row || Outranks(RankOf(row, a), RankOf(chosen, a));
  }

  /** End to end: after a ramp with a steady topology finds a ceiling and its row is the newest in the history,
      the assessment hands back exactly that row as reusable. */
  lemma NewestRampIsReusable(
    rows: seq<Row>, machineKey: string, m: Model, a: Authority, max: int, subject: Subject, obs: seq<RungObservation>,
    probe: Option<ProbeTarget>, measuredAt: string, configKey: string, authorityKey: string)
    requires RampRun(RampSchedule.Rungs(max), subject, obs)
    requires BestOf(RampSchedule.Rungs(max), obs).Some?
    requires RuntimeFingerprint(a).Some? && GovernedModel(m) && m.digest.Some? && IsDigest(m.digest.value)
    requires forall o :: o in obs && o.Measured? ==> SameTopology(o.before, o.after)
    requires var row := RecordedRow(machineKey, m, a, RampSchedule.Rungs(max), subject, obs, probe, measuredAt, configKey, authorityKey);
             row in rows && forall r :: r in rows && r != row && r.artifact == row.artifact && RankOf(r, a).exact ==>
                              Text.Precedes(r.measuredAt.GetOr(""), measuredAt)
    ensures var row := RecordedRow(machineKey, m, a, RampSchedule.Rungs(max), subject, obs, probe, measuredAt, configKey, authorityKey);
            && Assess(rows, m, a).reusable == Some(row)
            && row.safeContext == BestOf(RampSchedule.Rungs(max), obs)
  {
    var rungs := RampSchedule.Rungs(max);
    var row := RecordedRow(machineKey, m, a, rungs, subject, obs, probe, measuredAt, configKey, authorityKey);
    ProducedRowIsReusable(machineKey, m, a, max, subject, obs, probe, measuredAt, configKey, authorityKey);
    RampSchedule.RungsShape(RampSchedule.FLOOR, max);
    var k := BestObservationIsBest(rungs, subject, obs);
    SameTopologyKeepsEvidence(obs[k].before, obs[k].after, obs[k].process, subject, rungs[k]);
    NewestExactRowIsAssessed(rows, m, a, row);
  }

  // ---------- the live gates ----------

  /** The snapshot and process that set the ceiling pass the live gates for the stored cell. */
  lemma MeasuredStatePassesLiveGates(before: MemorySnapshot, after: MemorySnapshot, p: Process, context: int)
    requires CharacterizationPoint(before, after, p, context).fit
    ensures var cell := CharacterizationPoint(before, after, p, context).cell;
            && LiveResidencyRefusal(after, p, cell, context).None?
            && LiveHeadroomRefusal(after, cell, true).None?
  {
    FittingMeasurement(before, after, p, context);
  }

  /** Accepted wall evidence is always sufficient for the headroom gate; the peaks it charges to the two memories
      add up to the recorded total for offloaded placements; and passing leaves both margins after adding them. */
  lemma AcceptedEvidenceSufficesForHeadroom(config: Cell, point: Cell, s: MemorySnapshot, resident: bool)
    requires config.placement in {Cpu, Unified, Accelerator, PartialOffload}
    requires WallEvidenceComplete(config, point)
    ensures LiveHeadroomRefusal(s, config, resident) != Some(WallEvidenceMissing)
    ensures LiveHeadroomRefusal(s, config, false).None? ==>
              var accelerator := if Offloaded(config.placement) then config.residentAccelerator.n else 0;
              var system := config.residentTotal.n - accelerator;
              && system >= 0 && accelerator >= 0 && system + accelerator == config.residentTotal.n > 0
              && s.systemAvailable.Some? && s.systemAvailable.value - system >= SYSTEM_MARGIN_BYTES
              && (Offloaded(config.placement) ==>
                    s.acceleratorAvailable.Some? && s.acceleratorAvailable.value - accelerator >= ACCELERATOR_MARGIN_BYTES)
    ensures LiveHeadroomRefusal(s, config, true).None? ==>
              && s.systemAvailable.Some? && s.systemAvailable.value >= SYSTEM_MARGIN_BYTES
              && (Offloaded(config.placement) ==>
                    s.acceleratorAvailable.Some? && s.acceleratorAvailable.value >= ACCELERATOR_MARGIN_BYTES)
  {
  }

  /** A refusal of the headroom gate is deserved: the walls are unreadable, the topology differs, or a margin
      would be broken by the recorded peak. */
  lemma HeadroomRefusalIsDeserved(config: Cell, point: Cell, s: MemorySnapshot, resident: bool)
    requires config.placement in {Cpu, Unified, Accelerator, PartialOffload}
    requires WallEvidenceComplete(config, point)
    requires s.systemTotal.Some? && s.systemAvailable.Some?
    requires config.placement == Unified ==> s.unified && s.kind == Some(Apple)
    requires Offloaded(config.placement) ==>
               s.kind == Some(Nvidia) && s.count == Some(1) && s.acceleratorTotal.Some? && s.acceleratorAvailable.Some?
    ensures var accelerator := if Offloaded(config.placement) && !resident then config.residentAccelerator.n else 0;
            var system := if resident then 0 else config.residentTotal.n - accelerator;
            LiveHeadroomRefusal(s, config, resident).None? <==>
              && s.systemAvailable.value - system >= SYSTEM_MARGIN_BYTES
              && (Offloaded(config.placement) ==>
                    s.acceleratorAvailable.value - accelerator >= ACCELERATOR_MARGIN_BYTES)
  {
  }
}
