/** The ramp over all rungs, and `ara characterize --engine ollama` around it. */
module Characterize {
  import opened Wrappers
  import opened Evidence
  import opened Characterization
  import opened Events
  import opened Daemon
  import opened ProbeLifecycle
  import opened ProbeRamp
  import opened WatchedProbe
  import opened RampEvidence
  import Agreement
  import GovernedNames
  import RampSchedule

  lemma OneMoreRung(rungs: seq<int>, subject: Subject, obs: seq<RungObservation>, o: RungObservation)
    requires |obs| < |rungs|
    ensures var more := obs + [o];
            && PointsOf(rungs, subject, more)
               == PointsOf(rungs, subject, obs)
                  + (if PointAt(o, rungs[|obs|], subject).Some? then [PointAt(o, rungs[|obs|], subject).value] else [])
            && BestOf(rungs, more)
               == (if FitsAt(o, rungs[|obs|]) then Some(rungs[|obs|]) else BestOf(rungs, obs))
  {
    var more := obs + [o];
    assert more[..|more| - 1] == obs;
  }

  /** The runner that the rung before left, if it fitted: its context and its manifest. */
  function PreviousOf(rungs: seq<int>, obs: seq<RungObservation>, i: nat): Option<(int, string)>
    requires i <= |obs| <= |rungs|
  {
    if i > 0 && obs[i - 1].Measured? && obs[i - 1].process.digest.Some? then Some((rungs[i - 1], obs[i - 1].process.digest.value)) else None
  }

  /** Every rung so far observed what the trace shows. */
  ghost predicate AllObserved(t: seq<Event>, job: Job, a: Authority, rungs: seq<int>, obs: seq<RungObservation>) {
    && |obs| <= |rungs|
    && forall i :: 0 <= i < |obs| ==> Observed(t, job, a, rungs[i], PreviousOf(rungs, obs, i), obs[i])
  }

  lemma AllObservedStays(t: seq<Event>, u: seq<Event>, job: Job, a: Authority, rungs: seq<int>, obs: seq<RungObservation>)
    requires Extends(t, u) && AllObserved(t, job, a, rungs, obs)
    ensures AllObserved(u, job, a, rungs, obs)
  {
    hide Observed, PreviousOf;
    forall i | 0 <= i < |obs| ensures Observed(u, job, a, rungs[i], PreviousOf(rungs, obs, i), obs[i]) {
      ObservedStays(t, u, job, a, rungs[i], PreviousOf(rungs, obs, i), obs[i]);
    }
  }

  lemma OneMoreObserved(
    t: seq<Event>, u: seq<Event>, job: Job, a: Authority, rungs: seq<int>, obs: seq<RungObservation>, o: RungObservation)
    requires Extends(t, u) && AllObserved(t, job, a, rungs, obs) && |obs| < |rungs|
    requires Observed(u, job, a, rungs[|obs|], PreviousOf(rungs, obs, |obs|), o)
    ensures AllObserved(u, job, a, rungs, obs + [o])
  {
    hide Observed;
    AllObservedStays(t, u, job, a, rungs, obs);
    forall i | 0 <= i <= |obs| ensures Observed(u, job, a, rungs[i], PreviousOf(rungs, obs + [o], i), (obs + [o])[i]) {
      assert PreviousOf(rungs, obs + [o], i) == PreviousOf(rungs, obs, i);
    }
  }

  /** In particular every measured rung is eleven events of the trace. */
  lemma MeasuredIsProbed(t: seq<Event>, job: Job, a: Authority, rungs: seq<int>, obs: seq<RungObservation>, i: nat)
    requires AllObserved(t, job, a, rungs, obs) && i < |obs| && obs[i].Measured?
    ensures Probed(t, job, a, rungs[i], obs[i])
  {
    hide ObservedFrom, ProbedFrom;
    var j, digest :| ObservedFrom(t, j, job, a, rungs[i], PreviousOf(rungs, obs, i), digest, obs[i]);
    ObservedMeasured(t, j, job, a, rungs[i], PreviousOf(rungs, obs, i), digest, obs[i]);
  }

  /** The part of a rung before its probe exists: read the walls, admit, and re-attest daemon and base. */
  method AdmitRung(w: World<Monitor>, job: Job, a: Authority, context: int, subject: Subject)
    returns (r: Outcome<Admission>, before: MemorySnapshot)
    requires Tracks(w, job) && w.state.Watching? && w.state.phase.Absent?
    modifies w`trace, w`state, w`faults
    ensures Tracks(w, job) && w.state.Watching? && w.state.phase.Absent? && Extends(old(w.trace), w.trace)
    ensures (old(w.state.idle) ==> w.state.idle) && w.state.last == old(w.state.last)
    ensures r.Ok? ==> |old(w.trace)| < |w.trace| && w.trace[|old(w.trace)|] == SawSnapshot(before)
                      && r.value == PreflightAdmission(before, subject.size, context, subject.info)
    ensures r.Ok? && r.value.reason.None? ==>
              |w.trace| == |old(w.trace)| + 3
              && w.trace[|old(w.trace)| + 1] == SawAuthority(a)
              && w.trace[|old(w.trace)| + 2].SawInventory?
              && InventoryId(w.trace[|old(w.trace)| + 2].models, job.baseModel) == Some(job.baseArtifact)
    ensures if r.Ok? then w.faults == old(w.faults)
            else w.faults > old(w.faults) || (w.faults == old(w.faults) && ChecksStop(w.trace[|old(w.trace)|..], job, a))
  {
    hide Tracks, PreflightAdmission, InventoryId, DigestIn;
    before := MemorySnapshot(None, None, None, None, None, None, false);
    var snapshot := SeeSnapshot(w, job);
    if snapshot.Raised? { return Raised(snapshot.error), before; }
    before := snapshot.value;
    var admission := PreflightAdmission(before, subject.size, context, subject.info);
    if admission.reason.Some? { return Ok(admission), before; }
    var authority := SeeAuthority(w, job);
    if authority.Raised? { return Raised(authority.error), before; }
    if authority.value != a { return Raised(AuthorityChanged), before; }
    var base;
    ghost var models;
    base, models := SeeId(w, job, job.baseModel);
    if base.Raised? { return Raised(base.error), before; }
    if base.value != Some(job.baseArtifact) { return Raised(BaseManifestChanged), before; }
    r := Ok(admission);
  }

  /** Before anything is created, another authority or another base manifest was seen. */
  predicate ChecksStop(u: seq<Event>, job: Job, a: Authority) {
    || (|u| == 2 && u[1].SawAuthority? && u[1].authority != a)
    || (|u| == 3 && u[2].SawInventory? && !BaseSeen(u[2], job))
  }

  /** A rung raised although none of its calls did: a check before, the rung itself, or the cleanup of its probe stopped it. */
  ghost predicate RungRaised(u: seq<Event>, job: Job, a: Authority, context: int, previous: Option<(int, string)>) {
    || ChecksStop(u, job, a)
    || (exists k :: 3 < k <= |u| && RungStops(u[3..k], job, a, context, previous))
    || (exists digest :: CleanupRefused(u, job.probe, digest))
  }

  predicate Tried(o: RungObservation) {
    o.Measured? || o.Unproven?
  }

  /** One pass of the ramp's loop body, ending in what the rung observed. */
  method ObserveRung(
    w: World<Monitor>, prov: Provenance, job: Job, a: Authority, context: int, previous: Option<(int, string)>, subject: Subject)
    returns (r: Outcome<RungObservation>, digest: string)
    requires Tracks(w, job) && context in job.contexts
    requires w.state.Watching? && w.state.idle && w.state.phase.Absent? && Accounted(prov, w.state)
    modifies w, prov
    ensures Tracks(w, job) && w.state.Watching? && w.state.idle && Extends(old(w.trace), w.trace)
    ensures Accounted(prov, w.state)
    ensures r.Ok? ==> w.state.phase.Absent?
    ensures r.Ok? ==> Decided(r.value, context, subject)
    ensures r.Ok? ==> Observed(w.trace, job, a, context, previous, r.value)
    ensures r.Ok? && r.value.Measured? ==> r.value.process.digest == Some(digest)
    ensures r.Ok? ==> KeptOrTried(old(prov.artifact), old(prov.context), prov, context, !Tried(r.value))
    ensures if r.Ok? then w.faults == old(w.faults)
            else w.faults > old(w.faults)
                 || (w.faults == old(w.faults) && RungRaised(w.trace[|old(w.trace)|..], job, a, context, previous))
  {
    hide Tracks, PreflightAdmission, RungEnds, RungStops, RungRaised, InventoryId, Observed, CleanupRefused, ChecksStop;
    digest := "";
    ghost var t0 := w.trace;
    var admitted, before := AdmitRung(w, job, a, context, subject);
    if admitted.Raised? {
      ChecksRaise(w.trace[|t0|..], job, a, context, previous);
      return Raised(admitted.error), digest;
    }
    if admitted.value.reason.Some? {
      RefusedIsObserved(t0, w.trace, job, a, context, previous, Refused(before));
      return Ok(Refused(before)), digest;
    }
    ghost var t1 := w.trace;
    var end;
    ghost var steps;
    end, digest, steps := RungWithCleanup(w, prov, job, a, context, previous);
    if end.Raised? {
      RungRaises(t0, t1, steps, w.trace, job, a, context, previous, digest);
      return Raised(end.error), digest;
    }
    var o := match end.value
      case Uncreated => NotCreated(before)
      case Failed(reason) => Unproven(before, reason)
      case Loaded(after, process) => Measured(before, after, process);
    EndIsObserved(t0, t1, steps, w.trace, job, a, context, previous, digest, end.value, before, o);
    r := Ok(o);
  }

  lemma ChecksRaise(u: seq<Event>, job: Job, a: Authority, context: int, previous: Option<(int, string)>)
    ensures ChecksStop(u, job, a) ==> RungRaised(u, job, a, context, previous)
  {
    hide ChecksStop;
  }

  lemma RungRaises(
    t0: seq<Event>, t1: seq<Event>, steps: seq<Event>, t: seq<Event>, job: Job, a: Authority, context: int,
    previous: Option<(int, string)>, digest: string)
    requires Extends(t0, t1) && |t1| == |t0| + 3 && Extends(t1 + steps, t)
    ensures RungStops(steps, job, a, context, previous) ==> RungRaised(t[|t0|..], job, a, context, previous)
    ensures CleanupRefused(t, job.probe, digest) && |t| > |t0| + 1 ==> RungRaised(t[|t0|..], job, a, context, previous)
  {
    hide ChecksStop, RungStops, CleanupRefused;
    var u := t[|t0|..];
    assert (t1 + steps)[|t1|..] == steps;
    assert u[3..3 + |steps|] == (t1 + steps)[|t1|..|t1| + |steps|];
    if RungStops(steps, job, a, context, previous) {
      StopIsNotEmpty(steps, job, a, context, previous);
      assert u[3..3 + |steps|] == steps;
      assert RungStops(u[3..3 + |steps|], job, a, context, previous);
    }
    if CleanupRefused(t, job.probe, digest) && |t| > |t0| + 1 {
      RefusedAtEnd(t, u, job.probe, digest);
    }
  }

  lemma StopIsNotEmpty(u: seq<Event>, job: Job, a: Authority, context: int, previous: Option<(int, string)>)
    requires RungStops(u, job, a, context, previous)
    ensures u != []
  {
  }

  lemma RefusedAtEnd(t: seq<Event>, u: seq<Event>, probe: string, digest: string)
    requires CleanupRefused(t, probe, digest) && 2 <= |u| <= |t| && u[|u| - 1] == t[|t| - 1] && u[|u| - 2] == t[|t| - 2]
    ensures CleanupRefused(u, probe, digest)
  {
    hide DigestIn, NoneAnswers, SoleProbe;
    var why :| Refuses(why, t, probe, digest);
    assert Refuses(why, u, probe, digest);
  }

  lemma RefusedIsObserved(
    t0: seq<Event>, t: seq<Event>, job: Job, a: Authority, context: int, previous: Option<(int, string)>, o: RungObservation)
    requires |t0| < |t| && t[|t0|] == SawSnapshot(o.before) && o.Refused?
    ensures Observed(t, job, a, context, previous, o)
  {
    assert ObservedFrom(t, |t0|, job, a, context, previous, "", o);
  }

  lemma EndIsObserved(
    t0: seq<Event>, t1: seq<Event>, steps: seq<Event>, t: seq<Event>, job: Job, a: Authority, context: int,
    previous: Option<(int, string)>, digest: string, end: RungEnd, before: MemorySnapshot, o: RungObservation)
    requires Extends(t0, t1) && |t1| == |t0| + 3 && Extends(t1 + steps, t)
    requires t1[|t0|] == SawSnapshot(before) && t1[|t0| + 1] == SawAuthority(a) && BaseSeen(t1[|t0| + 2], job)
    requires RungEnds(end, steps, job, a, context, previous, digest) && o.before == before && !o.Refused? && EndOf(o) == end
    ensures Observed(t, job, a, context, previous, o) && (o.Measured? ==> o.process.digest == Some(digest))
  {
    hide BaseSeen, RungEnds, LoadedSteps;
    if o.Measured? { LoadedRung(steps, job, a, context, previous, digest, o.after, o.process); }
    EndHasLength(end, steps, job, a, context, previous, digest);
    var n, m := |t0|, |steps|;
    assert (t1 + steps)[n..n + 3] == t1[n..] && (t1 + steps)[n + 3..n + 3 + m] == steps;
    assert t[n..n + 3] == (t1 + steps)[n..n + 3] && t[n + 3..n + 3 + m] == (t1 + steps)[n + 3..n + 3 + m];
    assert t[n] == t[n..n + 3][0] && t[n + 1] == t[n..n + 3][1] && t[n + 2] == t[n..n + 3][2];
    assert t1[n] == t1[n..][0] && t1[n + 1] == t1[n..][1] && t1[n + 2] == t1[n..][2];
    assert ObservedFrom(t, n, job, a, context, previous, digest, o);
  }

  /** The last rung whose probe was created: the context that the recorded probe keeps. */
  function LastTried(rungs: seq<int>, obs: seq<RungObservation>): Option<int>
    requires |obs| <= |rungs|
  {
    if obs == [] then None
    else if Tried(obs[|obs| - 1]) then Some(rungs[|obs| - 1])
    else LastTried(rungs, obs[..|obs| - 1])
  }

  lemma OneMoreTried(rungs: seq<int>, obs: seq<RungObservation>, o: RungObservation)
    requires |obs| < |rungs|
    ensures LastTried(rungs, obs + [o]) == if Tried(o) then Some(rungs[|obs|]) else LastTried(rungs, obs)
  {
    assert (obs + [o])[..|obs|] == obs;
  }

  /** Every rung observed so far fitted, and the running best and points are those of the observations. */
  ghost predicate Ramping(rungs: seq<int>, subject: Subject, obs: seq<RungObservation>, best: Option<int>, points: seq<Point>) {
    && AllFit(rungs, obs, |obs|)
    && AdmissionDecided(rungs, subject, obs)
    && best == BestOf(rungs, obs)
    && points == PointsOf(rungs, subject, obs)
  }

  /** One more observation either continues the ramp or ends it as a complete run. */
  lemma NextRung(rungs: seq<int>, subject: Subject, obs: seq<RungObservation>, best: Option<int>, points: seq<Point>, o: RungObservation)
    requires Ramping(rungs, subject, obs, best, points) && |obs| < |rungs|
    requires Decided(o, rungs[|obs|], subject)
    ensures var context := rungs[|obs|];
            var point := PointAt(o, context, subject);
            var more := points + (if point.Some? then [point.value] else []);
            if FitsAt(o, context) then point.Some? && Ramping(rungs, subject, obs + [o], Some(context), more)
            else RampRun(rungs, subject, obs + [o])
                 && best == BestOf(rungs, obs + [o]) && more == PointsOf(rungs, subject, obs + [o])
  {
    hide PreflightAdmission, CharacterizationPoint, PointsOf, BestOf;
    OneMoreRung(rungs, subject, obs, o);
    OneMoreDecided(rungs, subject, obs, o);
    assert AllFit(rungs, obs + [o], |obs|);
  }

  lemma StartRamp(rungs: seq<int>, subject: Subject, t: seq<Event>, job: Job, a: Authority)
    ensures Ramping(rungs, subject, [], None, []) && AllObserved(t, job, a, rungs, []) && PreviousOf(rungs, [], 0).None?
  {
  }

  lemma CompleteRamp(rungs: seq<int>, subject: Subject, obs: seq<RungObservation>, best: Option<int>, points: seq<Point>)
    requires Ramping(rungs, subject, obs, best, points) && |obs| == |rungs|
    ensures RampRun(rungs, subject, obs) && best == BestOf(rungs, obs) && points == PointsOf(rungs, subject, obs)
  {
  }

  /** The record names the probe of that rung, if there was any. */
  ghost predicate Remembers(prov: Provenance, last: Option<int>)
    reads prov
  {
    prov.context == last && (prov.artifact.Some? <==> last.Some?)
  }

  lemma FittedIsPrevious(rungs: seq<int>, obs: seq<RungObservation>, i: nat, digest: string)
    requires |obs| == i + 1 <= |rungs| && FitsAt(obs[i], rungs[i]) && (obs[i].Measured? ==> obs[i].process.digest == Some(digest))
    ensures PreviousOf(rungs, obs, i + 1) == Some((rungs[i], digest))
  {
  }

  /** The ramp raised although no call did: the rungs before the last one fitted and are in the trace, and that one raised. */
  ghost predicate RampRaised(t: seq<Event>, job: Job, a: Authority, rungs: seq<int>, obs: seq<RungObservation>) {
    && |obs| < |rungs| && AllFit(rungs, obs, |obs|) && AllObserved(t, job, a, rungs, obs)
    && exists n, m :: 0 <= n <= m <= |t| && RungRaised(t[n..m], job, a, rungs[|obs|], PreviousOf(rungs, obs, |obs|))
  }

  lemma RampStops(
    t: seq<Event>, u: seq<Event>, job: Job, a: Authority, rungs: seq<int>, subject: Subject, obs: seq<RungObservation>,
    best: Option<int>, points: seq<Point>)
    requires Extends(t, u) && AllObserved(t, job, a, rungs, obs) && |obs| < |rungs| && Ramping(rungs, subject, obs, best, points)
    ensures RungRaised(u[|t|..], job, a, rungs[|obs|], PreviousOf(rungs, obs, |obs|)) ==> RampRaised(u, job, a, rungs, obs)
  {
    hide RungRaised, PreviousOf, AllFit, PointsOf, BestOf, AdmissionDecided;
    AllObservedStays(t, u, job, a, rungs, obs);
    assert u[|t|..|u|] == u[|t|..];
  }

  lemma RampRaisedStays(t: seq<Event>, u: seq<Event>, job: Job, a: Authority, rungs: seq<int>, obs: seq<RungObservation>)
    requires Extends(t, u) && RampRaised(t, job, a, rungs, obs)
    ensures RampRaised(u, job, a, rungs, obs)
  {
    hide RungRaised, PreviousOf, AllFit;
    AllObservedStays(t, u, job, a, rungs, obs);
    var n, m :| 0 <= n <= m <= |t| && RungRaised(t[n..m], job, a, rungs[|obs|], PreviousOf(rungs, obs, |obs|));
    assert u[n..m] == u[..|t|][n..m] && u[..|t|] == t;
  }

  /** `_ollama_measure_ceiling`, managed: the ceiling and points follow from what the rungs observed, every measured
      rung is in the trace, and nothing it created is left when it returns. */
  method MeasureCeiling(w: World<Monitor>, prov: Provenance, job: Job, a: Authority, max: int, subject: Subject)
    returns (r: Outcome<(Option<int>, seq<Point>)>, ghost obs: seq<RungObservation>)
    requires Tracks(w, job) && w.state.Watching? && w.state.idle && w.state.phase.Absent? && Accounted(prov, w.state)
    requires job.contexts == RampSchedule.Rungs(max) && w.state.last.None?
    modifies w, prov
    ensures Tracks(w, job) && w.state.Watching? && Extends(old(w.trace), w.trace)
    ensures Accounted(prov, w.state)
    ensures r.Ok? ==>
              && w.state.phase.Absent?
              && RampRun(RampSchedule.Rungs(max), subject, obs)
              && r.value == (BestOf(RampSchedule.Rungs(max), obs), PointsOf(RampSchedule.Rungs(max), subject, obs))
              && AllObserved(w.trace, job, a, RampSchedule.Rungs(max), obs)
              && Remembers(prov, LastTried(RampSchedule.Rungs(max), obs))
    ensures r.Ok? ==> w.faults == old(w.faults)
    ensures r.Raised? ==> w.faults > old(w.faults) || (w.faults == old(w.faults) && RampRaised(w.trace, job, a, RampSchedule.Rungs(max), obs))
  {
    hide RungRaised, PreviousOf, RampRun, Ramping, AllObserved, FitsAt, PointAt, Decided, PointsOf, BestOf, RampSchedule.Rungs;
    StartRamp(RampSchedule.Rungs(max), subject, w.trace, job, a);
    ghost var began := w.trace;
    var rungs := RampSchedule.RampContexts(max);
    var best: Option<int>, points: seq<Point> := None, [];
    var previous: Option<(int, string)> := None;
    obs := [];
    var i := 0;
    while i < |rungs|
      invariant 0 <= i == |obs| <= |rungs|
      invariant Tracks(w, job) && w.state.Watching? && w.state.idle && w.state.phase.Absent? && Extends(began, w.trace)
      invariant Accounted(prov, w.state)
      invariant Ramping(rungs, subject, obs, best, points)
      invariant AllObserved(w.trace, job, a, rungs, obs)
      invariant Remembers(prov, LastTried(rungs, obs))
      invariant w.faults == old(w.faults) && previous == PreviousOf(rungs, obs, i)
    {
      var context := rungs[i];
      ghost var t := w.trace;
      var seen, digest := ObserveRung(w, prov, job, a, context, previous, subject);
      if seen.Raised? {
        RampStops(t, w.trace, job, a, rungs, subject, obs, best, points);
        return Raised(seen.error), obs;
      }
      OneMoreTried(rungs, obs, seen.value);
      OneMoreObserved(t, w.trace, job, a, rungs, obs, seen.value);
      NextRung(rungs, subject, obs, best, points, seen.value);
      obs := obs + [seen.value];
      var point := PointAt(seen.value, context, subject);
      points := points + (if point.Some? then [point.value] else []);
      if !FitsAt(seen.value, context) { return Ok((best, points)), obs; }
      best, previous := Some(context), Some((context, digest));
      FittedIsPrevious(rungs, obs, i, digest);
      i := i + 1;
    }
    CompleteRamp(rungs, subject, obs, best, points);
    r := Ok((best, points));
  }

  // ---------- the whole characterization ----------

  /** How a characterization ends when it does not raise. */
  datatype CharacterizeEnd =
    | Recorded(row: Row) | RampDone
    | RecheckFailed | ProbeExists(why: CleanupRefusal) | NotAdmitted(error: ResidencyError)
    | MeasurementFailed(fault: Fault, cleaned: bool) | CleanupIncomplete | ManifestMoved | AuthorityMoved

  lemma NoTargetMeansIdle(processes: Option<seq<Process>>)
    ensures ResidencyRefusal(processes, [], None, false).None? <==> processes == Some([])
  {
  }

  function Existing(models: Option<seq<Model>>, job: Job): Option<Model> {
    if models.None? then None else FindModel(models.value, job.probe)
  }

  /** `t` starts with an inventory, and the probe's name is free at its end: either that inventory is all and did not
      list it, or what it listed was proven to be this job's and was deleted. */
  predicate NameIsFree(t: seq<Event>, artifacts: map<ArtifactId, OwnershipRow>, job: Job) {
    && t != [] && t[0].SawInventory? && t[0].models.Some?
    && match Existing(t[0].models, job)
       case None => |t| == 1
       case Some(leftover) => IsProven(artifacts, leftover, job) && DeletedWhenGone(t, job.probe, leftover.digest.value)
  }

  /** The events of a preparation show why it ended as it did; `None` lets the ramp start. */
  predicate Prepared(
    end: Option<CharacterizeEnd>, t: seq<Event>, artifacts: map<ArtifactId, OwnershipRow>, job: Job, raised: bool)
  {
    match end
    case None =>
      t != [] && t[|t| - 1] == SawProcesses(Some([])) && NameIsFree(t[..|t| - 1], artifacts, job)
    case Some(NotAdmitted(error)) =>
      t != [] && t[|t| - 1].SawProcesses? && ResidencyRefusal(t[|t| - 1].processes, [], None, false) == Some(error)
      && NameIsFree(t[..|t| - 1], artifacts, job)
    case Some(RecheckFailed) =>
      t == [SawInventory(None)]
    case Some(ProbeExists(why)) =>
      t != [] && t[0].SawInventory? && Existing(t[0].models, job).Some? && Kept(why, t, Existing(t[0].models, job).value, artifacts, job, raised)
    case _ => false
  }

  /** Why a leftover stays: it has no digest, it is not proven, its proof could not be read, or its removal was refused. */
  predicate Kept(
    why: CleanupRefusal, t: seq<Event>, leftover: Model, artifacts: map<ArtifactId, OwnershipRow>, job: Job, raised: bool)
  {
    if !IsProven(artifacts, leftover, job)
    then |t| <= 2 && why == if leftover.digest.None? then DigestUnavailable else NotProvenOwned
    else if why == NotProvenOwned then |t| == 1 && raised
    else leftover.digest.Some? && Refuses(why, t, job.probe, leftover.digest.value)
  }

  /** Re-check the probe's name, recover a proven leftover, and require an idle daemon. */
  method PrepareProbe(w: World<Monitor>, job: Job) returns (r: Outcome<Option<CharacterizeEnd>>, ghost steps: seq<Event>)
    requires Tracks(w, job) && w.state.Watching? && w.state.phase.Absent?
    modifies w`trace, w`state, w`faults
    ensures Tracks(w, job) && w.state.Watching?
    ensures w.trace == old(w.trace) + steps
    ensures w.faults >= old(w.faults) && (r.Raised? ==> w.faults > old(w.faults))
    ensures r.Ok? ==> Prepared(r.value, steps, w.artifacts, job, w.faults > old(w.faults))
    ensures r == Ok(None) ==> w.state.phase.Absent? && w.state.idle
    ensures w.state.last == old(w.state.last)
  {
    hide Tracks, FindModel, ResidencyRefusal, IsProven, DigestIn;
    steps := [];
    var models := SeeModels(w, job);
    if models.Raised? { return Raised(models.error), steps; }
    steps := [SawInventory(models.value)];
    if models.value.None? { return Ok(Some(RecheckFailed)), steps; }
    var existing := FindModel(models.value.value, job.probe);
    if existing.Some? {
      var recovered;
      recovered, steps := RecoverListed(w, existing.value, job, models.value);
      if recovered.Raised? { return Raised(recovered.error), steps; }
      if recovered.value.Some? { return Ok(Some(ProbeExists(recovered.value.value))), steps; }
    }
    ghost var named := steps;
    var processes := SeeProcesses(w, job);
    if processes.Raised? { return Raised(processes.error), steps; }
    steps := steps + [SawProcesses(processes.value)];
    assert steps[..|steps| - 1] == named;
    var refusal := ResidencyRefusal(processes.value, [], None, false);
    NoTargetMeansIdle(processes.value);
    r := Ok(if refusal.Some? then Some(NotAdmitted(refusal.value)) else None);
  }

  /** Recover the leftover that the last inventory listed. */
  method RecoverListed(w: World<Monitor>, leftover: Model, job: Job, models: Option<seq<Model>>)
    returns (r: Outcome<Option<CleanupRefusal>>, ghost steps: seq<Event>)
    requires Tracks(w, job) && w.state.Watching? && w.state.phase.Absent?
    requires w.trace != [] && w.trace[|w.trace| - 1] == SawInventory(models) && Existing(models, job) == Some(leftover)
    modifies w`trace, w`state, w`faults
    ensures Tracks(w, job) && w.state.Watching?
    ensures w.state.last == old(w.state.last)
    ensures steps != [] && steps[0] == SawInventory(models) && w.trace == old(w.trace)[..|old(w.trace)| - 1] + steps
    ensures r == Ok(None) ==> w.state.phase.Absent? && NameIsFree(steps, w.artifacts, job)
    ensures w.faults >= old(w.faults) && (r.Raised? ==> w.faults > old(w.faults))
    ensures r.Ok? && r.value.Some? ==> Kept(r.value.value, steps, leftover, w.artifacts, job, w.faults > old(w.faults))
  {
    hide Tracks, FindModel, IsProven, Answering;
    ghost var n := |w.trace| - 1;
    r := RecoverProbe(w, leftover, job);
    steps := w.trace[n..];
    assert w.trace[n] == w.trace[..n + 1][n];
    assert old(w.trace)[..n] == w.trace[..n];
    if r == Ok(None) {
      assert w.trace[..|w.trace| - 2][n..] == steps[..|steps| - 2];
    }
  }

  /** The caller's `finally`: clean up what the record says is left. A creation never identified is not touched, except
      when the record still names an earlier rung's manifest: only if that very manifest is listed again is it deleted. */
  method FinishProbe(w: World<Monitor>, prov: Provenance, job: Job) returns (r: Outcome<bool>)
    requires Tracks(w, job) && w.state.Watching? && Accounted(prov, w.state)
    modifies w`trace, w`state, w`faults
    ensures Tracks(w, job) && w.state.Watching? && Extends(old(w.trace), w.trace)
    ensures r == Ok(true) <==> w.state.phase.Absent?
    ensures w.Counted(old(w.faults), r.Raised?)
    ensures r == Ok(false) ==> Unidentified(w.state.phase) || exists digest :: CleanupRefused(w.trace, job.probe, digest)
    ensures old(w.state.phase.Absent?) ==> w.state == old(w.state) && w.trace == old(w.trace)
    ensures old(!w.state.phase.Absent?) && prov.artifact.None? ==> r == Ok(false) && w.state == old(w.state) && w.trace == old(w.trace)
    ensures old(!w.state.phase.Absent?) && r == Ok(true) ==>
              && prov.artifact.Some? && prov.artifact.value.OllamaManifest?
              && DeletedWhenGone(w.trace, job.probe, prov.artifact.value.digest) && |w.trace| >= |old(w.trace)| + 3
    ensures old(PhaseDigest(w.state.phase)).Some? && r != Ok(true) ==> PhaseDigest(w.state.phase) == old(PhaseDigest(w.state.phase))
  {
    hide Tracks, DeletedWhenGone, CleanupRefused;
    if prov.artifact.None? && prov.created { return Ok(false); }
    if prov.artifact.None? || prov.cleaned { return Ok(true); }
    var refusal :- CleanupProbe(w, job, prov.artifact.value);
    if refusal.Some? { RefusedCleanup(refusal.value, w.trace, job.probe, prov.artifact.value.digest); }
    r := Ok(refusal.None?);
  }

  /** What the commit saw, and so how it ended. */
  predicate Committed(end: CharacterizeEnd, steps: seq<Event>, job: Job, a: Authority) {
    && steps != [] && steps[0].SawInventory?
    && match end
       case Recorded(row) => BaseSeen(steps[0], job) && steps[1..] == [SawAuthority(a), Saved(row)]
       case ManifestMoved => !BaseSeen(steps[0], job) && |steps| == 1
       case AuthorityMoved => BaseSeen(steps[0], job) && |steps| == 2 && steps[1].SawAuthority? && steps[1].authority != a
       case _ => false
  }

  /** Only observations and the save: nothing is asked of the daemon. */
  predicate LooksAndSaves(steps: seq<Event>) {
    forall i :: 0 <= i < |steps| ==> steps[i].SawInventory? || steps[i].SawAuthority? || steps[i].Saved?
  }

  /** The base manifest and then the authority once more; `None` lets the row be saved. */
  method SeeUnchanged(w: World<Monitor>, job: Job, a: Authority) returns (r: Outcome<Option<CharacterizeEnd>>, ghost steps: seq<Event>)
    requires Tracks(w, job) && w.state.Watching? && w.state.phase.Absent?
    modifies w`trace, w`state, w`faults
    ensures w.Counted(old(w.faults), r.Raised?)
    ensures Tracks(w, job) && w.state.Watching? && w.state.phase.Absent? && w.state.last == old(w.state.last)
    ensures w.trace == old(w.trace) + steps && LooksAndSaves(steps)
    ensures r == Ok(None) ==> |steps| == 2 && BaseSeen(steps[0], job) && steps[1] == SawAuthority(a)
    ensures r.Ok? && r.value.Some? ==> !r.value.value.Recorded? && Committed(r.value.value, steps, job, a)
  {
    hide Tracks, InventoryId, DigestIn;
    steps := [];
    var id;
    ghost var models;
    id, models := SeeId(w, job, job.baseModel);
    if id.Raised? { return Raised(id.error), steps; }
    steps := [SawInventory(models)];
    if id.value != Some(job.baseArtifact) { return Ok(Some(ManifestMoved)), steps; }
    var authority := SeeAuthority(w, job);
    if authority.Raised? { return Raised(authority.error), steps; }
    steps := steps + [SawAuthority(authority.value)];
    r := Ok(if authority.value != a then Some(AuthorityMoved) else None);
  }

  /** The two last re-attestations, and the save. */
  method Commit(w: World<Monitor>, job: Job, a: Authority, row: Row) returns (r: Outcome<CharacterizeEnd>, ghost steps: seq<Event>)
    requires Tracks(w, job) && w.state.Watching? && w.state.phase.Absent?
    modifies w`trace, w`state, w`faults
    ensures w.Counted(old(w.faults), r.Raised?)
    ensures w.Valid() && w.state.Watching? && w.state.phase.Absent? && w.state.last == old(w.state.last)
    ensures w.trace == old(w.trace) + steps && LooksAndSaves(steps)
    ensures w.state.saved <==> r.Ok? && r.value.Recorded?
    ensures r.Ok? ==> Committed(r.value, steps, job, a) && (r.value.Recorded? ==> r.value.row == row)
  {
    hide InventoryId;
    var stopped;
    stopped, steps := SeeUnchanged(w, job, a);
    if stopped.Raised? { return Raised(stopped.error), steps; }
    if stopped.value.Some? { return Ok(stopped.value.value), steps; }
    var saved := SaveRow(w, job, row);
    if saved.Raised? { return Raised(saved.error), steps; }
    steps := steps + [Saved(row)];
    assert steps[1..] == [SawAuthority(a), Saved(row)];
    r := Ok(Recorded(row));
  }

  /** The ends before the ramp, and the ends after its probe is gone. */
  predicate Stopped(end: CharacterizeEnd) {
    end.RecheckFailed? || end.ProbeExists? || end.NotAdmitted?
  }

  predicate Attested(end: CharacterizeEnd) {
    end.Recorded? || end.ManifestMoved? || end.AuthorityMoved?
  }

  /** A failed ramp: a call raised or the trace shows what stopped it; its probe is left exactly when the cleanup was refused, or
      the probe was never identified. */
  ghost predicate Failure(
    cleaned: bool, t: seq<Event>, m: Monitor, job: Job, a: Authority, rungs: seq<int>, obs: seq<RungObservation>, raised: bool)
    requires m.Watching?
  {
    && (raised || RampRaised(t, job, a, rungs, obs))
    && (cleaned <==> m.phase.Absent?)
    && (!cleaned ==> Unidentified(m.phase) || exists digest :: CleanupRefused(t, job.probe, digest))
  }

  /** The locked section: prepare, ramp, and clean up, whatever the ramp did. A good ramp never leaves a probe for the
      cleanup after it, so that cleanup cannot fail on its own. */
  method RampUnderLock(w: World<Monitor>, prov: Provenance, job: Job, a: Authority, max: int, subject: Subject)
    returns (r: Outcome<CharacterizeEnd>, measured: (Option<int>, seq<Point>), ghost obs: seq<RungObservation>, ghost steps: seq<Event>)
    requires Tracks(w, job) && w.state.Watching? && w.state.phase.Absent? && Accounted(prov, w.state)
    requires job.contexts == RampSchedule.Rungs(max) && w.state.last.None?
    modifies w, prov
    ensures Tracks(w, job) && w.state.Watching? && Extends(old(w.trace), w.trace)
    ensures r.Ok? ==> Stopped(r.value) || r.value.MeasurementFailed? || r.value.RampDone?
    ensures r.Ok? && Stopped(r.value) ==> w.trace == old(w.trace) + steps && Prepared(Some(r.value), steps, old(w.artifacts), job, w.faults > old(w.faults))
    ensures w.faults >= old(w.faults) && (r.Raised? ==> w.faults > old(w.faults))
    ensures r.Ok? && r.value.MeasurementFailed? ==>
              Failure(r.value.cleaned, w.trace, w.state, job, a, RampSchedule.Rungs(max), obs, w.faults > old(w.faults))
    ensures r == Ok(RampDone) ==>
              && w.state.phase.Absent? && Accounted(prov, w.state)
              && RampRun(RampSchedule.Rungs(max), subject, obs)
              && measured == (BestOf(RampSchedule.Rungs(max), obs), PointsOf(RampSchedule.Rungs(max), subject, obs))
              && AllObserved(w.trace, job, a, RampSchedule.Rungs(max), obs)
              && Remembers(prov, LastTried(RampSchedule.Rungs(max), obs))
  {
    hide Tracks, RampRun, AllObserved, PointsOf, BestOf, LastTried, RampSchedule.Rungs, NameIsFree, Kept, DeletedWhenGone, ResidencyRefusal, RampRaised, CleanupRefused;
    obs, measured, steps := [], (None, []), [];
    var stopped;
    stopped, steps := PrepareProbe(w, job);
    if stopped.Raised? { return Raised(stopped.error), measured, obs, steps; }
    if stopped.value.Some? { return Ok(stopped.value.value), measured, obs, steps; }
    var ramp;
    ramp, obs := MeasureCeiling(w, prov, job, a, max, subject);
    ghost var ramped := w.trace;
    var finished := FinishProbe(w, prov, job);
    if ramp.Raised? && RampRaised(ramped, job, a, RampSchedule.Rungs(max), obs) {
      RampRaisedStays(ramped, w.trace, job, a, RampSchedule.Rungs(max), obs);
    }
    if finished.Raised? { return Raised(finished.error), measured, obs, steps; }
    if ramp.Raised? { return Ok(MeasurementFailed(ramp.error, finished.value)), measured, obs, steps; }
    if !finished.value { return Ok(CleanupIncomplete), measured, obs, steps; }
    r, measured := Ok(RampDone), ramp.value;
  }

  /** The stored probe target is the one of the last rung tried. */
  predicate RecordsLastTried(probe: Option<ProbeTarget>, job: Job, last: Option<int>) {
    && (probe.Some? <==> last.Some?)
    && (probe.Some? ==> probe.value.name == job.probe && Some(probe.value.context) == last)
  }

  /** The stored probe target is the last confirmed creation, under the manifest first listed after it. */
  predicate RecordsCreation(probe: Option<ProbeTarget>, job: Job, last: Option<Creation>) {
    match last
    case None => probe.None?
    case Some(Creation(context, id)) => id.Some? && probe == Some(ProbeTarget(job.probe, OllamaManifest(id.value), context))
  }

  /** What one `ara characterize --engine ollama` works on. */
  datatype Command = Command(
    machineKey: string, m: Model, a: Authority, job: Job, max: int, subject: Subject, measuredAt: string, configKey: string,
    authorityKey: string)

  /** What name resolution and the checks before the lock have established. */
  predicate Ready(c: Command) {
    && RuntimeFingerprint(c.a).Some? && c.job.endpoint == c.a.endpoint.url
    && ArtifactOf(c.m) == Some(c.job.baseArtifact) && c.job.baseModel == c.m.name && c.subject.size == c.m.size
    && c.job.contexts == RampSchedule.Rungs(c.max)
  }

  /** The ramp is complete, every rung it measured is in the trace, the probe to record is both the last one tried and the
      last one created, and the trace ends with the steps of the commit. */
  ghost predicate Completed(
    c: Command, end: CharacterizeEnd, t: seq<Event>, steps: seq<Event>, obs: seq<RungObservation>, probe: Option<ProbeTarget>,
    last: Option<Creation>)
  {
    var rungs := RampSchedule.Rungs(c.max);
    && RampRun(rungs, c.subject, obs) && AllObserved(t, c.job, c.a, rungs, obs)
    && RecordsLastTried(probe, c.job, LastTried(rungs, obs)) && RecordsCreation(probe, c.job, last)
    && Committed(end, steps, c.job, c.a)
    && |steps| <= |t| && t[|t| - |steps|..] == steps
  }

  function RowFor(c: Command, obs: seq<RungObservation>, probe: Option<ProbeTarget>): Row
    requires Ready(c) && |obs| <= |RampSchedule.Rungs(c.max)|
  {
    Agreement.RecordedRow(c.machineKey, c.m, c.a, RampSchedule.Rungs(c.max), c.subject, obs, probe, c.measuredAt, c.configKey,
                          c.authorityKey)
  }

  /** How a characterization ended, `t` being all it saw and asked, and `last` where the probe monitor then stands. A row is
      saved exactly when a complete ramp with no probe left was followed by an unchanged base and an unchanged daemon. */
  ghost predicate Explained(
    c: Command, artifacts: map<ArtifactId, OwnershipRow>, r: Outcome<CharacterizeEnd>, t: seq<Event>, steps: seq<Event>,
    obs: seq<RungObservation>, probe: Option<ProbeTarget>, last: Monitor, raised: bool)
    requires Ready(c)
  {
    && last.Watching? && (last.saved <==> r.Ok? && r.value.Recorded?)
    && (r.Raised? ==> raised)
    && (r.Ok? ==>
          || (Stopped(r.value) && t == steps && Prepared(Some(r.value), steps, artifacts, c.job, raised))
          || (r.value.MeasurementFailed?
              && Failure(r.value.cleaned, t, last, c.job, c.a, RampSchedule.Rungs(c.max), obs, raised))
          || (Attested(r.value) && last.phase.Absent? && Completed(c, r.value, t, steps, obs, probe, last.last)
              && (r.value.Recorded? ==> r.value.row == RowFor(c, obs, probe))))
  }

  /** The commit of a complete ramp: the configuration, the row, and the last two re-attestations. */
  method CommitRamp(
    w: World<Monitor>, prov: Provenance, c: Command, measured: (Option<int>, seq<Point>), ghost obs: seq<RungObservation>)
    returns (r: Outcome<CharacterizeEnd>, ghost probe: Option<ProbeTarget>, ghost steps: seq<Event>)
    requires Tracks(w, c.job) && w.state.Watching? && w.state.phase.Absent? && Accounted(prov, w.state) && Ready(c)
    requires RampRun(RampSchedule.Rungs(c.max), c.subject, obs)
    requires measured == (BestOf(RampSchedule.Rungs(c.max), obs), PointsOf(RampSchedule.Rungs(c.max), c.subject, obs))
    requires AllObserved(w.trace, c.job, c.a, RampSchedule.Rungs(c.max), obs)
    requires Remembers(prov, LastTried(RampSchedule.Rungs(c.max), obs))
    modifies w`trace, w`state, w`faults
    ensures w.Counted(old(w.faults), r.Raised?)
    ensures w.Valid() && w.trace == old(w.trace) + steps
    ensures w.state.Watching? && w.state.phase.Absent? && (w.state.saved <==> r.Ok? && r.value.Recorded?)
    ensures r.Ok? ==> Attested(r.value) && Completed(c, r.value, w.trace, steps, obs, probe, w.state.last)
    ensures r.Ok? && r.value.Recorded? ==> r.value.row == RowFor(c, obs, probe)
    ensures LooksAndSaves(steps)
  {
    hide RampRun, AllObserved, PointsOf, BestOf, Agreement.RowFrom, RuntimeFingerprint, RampSchedule.Rungs, Committed, LastTried;
    var target :=
      if prov.artifact.Some? then Some(ProbeTarget(c.job.probe, prov.artifact.value, prov.context.GetOr(c.max))) else None;
    probe := target;
    ghost var t := w.trace;
    var row := Agreement.RowFrom(c.machineKey, c.m, c.a, measured.0, measured.1, target, c.measuredAt, c.configKey, c.authorityKey);
    r, steps := Commit(w, c.job, c.a, row);
    CommittedIsAttested(r, steps, c.job, c.a);
    AllObservedStays(t, w.trace, c.job, c.a, RampSchedule.Rungs(c.max), obs);
  }

  lemma CommittedIsAttested(r: Outcome<CharacterizeEnd>, steps: seq<Event>, job: Job, a: Authority)
    ensures r.Ok? && Committed(r.value, steps, job, a) ==> Attested(r.value)
  {
  }

  /** The same in terms of the watched world. */
  method CharacterizeWatched(w: World<Monitor>, c: Command)
    returns (r: Outcome<CharacterizeEnd>, ghost obs: seq<RungObservation>, ghost probe: Option<ProbeTarget>, ghost steps: seq<Event>)
    requires Tracks(w, c.job) && Ready(c) && w.trace == [] && w.state == Start(w.artifacts)
    modifies w
    ensures w.Valid() && Explained(c, old(w.artifacts), r, w.trace, steps, obs, probe, w.state, w.faults > old(w.faults))
  {
    hide RampRun, AllObserved, PointsOf, BestOf, Proves, Prepared, Completed, LastTried, RowFor, Ready, RuntimeFingerprint, Failure;
    RampIsReady(c);
    obs, probe, steps := [], None, [];
    var prov := new Provenance();
    var measured;
    r, measured, obs, steps := RampUnderLock(w, prov, c.job, c.a, c.max, c.subject);
    if r != Ok(RampDone) { return; }
    r, probe, steps := CommitRamp(w, prov, c, measured, obs);
  }

  lemma RampIsReady(c: Command)
    requires Ready(c)
    ensures c.job.contexts == RampSchedule.Rungs(c.max)
  {
  }

  /** Name resolution, capability and preflight checks come first and touch nothing; this is the locked section and the
      commit after it. Its trace shows why it ended as it did. */
  method CharacterizeOllama(w: World<Monitor>, c: Command)
    returns (r: Outcome<CharacterizeEnd>, ghost obs: seq<RungObservation>, ghost probe: Option<ProbeTarget>, ghost steps: seq<Event>)
    requires Tracks(w, c.job) && Ready(c) && w.trace == [] && w.initial == Start(w.artifacts)
    modifies w
    ensures Explained(c, old(w.artifacts), r, w.trace, steps, obs, probe, Run(c.job, old(w.artifacts), w.trace), w.faults > old(w.faults))
  {
    hide Explained, Step, Ready;
    obs, probe, steps := [], None, [];
    r, obs, probe, steps := CharacterizeWatched(w, c);
    FoldIsRun(w.step, c.job, old(w.artifacts), w.trace);
  }

  /** A later request recognises the recorded probe exactly when the last rung tried was the model's maximum, whose
      context is in the probe's name, and that very manifest is still installed. */
  lemma ProbeKnownAgainOnlyAtMaximum(
    hash: (string, ArtifactId, int) -> string, config: Config, m: Model, job: Job, max: nat, obs: seq<RungObservation>,
    models: Option<seq<Model>>)
    requires GovernedNames.IsNameHash(hash) && max > 0 && |obs| <= |RampSchedule.Rungs(max)|
    requires job.probe == GovernedNames.ProbeName(hash, m.name, job.baseArtifact, max)
    requires config.probe.Some? && RecordsLastTried(config.probe, job, LastTried(RampSchedule.Rungs(max), obs))
    requires config.probe.value.artifact.OllamaManifest? && IsDigest(config.probe.value.artifact.digest)
    ensures GovernedNames.RecordedProbeTarget(hash, config, models, m.name, job.baseArtifact).Some?
            <==> LastTried(RampSchedule.Rungs(max), obs) == Some(max)
                 && models.Some? && FindModel(models.value, job.probe).Some?
                 && FindModel(models.value, job.probe).value.digest == Some(config.probe.value.artifact.digest)
  {
    hide GovernedNames.RecordedProbeTarget, GovernedNames.ProbeName, GovernedNames.IsNameHash, FindModel, IsDigest;
    LastTriedIsARung(RampSchedule.Rungs(max), obs);
    RampSchedule.RungsInRange(RampSchedule.Rungs(max), max);
    GovernedNames.ProbeRecognisedOnlyAtMaximum(
      hash, config, models, m.name, job.baseArtifact, max, config.probe.value.context, config.probe.value.artifact.digest);
  }

  lemma {:induction false} LastTriedIsARung(rungs: seq<int>, obs: seq<RungObservation>)
    requires |obs| <= |rungs| && LastTried(rungs, obs).Some?
    ensures LastTried(rungs, obs).value in rungs
  {
    if !Tried(obs[|obs| - 1]) {
      LastTriedIsARung(rungs, obs[..|obs| - 1]);
    }
  }
}
