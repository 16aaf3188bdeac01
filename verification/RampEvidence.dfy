/** What a ramp observes rung by rung, and the points and ceiling that follow from the observations. */
module RampEvidence {
  import opened Wrappers
  import opened Evidence
  import opened AdmissionProofs
  import RampSchedule

  datatype RungObservation =
    | Refused(before: MemorySnapshot)
    | NotCreated(before: MemorySnapshot)
    | Unproven(before: MemorySnapshot, reason: Reason)
    | Measured(before: MemorySnapshot, after: MemorySnapshot, process: Process)

  /** Model size and architecture, fixed for one ramp. */
  datatype Subject = Subject(size: Option<int>, info: ModelInfo)

  function AdmissionAt(o: RungObservation, context: int, subject: Subject): Admission {
    PreflightAdmission(o.before, subject.size, context, subject.info)
  }

  function PointAt(o: RungObservation, context: int, subject: Subject): Option<Point> {
    var admission := AdmissionAt(o, context, subject);
    match o
    case Refused(_) => Some(FailedPoint(context, admission.reason.GetOr(SystemWallUnknown)).(admission := Some(admission.AsRecord())))
    case NotCreated(_) => None
    case Unproven(_, reason) => Some(FailedPoint(context, reason).(admission := Some(admission.AsRecord())))
    case Measured(before, after, process) =>
      Some(CharacterizationPoint(before, after, process, context).(admission := Some(admission.AsRecord())))
  }

  predicate FitsAt(o: RungObservation, context: int) {
    o.Measured? && CharacterizationPoint(o.before, o.after, o.process, context).fit
  }

  /** Admission on the rung's own wall reading decided whether anything was created. */
  predicate Decided(o: RungObservation, context: int, subject: Subject) {
    o.Refused? <==> AdmissionAt(o, context, subject).reason.Some?
  }

  ghost predicate AdmissionDecided(rungs: seq<int>, subject: Subject, obs: seq<RungObservation>) {
    && |obs| <= |rungs|
    && forall i :: 0 <= i < |obs| ==> Decided(obs[i], rungs[i], subject)
  }

  lemma OneMoreDecided(rungs: seq<int>, subject: Subject, obs: seq<RungObservation>, o: RungObservation)
    requires AdmissionDecided(rungs, subject, obs) && |obs| < |rungs| && Decided(o, rungs[|obs|], subject)
    ensures AdmissionDecided(rungs, subject, obs + [o])
  {
    var more := obs + [o];
    forall i | 0 <= i < |more| ensures Decided(more[i], rungs[i], subject) {
      if i < |obs| {
        assert more[i] == obs[i];
      }
    }
  }

  ghost predicate AllFit(rungs: seq<int>, obs: seq<RungObservation>, n: int) {
    && n <= |obs| <= |rungs|
    && forall i :: 0 <= i < n ==> FitsAt(obs[i], rungs[i])
  }

  /** Every rung before the last observed one fitted, admission decided who was loaded, and only the end of the
      schedule or a rung that did not fit stopped the ramp. */
  ghost predicate RampRun(rungs: seq<int>, subject: Subject, obs: seq<RungObservation>) {
    && AdmissionDecided(rungs, subject, obs)
    && AllFit(rungs, obs, |obs| - 1)
    && (|obs| < |rungs| ==> |obs| >= 1 && !FitsAt(obs[|obs| - 1], rungs[|obs| - 1]))
  }

  function PointsOf(rungs: seq<int>, subject: Subject, obs: seq<RungObservation>): seq<Point>
    requires |obs| <= |rungs|
  {
    if obs == [] then []
    else
      var last := |obs| - 1;
      var point := PointAt(obs[last], rungs[last], subject);
      PointsOf(rungs, subject, obs[..last]) + (if point.Some? then [point.value] else [])
  }

  /** The ceiling: the last rung that fitted. */
  function BestOf(rungs: seq<int>, obs: seq<RungObservation>): Option<int>
    requires |obs| <= |rungs|
  {
    if obs == [] then None
    else
      var last := |obs| - 1;
      if FitsAt(obs[last], rungs[last]) then Some(rungs[last]) else BestOf(rungs, obs[..last])
  }

  lemma {:induction false} PointsOfFitting(rungs: seq<int>, subject: Subject, obs: seq<RungObservation>)
    requires AllFit(rungs, obs, |obs|)
    ensures var points := PointsOf(rungs, subject, obs);
            |points| == |obs| && forall i :: 0 <= i < |obs| ==> PointAt(obs[i], rungs[i], subject) == Some(points[i])
  {
    hide PreflightAdmission, CharacterizationPoint;
    if obs != [] {
      var last := |obs| - 1;
      var front := obs[..last];
      PointsOfFitting(rungs, subject, front);
      assert FitsAt(obs[last], rungs[last]);
      forall i | 0 <= i < |obs| ensures PointAt(obs[i], rungs[i], subject) == Some(PointsOf(rungs, subject, obs)[i]) {
        if i < last {
          assert front[i] == obs[i];
        }
      }
    }
  }

  /** A ramp has a point for every observation, except for a last rung that was never created. */
  lemma PointsOfShape(rungs: seq<int>, subject: Subject, obs: seq<RungObservation>)
    requires AllFit(rungs, obs, |obs| - 1)
    ensures var points := PointsOf(rungs, subject, obs);
            && |obs| - 1 <= |points| <= |obs|
            && (forall i :: 0 <= i < |points| ==> PointAt(obs[i], rungs[i], subject) == Some(points[i]))
  {
    hide PreflightAdmission, CharacterizationPoint, PointAt, FitsAt;
    if obs != [] {
      var last := |obs| - 1;
      var front := obs[..last];
      PointsOfFitting(rungs, subject, front);
      var points := PointsOf(rungs, subject, obs);
      forall i | 0 <= i < |points| ensures PointAt(obs[i], rungs[i], subject) == Some(points[i]) {
        if i < last {
          assert front[i] == obs[i];
        }
      }
    }
  }

  /** Index of the rung that set the ceiling. */
  lemma {:induction false} BestIndex(rungs: seq<int>, obs: seq<RungObservation>) returns (k: int)
    requires |obs| <= |rungs|
    ensures BestOf(rungs, obs).None? ==> k == -1
    ensures BestOf(rungs, obs).Some? ==>
              0 <= k < |obs| && FitsAt(obs[k], rungs[k]) && BestOf(rungs, obs) == Some(rungs[k])
    ensures forall i :: k < i < |obs| ==> !FitsAt(obs[i], rungs[i])
  {
    hide CharacterizationPoint;
    if obs == [] {
      k := -1;
    } else if FitsAt(obs[|obs| - 1], rungs[|obs| - 1]) {
      k := |obs| - 1;
    } else {
      k := BestIndex(rungs, obs[..|obs| - 1]);
    }
  }

  /** A ramp that returns yields points on a prefix of the rungs, all fitting except possibly the last, and the
      ceiling is the context of the last fitting point, or `None` when there is none. */
  lemma RampReturnsPrefix(rungs: seq<int>, subject: Subject, obs: seq<RungObservation>)
    requires RampRun(rungs, subject, obs)
    ensures var points := PointsOf(rungs, subject, obs);
            var best := BestOf(rungs, obs);
            && |points| <= |rungs|
            && (forall i :: 0 <= i < |points| ==> points[i].context == points[i].requestedContext == Int(rungs[i]))
            && (forall i :: 0 <= i < |points| - 1 ==> points[i].fit)
            && best == (if points == [] then None
                        else if points[|points| - 1].fit then Some(rungs[|points| - 1])
                        else if |points| > 1 then Some(rungs[|points| - 2])
                        else None)
  {
    hide PreflightAdmission, CharacterizationPoint, PointAt;
    PointsOfShape(rungs, subject, obs);
    var k := BestIndex(rungs, obs);
    var points := PointsOf(rungs, subject, obs);
    forall i | 0 <= i < |points|
      ensures points[i].fit == FitsAt(obs[i], rungs[i]) && points[i].context == points[i].requestedContext == Int(rungs[i])
    {
      PointFacts(obs[i], rungs[i], subject);
    }
    assert |points| < |obs| ==> !FitsAt(obs[|points|], rungs[|points|]) by {
      if |points| < |obs| && FitsAt(obs[|points|], rungs[|points|]) {
        PointsOfFitting(rungs, subject, obs);
      }
    }
  }

  lemma PointFacts(o: RungObservation, context: int, subject: Subject)
    requires PointAt(o, context, subject).Some?
    ensures PointAt(o, context, subject).value.fit == FitsAt(o, context)
    ensures PointAt(o, context, subject).value.context == PointAt(o, context, subject).value.requestedContext == Int(context)
  {
  }

  /** Bytes by which a reading fell, and none when it rose; unknown when either reading is. */
  predicate FellBy(before: Option<int>, after: Option<int>, f: Field) {
    if before.None? || after.None? then f == Null
    else f.Int? && f.n >= 0 && (after.value <= before.value ==> f.n == before.value - after.value) && (after.value >= before.value ==> f.n == 0)
  }

  /** What an observation stores. Nothing for a rung that was not created; a point that does not fit, with its one reason, for
      a refused or unproven one; and for a measured one the runner's bytes, the fall of each touched reading, and the margins.
      Every point carries the admission on the rung's own reading. */
  lemma PointRecords(o: RungObservation, context: int, subject: Subject)
    ensures var p := PointAt(o, context, subject);
            && (p.None? <==> o.NotCreated?)
            && (p.Some? ==>
                  && p.value.context == p.value.requestedContext == Int(context)
                  && p.value.admission.Some? && p.value.admission.value.reason == AdmissionAt(o, context, subject).reason
                  && p.value.admission.value.requestedContext == ToField(Positive(Some(context)))
                  && p.value.admission.value.modelSize == ToField(Positive(subject.size)))
            && (o.Refused? && AdmissionAt(o, context, subject).reason.Some? ==>
                  !p.value.fit && p.value.reasons == [AdmissionAt(o, context, subject).reason.value] && p.value.effectiveContext == Null)
            && (o.Unproven? ==> !p.value.fit && p.value.reasons == [o.reason] && p.value.effectiveContext == Null)
            && (o.Measured? ==>
                  var c := p.value.cell;
                  && p.value.effectiveContext == ToField(o.process.effectiveContext) && (p.value.fit <==> p.value.reasons == [])
                  && c.residentTotal == ToField(o.process.size) && c.residentAccelerator == ToField(o.process.sizeVram)
                  && FellBy(o.before.systemAvailable, o.after.systemAvailable, c.systemDelta)
                  && c.systemMargin == Int(0x8000_0000)
                  && (if AcceleratorWall in c.walls
                      then FellBy(o.before.acceleratorAvailable, o.after.acceleratorAvailable, c.acceleratorDelta)
                           && c.acceleratorMargin == Int(0x4000_0000)
                      else c.acceleratorDelta == Null && c.acceleratorMargin == Null))
  {
    hide PreflightAdmission;
    AdmissionEchoes(o, context, subject);
  }

  lemma AdmissionEchoes(o: RungObservation, context: int, subject: Subject)
    ensures AdmissionAt(o, context, subject).requested == Positive(Some(context)) && AdmissionAt(o, context, subject).modelSize == Positive(subject.size)
  {
  }

  /** When every rung is judged on the same memory snapshot and only admission ever refuses, the ceiling is the
      early-stop ceiling of the schedule, hence the largest admitted rung. */
  lemma RampFindsEarlyStop(rungs: seq<int>, subject: Subject, obs: seq<RungObservation>, s: MemorySnapshot)
    requires RampRun(rungs, subject, obs)
    requires forall i :: 0 <= i < |obs| ==> obs[i].before == s && (obs[i].Refused? || FitsAt(obs[i], rungs[i]))
    ensures BestOf(rungs, obs)
            == RampSchedule.FirstStop(rungs, c => Admits(s, subject.size, c, subject.info))
  {
    hide PreflightAdmission, CharacterizationPoint, BestOf, RampSchedule.FirstStop;
    var admit := c => Admits(s, subject.size, c, subject.info);
    var k := BestIndex(rungs, obs);
    var n := k + 1;
    if n < |obs| {
      OnlyLastUnfit(rungs, obs, n);
      assert obs[n].Refused?;
      assert Decided(obs[n], rungs[n], subject);
    }
    forall i | 0 <= i < n ensures admit(rungs[i]) {
      assert Decided(obs[i], rungs[i], subject);
    }
    FirstStopAt(rungs, admit, n);
  }

  lemma OnlyLastUnfit(rungs: seq<int>, obs: seq<RungObservation>, n: nat)
    requires n < |obs| && AllFit(rungs, obs, |obs| - 1) && !FitsAt(obs[n], rungs[n])
    ensures n == |obs| - 1
  {
  }

  lemma {:induction false} FirstStopAt(rungs: seq<int>, admit: int -> bool, n: nat)
    requires n <= |rungs|
    requires forall i :: 0 <= i < n ==> admit(rungs[i])
    requires n < |rungs| ==> !admit(rungs[n])
    ensures RampSchedule.FirstStop(rungs, admit) == if n == 0 then None else Some(rungs[n - 1])
  {
    if n > 0 {
      FirstStopAt(rungs[1..], admit, n - 1);
    }
  }
}
