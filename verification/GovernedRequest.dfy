/** One governed request on the shared daemon: admit, warm if needed, run, and attest again. */
module GovernedRequest {
  import opened Wrappers
  import opened Evidence
  import opened Characterization
  import opened Events
  import opened Daemon
  import opened GovernedNames
  import Agreement

  type NameHash = (string, ArtifactId, int) -> string

  /** What one request was admitted for: the model as listed, the reusable configuration, and the context to run at. */
  datatype Governed = Governed(
    authority: Authority, model: Model, artifact: ArtifactId, digest: string, config: Config, context: int)

  /** `_ctx_gate_msg` with its default: the context to run at, or `None` when the request exceeds the ceiling. */
  function GovernedContext(ceiling: int, requested: Option<int>): (c: Option<int>)
    ensures c.Some? <==> requested.None? || requested.value <= ceiling
    ensures c.Some? ==> c.value <= ceiling && c.value == requested.GetOr(ceiling)
  {
    if requested.None? then Some(ceiling) else if requested.value > ceiling then None else requested
  }

  predicate ManifestSeen(g: Governed, models: Option<seq<Model>>) {
    models.Some? && FindModel(models.value, g.model.name).Some? && FindModel(models.value, g.model.name).value.digest == g.model.digest
  }

  /** The model itself, and the recorded probe when this inventory still lists its exact manifest. */
  function TargetsNow(hash: NameHash, g: Governed, models: Option<seq<Model>>): seq<Target> {
    var probe := RecordedProbeTarget(hash, g.config, models, g.model.name, g.artifact);
    [Target(g.model.name, Some(g.digest))] + (if probe.Some? then [probe.value] else [])
  }

  predicate Sole(hash: NameHash, g: Governed, models: Option<seq<Model>>, processes: Option<seq<Process>>, requireTarget: bool) {
    ResidencyRefusal(processes, TargetsNow(hash, g, models), Some(g.context), requireTarget).None?
  }

  predicate WallsMatch(g: Governed, p: Process, s: MemorySnapshot) {
    LiveResidencyRefusal(s, p, g.config.cell, g.context).None?
  }

  /** Authority, manifest, residency and wall readings, in this order. */
  datatype Reading = Reading(authority: Authority, models: Option<seq<Model>>, processes: Option<seq<Process>>, snapshot: MemorySnapshot)
  {
    function Events(): seq<Event> {
      [SawAuthority(authority), SawInventory(models), SawProcesses(processes), SawSnapshot(snapshot)]
    }

    /** Nothing or exactly the governed target was resident, and the walls held the recorded peaks. */
    predicate Admissible(hash: NameHash, g: Governed) {
      && authority == g.authority && ManifestSeen(g, models) && Sole(hash, g, models, processes, false)
      && LiveHeadroomRefusal(snapshot, g.config.cell, processes != Some([])).None?
      && (processes != Some([]) ==> WallsMatch(g, processes.value[0], snapshot))
    }

    /** Exactly the governed target was resident and within the walls. */
    predicate Attests(hash: NameHash, g: Governed) {
      && authority == g.authority && ManifestSeen(g, models) && Sole(hash, g, models, processes, true)
      && WallsMatch(g, processes.value[0], snapshot)
    }
  }

  /** The readings straight after a confirmed warm request. */
  datatype Warmed = Warmed(authority: Authority, processes: Option<seq<Process>>, snapshot: MemorySnapshot)
  {
    function Events(g: Governed): seq<Event> {
      [Warm(g.model.name, g.context, true), SawAuthority(authority), SawProcesses(processes), SawSnapshot(snapshot)]
    }

    predicate Confirms(hash: NameHash, g: Governed, models: Option<seq<Model>>) {
      && authority == g.authority && Sole(hash, g, models, processes, true)
      && WallsMatch(g, processes.value[0], snapshot)
    }
  }

  /** Everything observed before the request was good: the target was already resident, or was warmed and then seen. */
  ghost predicate Admitted(hash: NameHash, g: Governed, t: seq<Event>) {
    || (exists x: Reading :: Resident(hash, g, t, x))
    || (exists x: Reading, y: Warmed :: Cold(hash, g, t, x, y))
  }

  predicate Resident(hash: NameHash, g: Governed, t: seq<Event>, x: Reading) {
    t == x.Events() && x.Admissible(hash, g) && x.processes != Some([])
  }

  predicate Cold(hash: NameHash, g: Governed, t: seq<Event>, x: Reading, y: Warmed) {
    t == x.Events() + y.Events(g) && x.Admissible(hash, g) && x.processes == Some([]) && y.Confirms(hash, g, x.models)
  }

  ghost predicate WarmConfirmed(hash: NameHash, g: Governed, models: Option<seq<Model>>, t: seq<Event>) {
    exists y: Warmed :: t == y.Events(g) && y.Confirms(hash, g, models)
  }

  ghost predicate Attested(hash: NameHash, g: Governed, t: seq<Event>) {
    exists x: Reading :: t == x.Events() && x.Attests(hash, g)
  }

  // ---------- why a request stops ----------

  /** Nothing where nothing is demanded, or exactly one runner at the governed context: the model under its digest, or the
      recorded probe under its own. */
  ghost predicate ResidentsPass(hash: NameHash, g: Governed, models: Option<seq<Model>>, processes: Option<seq<Process>>, requireTarget: bool) {
    || (processes == Some([]) && !requireTarget)
    || (processes.Some? && |processes.value| == 1 && RunsGoverned(hash, g, models, processes.value[0]))
  }

  predicate RunsGoverned(hash: NameHash, g: Governed, models: Option<seq<Model>>, p: Process) {
    var probe := RecordedProbeTarget(hash, g.config, models, g.model.name, g.artifact);
    RunsAs(p, Target(g.model.name, Some(g.digest)), g.context) || (probe.Some? && RunsAs(p, probe.value, g.context))
  }

  lemma SoleMeans(hash: NameHash, g: Governed, models: Option<seq<Model>>, processes: Option<seq<Process>>, requireTarget: bool)
    ensures Sole(hash, g, models, processes, requireTarget) <==> ResidentsPass(hash, g, models, processes, requireTarget)
  {
    hide RecordedProbeTarget;
    var targets := TargetsNow(hash, g, models);
    var probe := RecordedProbeTarget(hash, g.config, models, g.model.name, g.artifact);
    assert Target(g.model.name, Some(g.digest)) in targets && (probe.Some? ==> probe.value in targets);
    forall target | target in targets ensures target == Target(g.model.name, Some(g.digest)) || probe == Some(target) {
    }
    if processes.Some? && |processes.value| == 1 {
      OneTarget(processes.value[0], targets, g.context);
    }
  }

  lemma OneTarget(p: Process, targets: seq<Target>, context: int)
    ensures IsTarget(p, targets, Some(context)) <==> exists target :: target in targets && RunsAs(p, target, context)
  {
    if IsTarget(p, targets, Some(context)) {
      var target :| target in targets && Answers(p, target.name) && p.digest == target.digest;
      assert RunsAs(p, target, context);
    }
    if target :| target in targets && RunsAs(p, target, context) {
      assert Answers(p, target.name);
    }
  }

  /** The readings ended with a bad one: another authority, another manifest, or residents that may not be there. */
  ghost predicate ReadingStops(hash: NameHash, g: Governed, t: seq<Event>, requireTarget: bool) {
    || (|t| == 1 && t[0].SawAuthority? && t[0].authority != g.authority)
    || (|t| == 2 && t[1].SawInventory? && !ManifestSeen(g, t[1].models))
    || (|t| == 3 && t[1].SawInventory? && t[2].SawProcesses? && !ResidentsPass(hash, g, t[1].models, t[2].processes, requireTarget))
  }

  /** The warm-up was not confirmed, or ended with a bad reading. */
  ghost predicate WarmStops(hash: NameHash, g: Governed, models: Option<seq<Model>>, u: seq<Event>) {
    || u == [Warm(g.model.name, g.context, false)]
    || (|u| == 2 && u[1].SawAuthority? && u[1].authority != g.authority)
    || (|u| == 3 && u[2].SawProcesses? && !ResidentsPass(hash, g, models, u[2].processes, true))
    || (|u| == 4 && u[2].SawProcesses? && u[2].processes.Some? && |u[2].processes.value| == 1 && u[3].SawSnapshot?
        && !WallsMatch(g, u[2].processes.value[0], u[3].snapshot))
  }

  /** The admission ended with a bad reading, short walls, a resident outside its evidence, or a bad warm-up. */
  ghost predicate AdmissionStops(hash: NameHash, g: Governed, t: seq<Event>) {
    || ReadingStops(hash, g, t, false)
    || (exists x: Reading :: t == x.Events() && x.processes.Some? && |x.processes.value| <= 1 && !RoomFor(g, x))
    || (|t| > 4 && t[1].SawInventory? && t[2] == SawProcesses(Some([])) && WarmStops(hash, g, t[1].models, t[4..]))
  }

  predicate RoomFor(g: Governed, x: Reading)
    requires x.processes.Some? && |x.processes.value| <= 1
  {
    && LiveHeadroomRefusal(x.snapshot, g.config.cell, x.processes != Some([])).None?
    && (x.processes != Some([]) ==> WallsMatch(g, x.processes.value[0], x.snapshot))
  }

  ghost predicate AttestStops(hash: NameHash, g: Governed, t: seq<Event>) {
    || ReadingStops(hash, g, t, true)
    || (exists x: Reading :: t == x.Events() && x.processes.Some? && |x.processes.value| == 1
                             && !WallsMatch(g, x.processes.value[0], x.snapshot))
  }

  /** As long as the answers are those of a good reading, and of a good warm-up where nothing is resident, an admission does
      not stop: in particular an idle daemon is asked to warm the model. */
  lemma GoodAnswersAreAdmitted(hash: NameHash, g: Governed, t: seq<Event>, x: Reading, y: Warmed)
    requires AdmissionStops(hash, g, t) || Admitted(hash, g, t)
    requires x.Admissible(hash, g) && (x.processes == Some([]) ==> y.Confirms(hash, g, x.models))
    requires t <= x.Events() + (if x.processes == Some([]) then y.Events(g) else [])
    ensures Admitted(hash, g, t)
    ensures x.processes == Some([]) ==> |t| == 8 && t[4] == Warm(g.model.name, g.context, true)
  {
    hide AdmissionStops, Admitted, Reading.Admissible, Warmed.Confirms;
    GoodAnswersDoNotStop(hash, g, t, x, y);
    AdmittedHasLength(hash, g, t);
    var all := x.Events() + (if x.processes == Some([]) then y.Events(g) else []);
    assert forall i :: 0 <= i < |t| ==> t[i] == all[i];
  }

  lemma GoodAnswersDoNotStop(hash: NameHash, g: Governed, t: seq<Event>, x: Reading, y: Warmed)
    requires x.Admissible(hash, g) && (x.processes == Some([]) ==> y.Confirms(hash, g, x.models))
    requires t <= x.Events() + (if x.processes == Some([]) then y.Events(g) else [])
    ensures !AdmissionStops(hash, g, t)
  {
    hide ManifestSeen, TargetsNow, ResidencyRefusal, LiveHeadroomRefusal, LiveResidencyRefusal, WarmStops, Warmed.Confirms, RunsGoverned;
    var all := x.Events() + (if x.processes == Some([]) then y.Events(g) else []);
    assert forall i :: 0 <= i < |t| ==> t[i] == all[i];
    SoleMeans(hash, g, x.models, x.processes, false);
    if |t| > 4 {
      assert t[4..] <= y.Events(g) && t[1] == SawInventory(x.models);
      GoodWarmDoesNotStop(hash, g, x.models, t[4..], y);
    }
    forall x': Reading | t == x'.Events() ensures x' == x {
      assert t[0] == SawAuthority(x'.authority) && t[1] == SawInventory(x'.models);
      assert t[2] == SawProcesses(x'.processes) && t[3] == SawSnapshot(x'.snapshot);
    }
  }

  lemma GoodWarmDoesNotStop(hash: NameHash, g: Governed, models: Option<seq<Model>>, u: seq<Event>, y: Warmed)
    requires y.Confirms(hash, g, models) && u <= y.Events(g)
    ensures !WarmStops(hash, g, models, u)
  {
    hide ManifestSeen, TargetsNow, ResidencyRefusal, LiveResidencyRefusal, RunsGoverned;
    var all := y.Events(g);
    assert forall i :: 0 <= i < |u| ==> u[i] == all[i];
    assert all[0] == Warm(g.model.name, g.context, true) && all[1] == SawAuthority(y.authority);
    assert all[2] == SawProcesses(y.processes) && all[3] == SawSnapshot(y.snapshot);
    SoleMeans(hash, g, models, y.processes, true);
    assert u != [] ==> u[0] == all[0];
  }

  /** An admission has four events, the residents among them, or eight after an idle reading. */
  lemma AdmittedHasLength(hash: NameHash, g: Governed, t: seq<Event>)
    requires Admitted(hash, g, t)
    ensures |t| == 4 || |t| == 8
    ensures |t| == 4 ==> t[2].SawProcesses? && t[2] != SawProcesses(Some([]))
  {
    hide ManifestSeen, TargetsNow, ResidencyRefusal, LiveHeadroomRefusal, LiveResidencyRefusal;
    if x: Reading :| Resident(hash, g, t, x) {
      assert t[2] == SawProcesses(x.processes);
    }
  }

  ghost predicate NoRequest(t: seq<Event>) {
    forall i :: 0 <= i < |t| ==> !t[i].Request?
  }

  /** Authority, inventory, residency and walls, each refused before the next is read. */
  method ReadAll<M(!new)>(w: World<M>, hash: NameHash, g: Governed, requireTarget: bool) returns (r: Outcome<Reading>, ghost seen: seq<Event>)
    requires w.Valid()
    modifies w`trace, w`state, w`faults
    ensures w.Valid() && w.trace == old(w.trace) + seen && NoRequest(seen)
    ensures if r.Raised? then |seen| < 4
            else seen == r.value.Events() && r.value.authority == g.authority && ManifestSeen(g, r.value.models)
                 && Sole(hash, g, r.value.models, r.value.processes, requireTarget)
    ensures if r.Ok? then w.faults == old(w.faults) else w.faults > old(w.faults) || (w.faults == old(w.faults) && ReadingStops(hash, g, seen, requireTarget))
  {
    hide ManifestSeen, TargetsNow, ResidencyRefusal, Fold, ResidentsPass;
    seen := [];
    var authority := w.RuntimeAuthority();
    if authority.Raised? { return Raised(authority.error), seen; }
    seen := seen + [SawAuthority(authority.value)];
    if authority.value != g.authority { return Raised(AuthorityChanged), seen; }
    var models := w.Inventory();
    if models.Raised? { return Raised(models.error), seen; }
    seen := seen + [SawInventory(models.value)];
    if !ManifestSeen(g, models.value) { return Raised(ManifestChanged), seen; }
    var targets := TargetsNow(hash, g, models.value);
    var processes := w.Processes();
    if processes.Raised? { return Raised(processes.error), seen; }
    seen := seen + [SawProcesses(processes.value)];
    SoleMeans(hash, g, models.value, processes.value, requireTarget);
    if ResidencyRefusal(processes.value, targets, Some(g.context), requireTarget).Some? { return Raised(ResidencyBlocked), seen; }
    var snapshot := w.Snapshot();
    if snapshot.Raised? { return Raised(snapshot.error), seen; }
    seen := seen + [SawSnapshot(snapshot.value)];
    r := Ok(Reading(authority.value, models.value, processes.value, snapshot.value));
  }

  method WarmUp<M(!new)>(w: World<M>, hash: NameHash, g: Governed, models: Option<seq<Model>>)
    returns (r: Outcome<Warmed>, ghost seen: seq<Event>)
    requires w.Valid()
    modifies w`trace, w`state, w`faults
    ensures w.Valid() && w.trace == old(w.trace) + seen && NoRequest(seen)
    ensures r.Ok? ==> seen == r.value.Events(g) && r.value.Confirms(hash, g, models)
    ensures r.Raised? ==> |seen| <= 4 && !WarmConfirmed(hash, g, models, seen)
    ensures seen != [] && seen[0].Warm?
    ensures if r.Ok? then w.faults == old(w.faults) else w.faults > old(w.faults) || (w.faults == old(w.faults) && WarmStops(hash, g, models, seen))
  {
    hide TargetsNow, ResidencyRefusal, LiveResidencyRefusal, Fold, ResidentsPass;
    var warmed := w.WarmForRun(g.model.name, g.context);
    seen := [Warm(g.model.name, g.context, warmed == Ok(true))];
    if warmed.Raised? { return Raised(warmed.error), seen; }
    if !warmed.value { return Raised(WarmupUnconfirmed), seen; }
    var authority := w.RuntimeAuthority();
    if authority.Raised? { return Raised(authority.error), seen; }
    seen := seen + [SawAuthority(authority.value)];
    if authority.value != g.authority { return Raised(AuthorityChanged), seen; }
    var targets := TargetsNow(hash, g, models);
    var processes := w.Processes();
    if processes.Raised? { return Raised(processes.error), seen; }
    seen := seen + [SawProcesses(processes.value)];
    SoleMeans(hash, g, models, processes.value, true);
    if ResidencyRefusal(processes.value, targets, Some(g.context), true).Some? { return Raised(ResidencyBlocked), seen; }
    SoleIsThere(processes.value, targets, Some(g.context));
    var snapshot := w.Snapshot();
    if snapshot.Raised? { return Raised(snapshot.error), seen; }
    seen := seen + [SawSnapshot(snapshot.value)];
    var y := Warmed(authority.value, processes.value, snapshot.value);
    WarmedIsSeen(hash, g, models, y);
    if LiveResidencyRefusal(snapshot.value, processes.value.value[0], g.config.cell, g.context).Some? {
      return Raised(ResidencyDrift), seen;
    }
    r := Ok(y);
  }

  lemma WarmedIsSeen(hash: NameHash, g: Governed, models: Option<seq<Model>>, y: Warmed)
    ensures WarmConfirmed(hash, g, models, y.Events(g)) <==> y.Confirms(hash, g, models)
  {
    hide Warmed.Confirms;
    var t := y.Events(g);
    assert t[1] == SawAuthority(y.authority) && t[2] == SawProcesses(y.processes) && t[3] == SawSnapshot(y.snapshot);
    forall y': Warmed | t == y'.Events(g) ensures y' == y {
    }
  }

  lemma SoleIsThere(processes: Option<seq<Process>>, targets: seq<Target>, context: Option<int>)
    requires ResidencyRefusal(processes, targets, context, true).None?
    ensures processes.Some? && |processes.value| == 1 && IsTarget(processes.value[0], targets, context)
  {
  }

  /** Events decide which reading they came from, so a prefix of an admission is no other admission. */
  lemma ReadingIsSeen(hash: NameHash, g: Governed, seen: seq<Event>, x: Reading, later: seq<Event>)
    requires seen == x.Events() && |later| <= 4
    ensures Admitted(hash, g, seen + later)
            <==> x.Admissible(hash, g)
                 && (if later == [] then x.processes != Some([]) else x.processes == Some([]) && WarmConfirmed(hash, g, x.models, later))
  {
    hide Sole, WallsMatch, ManifestSeen, LiveHeadroomRefusal, Warmed.Confirms;
    var t := seen + later;
    assert t[0] == SawAuthority(x.authority) && t[1] == SawInventory(x.models);
    assert t[2] == SawProcesses(x.processes) && t[3] == SawSnapshot(x.snapshot);
    if later == [] {
      assert t == x.Events();
      assert Resident(hash, g, t, x) <==> x.Admissible(hash, g) && x.processes != Some([]);
      forall x': Reading | Resident(hash, g, t, x') ensures x' == x {
      }
    } else {
      forall x': Reading, y: Warmed | Cold(hash, g, t, x', y) ensures x' == x && later == y.Events(g) {
        assert t[4..] == y.Events(g);
      }
      forall y: Warmed | later == y.Events(g) && y.Confirms(hash, g, x.models) && x.Admissible(hash, g) && x.processes == Some([])
        ensures Cold(hash, g, t, x, y)
      {
      }
    }
  }

  lemma SoleHasAtMostOne(hash: NameHash, g: Governed, models: Option<seq<Model>>, processes: Option<seq<Process>>, requireTarget: bool)
    requires Sole(hash, g, models, processes, requireTarget)
    ensures processes.Some? && |processes.value| <= 1 && (processes != Some([]) || requireTarget ==> |processes.value| == 1)
  {
  }

  lemma ReadingSeen(x: Reading)
    ensures var t := x.Events(); |t| == 4 && t[1] == SawInventory(x.models) && t[2] == SawProcesses(x.processes)
  {
  }

  /** Everything before the `yield`. */
  method Admit<M(!new)>(w: World<M>, hash: NameHash, g: Governed) returns (r: Outcome<bool>, ghost seen: seq<Event>)
    requires w.Valid()
    modifies w`trace, w`state, w`faults
    ensures w.Valid() && w.trace == old(w.trace) + seen && NoRequest(seen)
    ensures r.Ok? <==> Admitted(hash, g, seen)
    ensures if r.Ok? then w.faults == old(w.faults) else w.faults > old(w.faults) || (w.faults == old(w.faults) && AdmissionStops(hash, g, seen))
  {
    hide TargetsNow, ManifestSeen, LiveResidencyRefusal, LiveHeadroomRefusal, ReadingStops, WarmStops;
    var reading;
    reading, seen := ReadAll(w, hash, g, false);
    if reading.Raised? { return Raised(reading.error), seen; }
    var x := reading.value;
    ReadingIsSeen(hash, g, seen, x, []);
    SoleHasAtMostOne(hash, g, x.models, x.processes, false);
    ReadingSeen(x);
    var resident := x.processes != Some([]);
    if LiveHeadroomRefusal(x.snapshot, g.config.cell, resident).Some? { return Raised(HeadroomRefused), seen; }
    if resident {
      if LiveResidencyRefusal(x.snapshot, x.processes.value[0], g.config.cell, g.context).Some? { return Raised(ResidencyDrift), seen; }
      assert Resident(hash, g, seen, x);
      return Ok(true), seen;
    }
    var warmed;
    ghost var later;
    warmed, later := WarmUp(w, hash, g, x.models);
    ReadingIsSeen(hash, g, seen, x, later);
    seen := seen + later;
    assert seen[4..] == later;
    if warmed.Raised? { return Raised(warmed.error), seen; }
    assert Cold(hash, g, seen, x, warmed.value);
    r := Ok(true);
  }

  /** Everything after the `yield`. */
  method Reattest<M(!new)>(w: World<M>, hash: NameHash, g: Governed) returns (r: Outcome<bool>, ghost seen: seq<Event>)
    requires w.Valid()
    modifies w`trace, w`state, w`faults
    ensures w.Valid() && w.trace == old(w.trace) + seen && NoRequest(seen)
    ensures r.Ok? <==> Attested(hash, g, seen)
    ensures if r.Ok? then w.faults == old(w.faults) else w.faults > old(w.faults) || (w.faults == old(w.faults) && AttestStops(hash, g, seen))
  {
    hide TargetsNow, ManifestSeen, LiveResidencyRefusal, ResidencyRefusal, ReadingStops;
    var reading;
    reading, seen := ReadAll(w, hash, g, true);
    if reading.Raised? { return Raised(reading.error), seen; }
    var x := reading.value;
    SoleIsThere(x.processes, TargetsNow(hash, g, x.models), Some(g.context));
    if LiveResidencyRefusal(x.snapshot, x.processes.value[0], g.config.cell, g.context).Some? { return Raised(ResidencyDrift), seen; }
    r := Ok(true);
  }

  /** How a governed request went: the body ran exactly after a good admission, the request succeeds exactly when a good second
      attestation came after the body, and if it fails, then a call raised or what was seen last is bad. */
  ghost predicate Governs(
    r: Outcome<bool>, before: seq<Event>, during: seq<Event>, after: seq<Event>, hash: NameHash, g: Governed, raised: bool)
  {
    && NoRequest(before) && NoRequest(after)
    && (during == [] || during == [Request(g.model.name, g.context)])
    && (during != [] <==> Admitted(hash, g, before))
    && (during == [] ==> r.Raised? && after == [])
    && (r.Ok? <==> Attested(hash, g, after))
    && (r.Ok? ==> !raised)
    && (r.Raised? ==> raised || (if during == [] then AdmissionStops(hash, g, before) else AttestStops(hash, g, after)))
  }

  /** When no call raises and the answers are those of a good reading before, of a good warm-up where nothing is resident, and
      of a good reading after, the body runs and the request succeeds. */
  lemma GoodAnswersSucceed(
    r: Outcome<bool>, before: seq<Event>, during: seq<Event>, after: seq<Event>, hash: NameHash, g: Governed, x: Reading, y: Warmed,
    z: Reading)
    requires Governs(r, before, during, after, hash, g, false)
    requires x.Admissible(hash, g) && (x.processes == Some([]) ==> y.Confirms(hash, g, x.models)) && z.Attests(hash, g)
    requires before <= x.Events() + (if x.processes == Some([]) then y.Events(g) else []) && after <= z.Events()
    ensures during == [Request(g.model.name, g.context)] && r.Ok?
  {
    hide AdmissionStops, Admitted, Attested, AttestStops, Reading.Admissible, Reading.Attests, Warmed.Confirms;
    if during == [] {
      GoodAnswersAreAdmitted(hash, g, before, x, y);
    }
    GoodReadingAttests(hash, g, after, z);
  }

  lemma GoodReadingAttests(hash: NameHash, g: Governed, t: seq<Event>, z: Reading)
    requires z.Attests(hash, g) && t <= z.Events()
    ensures !AttestStops(hash, g, t)
  {
    hide ManifestSeen, TargetsNow, ResidencyRefusal, LiveResidencyRefusal, RunsGoverned;
    assert forall i :: 0 <= i < |t| ==> t[i] == z.Events()[i];
    SoleMeans(hash, g, z.models, z.processes, true);
    forall x: Reading | t == x.Events() ensures x == z {
      assert t[0] == SawAuthority(x.authority) && t[1] == SawInventory(x.models);
      assert t[2] == SawProcesses(x.processes) && t[3] == SawSnapshot(x.snapshot);
    }
  }

  lemma NothingAttests(hash: NameHash, g: Governed)
    ensures !Attested(hash, g, [])
  {
    forall x: Reading ensures x.Events() != [] {
    }
  }

  /** `_governed_ollama_request` around one request body, inside its lock. */
  method GovernedOllamaRequest<M(!new)>(w: World<M>, hash: NameHash, g: Governed)
    returns (r: Outcome<bool>, ghost before: seq<Event>, ghost during: seq<Event>, ghost after: seq<Event>)
    requires w.Valid()
    modifies w`trace, w`state, w`faults
    ensures w.Valid() && w.trace == old(w.trace) + before + during + after
    ensures w.faults >= old(w.faults) && Governs(r, before, during, after, hash, g, w.faults > old(w.faults))
  {
    hide Admitted, Attested, AdmissionStops, AttestStops;
    NothingAttests(hash, g);
    during, after := [], [];
    var admitted;
    admitted, before := Admit(w, hash, g);
    if admitted.Raised? { return Raised(admitted.error), before, during, after; }
    var body := w.RunBody(g.model.name, g.context);
    during := [Request(g.model.name, g.context)];
    if body.Raised? { return Raised(body.error), before, during, after; }
    var again;
    again, after := Reattest(w, hash, g);
    if again.Raised? { return Raised(again.error), before, during, after; }
    r := body;
  }

  // ---------- what an admission means for memory ----------

  /** Straight before an admitted request exactly one runner was resident: the governed model, or its recorded probe,
      at the governed context and the recorded placement, with every applicable margin intact. When the model had to
      be warmed, the reading before had room for the recorded peaks on top of the margins. */
  lemma AdmittedKeepsMargins(hash: NameHash, g: Governed, t: seq<Event>, point: Cell)
    returns (p: Process, s: MemorySnapshot, models: Option<seq<Model>>)
    requires Admitted(hash, g, t)
    requires g.config.cell.placement in {Cpu, Unified, Accelerator, PartialOffload} && WallEvidenceComplete(g.config.cell, point)
    ensures |t| >= 4 && t[|t| - 2] == SawProcesses(Some([p])) && t[|t| - 1] == SawSnapshot(s) && t[1] == SawInventory(models)
    ensures IsTarget(p, TargetsNow(hash, g, models), Some(g.context))
    ensures ClassifyPlacement(s, p) == g.config.cell.placement
    ensures KeepsMargins(s, g.config.cell, 0, 0)
    ensures |t| == 4 || (|t| == 8 && t[2] == SawProcesses(Some([])) && t[3].SawSnapshot?
                         && KeepsMargins(t[3].snapshot, g.config.cell, SystemPeak(g.config.cell), AcceleratorPeak(g.config.cell)))
  {
    hide TargetsNow, ManifestSeen, WallEvidenceComplete, CharacterizationPoint, LiveHeadroomRefusal;
    if x: Reading :| Resident(hash, g, t, x) {
      SoleIsThere(x.processes, TargetsNow(hash, g, x.models), Some(g.context));
      p, s, models := x.processes.value[0], x.snapshot, x.models;
      assert x.processes.value == [p];
      LiveMeansMargins(g.config.cell, g.context, p, s);
    } else {
      var x: Reading, y: Warmed :| Cold(hash, g, t, x, y);
      SoleIsThere(y.processes, TargetsNow(hash, g, x.models), Some(g.context));
      p, s, models := y.processes.value[0], y.snapshot, x.models;
      assert y.processes.value == [p];
      LiveMeansMargins(g.config.cell, g.context, p, s);
      HeadroomMeansMargins(g.config.cell, point, x.snapshot);
    }
  }

  function AcceleratorPeak(c: Cell): int {
    if Offloaded(c.placement) && c.residentAccelerator.Int? then c.residentAccelerator.n else 0
  }

  /** The recorded peaks on the two memories add up to the recorded resident total. */
  function SystemPeak(c: Cell): int {
    if c.residentTotal.Int? then c.residentTotal.n - AcceleratorPeak(c) else 0
  }

  predicate KeepsMargins(s: MemorySnapshot, c: Cell, system: int, accelerator: int) {
    && s.systemAvailable.Some? && s.systemAvailable.value - system >= SYSTEM_MARGIN_BYTES
    && (Offloaded(c.placement) ==>
          s.acceleratorAvailable.Some? && s.acceleratorAvailable.value - accelerator >= ACCELERATOR_MARGIN_BYTES)
  }

  lemma LiveMeansMargins(c: Cell, context: int, p: Process, s: MemorySnapshot)
    requires LiveResidencyRefusal(s, p, c, context).None?
    ensures ClassifyPlacement(s, p) == c.placement && KeepsMargins(s, c, 0, 0)
  {
    Agreement.FittingMeasurement(s, s, p, context);
  }

  lemma HeadroomMeansMargins(c: Cell, point: Cell, s: MemorySnapshot)
    requires c.placement in {Cpu, Unified, Accelerator, PartialOffload} && WallEvidenceComplete(c, point)
    requires LiveHeadroomRefusal(s, c, false).None?
    ensures KeepsMargins(s, c, SystemPeak(c), AcceleratorPeak(c))
  {
    Agreement.AcceptedEvidenceSufficesForHeadroom(c, point, s, false);
  }
}
