/** One characterization of one rung in which nothing goes wrong: the probe monitor accepts it to its last event. */
module OneRun {
  import opened Wrappers
  import opened Evidence
  import opened Characterization
  import opened Events
  import opened ProbeLifecycle
  import opened RampEvidence
  import opened ProbeRamp

  /** Whose run it is, the inventory without the probe and with it, and the rung's readings. */
  datatype Course = Course(
    job: Job, a: Authority, context: int, alone: Option<seq<Model>>, listed: Option<seq<Model>>, digest: string,
    before: MemorySnapshot, after: MemorySnapshot, runner: Process)

  ghost predicate Straight(x: Course) {
    && x.context in x.job.contexts
    && DigestIn(x.alone, x.job.probe).None? && DigestIn(x.listed, x.job.probe) == Some(x.digest)
    && InventoryId(x.alone, x.job.baseModel) == InventoryId(x.listed, x.job.baseModel) == Some(x.job.baseArtifact)
    && IsTarget(x.runner, [Target(x.job.probe, Some(x.digest))], Some(x.context)) && x.runner.digest == Some(x.digest)
  }

  /** Nothing has the probe's name, and nothing is resident. */
  function Preparation(x: Course): seq<Event> {
    [SawInventory(x.alone), SawProcesses(Some([]))]
  }

  function Checks(x: Course): seq<Event> {
    [SawSnapshot(x.before), SawAuthority(x.a), SawInventory(x.alone)]
  }

  function Making(x: Course): seq<Event> {
    [Create(x.job.probe, x.job.baseModel, x.context, true), SawInventory(x.listed),
     Own(OllamaManifest(x.digest), OwnershipFor(x.job, x.context)), SawInventory(x.listed)]
  }

  function Loading(x: Course): seq<Event> {
    LoadEvents(x.job, x.a, x.context, x.after, x.runner)
  }

  /** The probe is expired, seen gone, and deleted. */
  function Cleanup(x: Course): seq<Event> {
    [SawInventory(x.listed), SawProcesses(Some([x.runner])), Load(x.job.probe, true, true), SawProcesses(Some([])),
     SawInventory(x.listed), Delete(x.job.probe, true)]
  }

  function Closing(x: Course, row: Row): seq<Event> {
    [SawInventory(x.alone), SawAuthority(x.a), Saved(row)]
  }

  function Trace(x: Course, row: Row): seq<Event> {
    Preparation(x) + Checks(x) + Making(x) + Loading(x) + Cleanup(x) + Closing(x, row)
  }

  // ---------- the monitor on each part ----------

  /** The monitor from some state on. */
  function After(job: Job, m: Monitor, u: seq<Event>): Monitor {
    if u == [] then m else Step(job, After(job, m, u[..|u| - 1]), u[|u| - 1])
  }

  lemma {:induction false} RunGoesOn(job: Job, store: map<ArtifactId, OwnershipRow>, t: seq<Event>, u: seq<Event>)
    ensures Run(job, store, t + u) == After(job, Run(job, store, t), u)
  {
    hide Step;
    if u == [] {
      assert t + u == t;
    } else {
      assert (t + u)[..|t + u| - 1] == t + u[..|u| - 1];
      RunGoesOn(job, store, t, u[..|u| - 1]);
    }
  }

  lemma OneEvent(job: Job, m: Monitor, e: Event)
    ensures After(job, m, [e]) == Step(job, m, e)
  {
    assert [e][..0] == [];
  }

  lemma OneMore(job: Job, m: Monitor, u: seq<Event>, e: Event)
    ensures After(job, m, u + [e]) == Step(job, After(job, m, u), e)
  {
    assert (u + [e])[..|u + [e]| - 1] == u;
  }

  lemma TwoEvents(job: Job, m: Monitor, e: Event, f: Event)
    ensures After(job, m, [e, f]) == Step(job, Step(job, m, e), f)
  {
    hide Step;
    OneEvent(job, m, e);
    OneMore(job, m, [e], f);
    assert [e] + [f] == [e, f];
  }

  lemma FourEvents(job: Job, m: Monitor, e: Event, f: Event, g: Event, h: Event)
    ensures After(job, m, [e, f, g, h]) == Step(job, Step(job, Step(job, Step(job, m, e), f), g), h)
  {
    hide Step;
    TwoEvents(job, m, e, f);
    OneMore(job, m, [e, f], g);
    OneMore(job, m, [e, f] + [g], h);
    assert [e, f] + [g] + [h] == [e, f, g, h];
  }

  lemma ThreeEvents(job: Job, m: Monitor, e: Event, f: Event, g: Event)
    ensures After(job, m, [e, f, g]) == Step(job, Step(job, Step(job, m, e), f), g)
  {
    hide Step;
    TwoEvents(job, m, e, f);
    OneMore(job, m, [e, f], g);
    assert [e, f] + [g] == [e, f, g];
  }

  /** Idle and without a probe. */
  function Prepared(store: map<ArtifactId, OwnershipRow>): Monitor {
    Watching(Absent, None, store, false, true, None)
  }

  /** The probe is made and owned; its phase, and what was seen last, are those given. */
  function Made(x: Course, store: map<ArtifactId, OwnershipRow>, phase: Phase, seen: Option<string>, saved: bool): Monitor {
    Watching(phase, seen, store[OllamaManifest(x.digest) := OwnershipFor(x.job, x.context)], saved, true,
             Some(Creation(x.context, Some(x.digest))))
  }

  lemma AfterPreparation(x: Course, store: map<ArtifactId, OwnershipRow>)
    requires Straight(x)
    ensures After(x.job, Start(store), Preparation(x)) == Prepared(store)
    ensures After(x.job, Prepared(store), Checks(x)) == Prepared(store)
  {
    hide DigestIn, InventoryId, After, IsTarget;
    TwoEvents(x.job, Start(store), SawInventory(x.alone), SawProcesses(Some([])));
    ThreeEvents(x.job, Prepared(store), SawSnapshot(x.before), SawAuthority(x.a), SawInventory(x.alone));
  }

  lemma AfterMaking(x: Course, store: map<ArtifactId, OwnershipRow>)
    requires Straight(x)
    ensures After(x.job, Prepared(store), Making(x)) == Made(x, store, Owned(x.digest, x.context), Some(x.digest), false)
  {
    hide DigestIn, InventoryId, After, OwnershipFor, IsTarget;
    var artifact := OllamaManifest(x.digest);
    FourEvents(x.job, Prepared(store), Create(x.job.probe, x.job.baseModel, x.context, true), SawInventory(x.listed),
               Own(artifact, OwnershipFor(x.job, x.context)), SawInventory(x.listed));
  }

  lemma AfterLoading(x: Course, store: map<ArtifactId, OwnershipRow>)
    requires Straight(x)
    ensures After(x.job, Made(x, store, Owned(x.digest, x.context), Some(x.digest), false), Loading(x)) == Made(x, store, Used(x.digest, x.context), None, false)
  {
    hide DigestIn, InventoryId, After, OwnershipFor, IsTarget;
    FourEvents(x.job, Made(x, store, Owned(x.digest, x.context), Some(x.digest), false),
               Generate(x.job.probe, x.context, true), SawAuthority(x.a), SawProcesses(Some([x.runner])), SawSnapshot(x.after));
  }

  lemma AfterCleanup(x: Course, store: map<ArtifactId, OwnershipRow>)
    requires Straight(x)
    ensures After(x.job, Made(x, store, Used(x.digest, x.context), None, false), Cleanup(x)) == Made(x, store, Absent, None, false)
  {
    hide DigestIn, InventoryId, After, OwnershipFor, IsTarget;
    var m := Made(x, store, Used(x.digest, x.context), None, false);
    FourEvents(x.job, m, SawInventory(x.listed), SawProcesses(Some([x.runner])), Load(x.job.probe, true, true), SawProcesses(Some([])));
    var u := [SawInventory(x.listed), SawProcesses(Some([x.runner])), Load(x.job.probe, true, true), SawProcesses(Some([]))];
    OneMore(x.job, m, u, SawInventory(x.listed));
    OneMore(x.job, m, u + [SawInventory(x.listed)], Delete(x.job.probe, true));
    assert u + [SawInventory(x.listed)] + [Delete(x.job.probe, true)] == Cleanup(x);
  }

  lemma AfterClosing(x: Course, store: map<ArtifactId, OwnershipRow>, row: Row)
    requires Straight(x)
    ensures After(x.job, Made(x, store, Absent, None, false), Closing(x, row)) == Made(x, store, Absent, None, true)
  {
    hide DigestIn, InventoryId, After, OwnershipFor, IsTarget;
    ThreeEvents(x.job, Made(x, store, Absent, None, false), SawInventory(x.alone), SawAuthority(x.a), Saved(row));
  }

  /** The monitor accepts the whole run, with the row saved at its end and no probe left. */
  lemma StraightRunIsAccepted(x: Course, store: map<ArtifactId, OwnershipRow>, row: Row)
    requires Straight(x)
    ensures Run(x.job, store, Trace(x, row)) == Made(x, store, Absent, None, true)
  {
    hide Straight, After, Prepared, Made, Preparation, Checks, Making, Loading, Cleanup, Closing, Step;
    var t1 := Preparation(x);
    var t2 := t1 + Checks(x);
    var t3 := t2 + Making(x);
    var t4 := t3 + Loading(x);
    var t5 := t4 + Cleanup(x);
    AfterPreparation(x, store);
    AfterMaking(x, store);
    AfterLoading(x, store);
    AfterCleanup(x, store);
    AfterClosing(x, store, row);
    assert [] + t1 == t1;
    RunGoesOn(x.job, store, [], t1);
    RunGoesOn(x.job, store, t1, Checks(x));
    RunGoesOn(x.job, store, t2, Making(x));
    RunGoesOn(x.job, store, t3, Loading(x));
    RunGoesOn(x.job, store, t4, Cleanup(x));
    RunGoesOn(x.job, store, t5, Closing(x, row));
  }

  /** Its one rung is observed as the ramp requires, and its end is that of a commit. */
  lemma StraightRunIsObserved(x: Course, row: Row)
    requires Straight(x)
    ensures Observed(Trace(x, row), x.job, x.a, x.context, None, Measured(x.before, x.after, x.runner))
    ensures var t := Trace(x, row); |t| == 22 && t[19..] == Closing(x, row)
  {
    hide DigestIn, InventoryId, OwnershipFor, RungEnds, IsTarget;
    var t := Trace(x, row);
    var o := Measured(x.before, x.after, x.runner);
    StraightRungEnds(x);
    assert t[5..13] == Making(x) + Loading(x);
    assert t[2] == Checks(x)[0] && t[3] == Checks(x)[1] && t[4] == Checks(x)[2];
    assert ObservedFrom(t, 2, x.job, x.a, x.context, None, x.digest, o);
  }

  lemma StraightRungEnds(x: Course)
    requires Straight(x)
    ensures RungEnds(Loaded(x.after, x.runner), Making(x) + Loading(x), x.job, x.a, x.context, None, x.digest)
  {
    hide DigestIn, InventoryId, OwnershipFor;
    var t := Making(x) + Loading(x);
    assert t[..4] == Making(x) && t[4..] == Loading(x);
    assert SameName(x.runner.name, x.job.probe);
  }

  /** A model and a probe whose names begin differently are told apart in an inventory, tagged or not. */
  lemma ListedApart(base: Model, probe: Model)
    requires base.name != [] && |probe.name| > 7 && base.name[0] != probe.name[0]
    ensures FindModel([base], base.name) == FindModel([base, probe], base.name) == Some(base)
    ensures FindModel([base], probe.name).None? && FindModel([base, probe], probe.name) == Some(probe)
  {
    hide LatestAlias;
    AliasBeginsAlike(probe.name);
    NamedInPair(base, probe, base.name);
    NamedInPair(base, probe, probe.name);
    if LatestAlias(probe.name).Some? {
      NamedInPair(base, probe, LatestAlias(probe.name).value);
    }
  }

  lemma NamedInPair(base: Model, probe: Model, name: string)
    ensures FirstNamed([base], name) == if base.name == name then Some(base) else None
    ensures FirstNamed([base, probe], name) == if base.name == name then Some(base) else FirstNamed([probe], name)
    ensures FirstNamed([probe], name) == if probe.name == name then Some(probe) else None
  {
    assert [base, probe][1..] == [probe];
  }

  lemma AliasBeginsAlike(name: string)
    requires |name| > 7
    ensures LatestAlias(name).Some? ==> LatestAlias(name).value != [] && LatestAlias(name).value[0] == name[0]
  {
    hide Leaf;
    assert |":latest"| == 7;
  }
}
