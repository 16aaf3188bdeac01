/** The setup steps of `ara serve` on Ollama, with a fault or an interrupt possible in every call. */
module ServeSetup {
  import opened Wrappers
  import opened Evidence
  import opened Characterization
  import opened Events
  import opened Daemon
  import opened ServeLifecycle
  import WatchedProbe

  ghost predicate Tracks(w: World<ServeMonitor>, job: ServeJob)
    reads w
  {
    && w.Valid() && w.state.Serving?
    && (forall m, e {:trigger Take(w.step, m, e)} :: Take(w.step, m, e) == ServeStep(job, m, e))
  }

  /** The local variables that the cleanup handlers look at. */
  class Progress {
    var servedId: Option<ArtifactId>
    var createConfirmed: bool
    var recorded: bool

    constructor (owned: Option<ArtifactId>)
      ensures servedId == owned && !createConfirmed && !recorded
    {
      servedId, createConfirmed, recorded := owned, false, false;
    }
  }

  /** The variables never claim more than the trace shows. */
  ghost predicate Accounted(p: Progress, job: ServeJob, phase: ServePhase)
    reads p
  {
    && (p.recorded <==> phase.Recorded?)
    && (job.owned.Some? ==> job.owned.value.OllamaManifest?)
    && match phase
       case Start => !p.createConfirmed && p.servedId == job.owned
       case Made(id) => p.createConfirmed && job.owned.None? && (p.servedId.Some? ==> p.servedId == id && p.servedId.value.OllamaManifest?)
       case Recorded => true
  }

  datatype ServeEnd = Refused | Served(artifact: ArtifactId)

  // ---------- what each stage saw ----------

  predicate Clear(job: ServeJob, processes: Option<seq<Process>>) {
    ResidencyRefusal(processes, TargetsOf(job, job.owned), Some(job.context), false).None?
  }

  predicate SoleServed(job: ServeJob, id: ArtifactId, processes: Option<seq<Process>>) {
    ResidencyRefusal(processes, TargetsOf(job, Some(id)), Some(job.context), true).None?
  }

  /** The model is made, or was owned before: nothing else resident, the name free, created, identified, the base unchanged. */
  predicate Creates(t: seq<Event>, job: ServeJob, id: ArtifactId) {
    && t != [] && t[0].SawProcesses? && Clear(job, t[0].processes)
    && if job.owned.Some? then |t| == 1 && job.owned == Some(id)
       else
         && |t| == 5 && t[1].SawInventory? && t[1].models.Some? && FindModel(t[1].models.value, job.served).None?
         && t[2] == Event.Create(job.served, job.model, job.context, true)
         && t[3].SawInventory? && InventoryId(t[3].models, job.served) == Some(id)
         && t[4].SawInventory? && InventoryId(t[4].models, job.model) == Some(job.baseArtifact)
  }

  predicate CreateStops(t: seq<Event>, job: ServeJob) {
    || (|t| == 1 && t[0].SawProcesses? && !Clear(job, t[0].processes))
    || (|t| == 2 && t[1].SawInventory? && (t[1].models.None? || FindModel(t[1].models.value, job.served).Some?))
    || (|t| == 3 && t[2] == Event.Create(job.served, job.model, job.context, false))
    || (|t| == 4 && t[3].SawInventory? && InventoryId(t[3].models, job.served).None?)
    || (|t| >= 5 && t[4].SawInventory? && InventoryId(t[4].models, job.model) != Some(job.baseArtifact))
  }

  /** The load is asked straight after the identity was seen, and leaves exactly the served model resident. */
  predicate Loads(t: seq<Event>, job: ServeJob, id: ArtifactId) {
    && |t| == 3 && t[0].SawInventory? && InventoryId(t[0].models, job.served) == Some(id)
    && t[1] == Event.Load(job.served, false, true) && t[2].SawProcesses? && SoleServed(job, id, t[2].processes)
  }

  predicate LoadStops(t: seq<Event>, job: ServeJob, id: ArtifactId) {
    || (|t| == 1 && t[0].SawInventory? && InventoryId(t[0].models, job.served) != Some(id))
    || (|t| >= 2 && t[1] == Event.Load(job.served, false, false))
    || (|t| >= 3 && t[1] == Event.Load(job.served, false, true) && t[2].SawProcesses? && !SoleServed(job, id, t[2].processes))
  }

  predicate Attests(t: seq<Event>, job: ServeJob, id: ArtifactId) {
    && |t| == 5 && t[0] == CompletionProbe(job.served, true) && t[1] == SawAuthority(job.authority)
    && t[2].SawInventory? && InventoryId(t[2].models, job.model) == Some(job.baseArtifact)
    && t[3].SawInventory? && InventoryId(t[3].models, job.served) == Some(id)
    && t[4].SawProcesses? && SoleServed(job, id, t[4].processes)
  }

  predicate AttestStops(t: seq<Event>, job: ServeJob, id: ArtifactId) {
    || (|t| >= 1 && t[0] == CompletionProbe(job.served, false))
    || (|t| >= 2 && t[1].SawAuthority? && t[1].authority != job.authority)
    || (|t| >= 3 && t[2].SawInventory? && InventoryId(t[2].models, job.model) != Some(job.baseArtifact))
    || (|t| == 4 && t[3].SawInventory? && InventoryId(t[3].models, job.served) != Some(id))
    || (|t| >= 5 && t[4].SawProcesses? && !SoleServed(job, id, t[4].processes))
  }

  /** How many events the first stage takes when it goes through. */
  function Making(job: ServeJob): nat {
    if job.owned.Some? then 1 else 5
  }

  /** Some stage was reached in order and stopped by what was seen last before its cleanup. */
  ghost predicate Stops(t: seq<Event>, job: ServeJob) {
    || CreateStops(t, job)
    || (Making(job) <= |t| && exists id ::
          && Creates(t[..Making(job)], job, id)
          && (|| LoadStops(t[Making(job)..], job, id)
              || (Making(job) + 3 <= |t| && Loads(t[Making(job)..Making(job) + 3], job, id) && AttestStops(t[Making(job) + 3..], job, id))))
  }

  /** All stages in order, and then the record. */
  predicate GoesThrough(t: seq<Event>, job: ServeJob, id: ArtifactId) {
    && |t| == Making(job) + 9 && Creates(t[..Making(job)], job, id)
    && Loads(t[Making(job)..Making(job) + 3], job, id) && Attests(t[Making(job) + 3..Making(job) + 8], job, id)
    && t[Making(job) + 8] == RecordServing(ClaimFor(job, id), true)
  }

  // ---------- the stages ----------

  /** `setup_err`: an owned model is left alone; a model of this run is deleted only while its identity still stands. */
  method SetupError(w: World<ServeMonitor>, p: Progress, job: ServeJob) returns (r: Outcome<ServeEnd>, ghost steps: seq<Event>)
    requires Tracks(w, job) && Accounted(p, job, w.state.phase) && !p.recorded
    modifies w`trace, w`state, w`faults
    ensures Tracks(w, job) && w.state.phase == old(w.state.phase)
    ensures r.Ok? ==> r.value.Refused?
    ensures w.trace == old(w.trace) + steps && w.Counted(old(w.faults), r.Raised?)
    ensures if job.owned.Some? || p.servedId.None? then steps == [] && r.Ok? else LooksAndDeletes(steps, job)
  {
    steps := [];
    if job.owned.Some? || p.servedId.None? { return Ok(Refused), steps; }
    r, steps := DeleteIfUnchanged(w, p, job);
  }

  method DeleteIfUnchanged(w: World<ServeMonitor>, p: Progress, job: ServeJob) returns (r: Outcome<ServeEnd>, ghost steps: seq<Event>)
    requires Tracks(w, job) && w.state.phase == Made(p.servedId) && p.servedId.Some?
    modifies w`trace, w`state, w`faults
    ensures Tracks(w, job) && w.state.phase == old(w.state.phase)
    ensures r.Ok? ==> r.value.Refused?
    ensures w.trace == old(w.trace) + steps && LooksAndDeletes(steps, job) && w.Counted(old(w.faults), r.Raised?)
    ensures r.Ok? ==> steps != [] && (|steps| == 1 ==> InventoryId(steps[0].models, job.served) != p.servedId)
  {
    hide Fold, ServeStep, InventoryId, LooksAndDeletes;
    steps := [];
    ghost var made := w.state;
    var id;
    ghost var models, more;
    id, models := w.ArtifactIdOf(job.served);
    LookShapes(job, models, models, false);
    if id.Raised? { return Raised(id.error), steps; }
    InventoryOfMade(job, made, models);
    steps := [SawInventory(models)];
    if id.value != p.servedId { return Ok(Refused), steps; }
    r, more := DeleteMade(w, p, job, models);
    steps := steps + more;
  }

  /** Look once more, and delete straight after that. */
  method DeleteMade(w: World<ServeMonitor>, p: Progress, job: ServeJob, ghost models: Option<seq<Model>>)
    returns (r: Outcome<ServeEnd>, ghost more: seq<Event>)
    requires Tracks(w, job) && w.state.phase == Made(p.servedId) && p.servedId.Some?
    modifies w`trace, w`state, w`faults
    ensures Tracks(w, job) && w.state.phase == old(w.state.phase)
    ensures r.Ok? ==> r.value.Refused? && more != []
    ensures w.trace == old(w.trace) + more && w.Counted(old(w.faults), r.Raised?)
    ensures LooksAndDeletes([SawInventory(models)] + more, job)
  {
    hide Fold, ServeStep, InventoryId, LooksAndDeletes;
    ghost var made := w.state;
    var deleted;
    ghost var n, seen, confirmed;
    deleted, n, seen, confirmed := w.DeleteExact(job.served, p.servedId.value);
    InventoryOfMade(job, made, seen);
    LookShapes(job, models, seen, confirmed);
    if n == 2 { DeleteOfMade(job, ServeStep(job, made, SawInventory(seen)), confirmed); }
    more := if n == 0 then [] else if n == 1 then [SawInventory(seen)] else [SawInventory(seen)] + [Delete(job.served, confirmed)];
    r := if deleted.Raised? then Raised(deleted.error) else Ok(Refused);
  }

  lemma LookShapes(job: ServeJob, models: Option<seq<Model>>, seen: Option<seq<Model>>, confirmed: bool)
    ensures LooksAndDeletes([], job) && LooksAndDeletes([SawInventory(models)], job)
    ensures LooksAndDeletes([SawInventory(models)] + [], job)
    ensures LooksAndDeletes([SawInventory(models)] + [SawInventory(seen)], job)
    ensures LooksAndDeletes([SawInventory(models)] + ([SawInventory(seen)] + [Delete(job.served, confirmed)]), job)
  {
  }

  lemma InventoryOfMade(job: ServeJob, m: ServeMonitor, models: Option<seq<Model>>)
    requires m.Serving? && m.phase.Made? && m.phase.id.Some?
    ensures var n := ServeStep(job, m, SawInventory(models)); n.Serving? && n.phase == m.phase && n.seen == InventoryId(models, job.served)
  {
  }

  lemma DeleteOfMade(job: ServeJob, m: ServeMonitor, confirmed: bool)
    requires m.Serving? && m.phase.Made? && m.phase.id.Some? && m.seen == m.phase.id
    ensures var n := ServeStep(job, m, Delete(job.served, confirmed)); n.Serving? && n.phase == m.phase
  {
  }

  /** At most an inventory, and straight after a second one the delete of the served model. */
  predicate LooksAndDeletes(steps: seq<Event>, job: ServeJob) {
    && |steps| <= 3 && forall i :: 0 <= i < |steps| ==> if i < 2 then steps[i].SawInventory? else steps[i].Delete? && steps[i].name == job.served
  }

  /** Admit residency, recheck the name, create, and identify what was created. */
  method Create(w: World<ServeMonitor>, p: Progress, job: ServeJob) returns (r: Outcome<bool>, ghost steps: seq<Event>)
    requires Tracks(w, job) && w.state.phase.Start? && Accounted(p, job, Start)
    modifies w`trace, w`state, w`faults, p
    ensures Tracks(w, job) && Accounted(p, job, w.state.phase) && !p.recorded
    ensures r == Ok(true) ==> p.servedId.Some? && ServedId(job, w.state.phase) == p.servedId && w.state.clear
    ensures w.trace == old(w.trace) + steps && w.Counted(old(w.faults), r.Raised?)
    ensures r == Ok(true) ==> Creates(steps, job, p.servedId.value)
    ensures r == Ok(false) ==> CreateStops(steps, job)
  {
    hide Fold, FindModel, ResidencyRefusal, InventoryId;
    steps := [];
    var processes := w.Processes();
    if processes.Raised? { return Raised(processes.error), steps; }
    steps := [SawProcesses(processes.value)];
    var targets := TargetsOf(job, job.owned);
    if ResidencyRefusal(processes.value, targets, Some(job.context), false).Some? { return Ok(false), steps; }
    if job.owned.Some? { return Ok(true), steps; }
    ghost var more;
    r, more := CreateNew(w, p, job, processes.value);
    steps := steps + more;
  }

  method CreateNew(w: World<ServeMonitor>, p: Progress, job: ServeJob, ghost processes: Option<seq<Process>>)
    returns (r: Outcome<bool>, ghost steps: seq<Event>)
    requires Tracks(w, job) && w.state.phase.Start? && Accounted(p, job, Start) && job.owned.None? && w.state.clear
    modifies w`trace, w`state, w`faults, p
    ensures Tracks(w, job) && Accounted(p, job, w.state.phase) && !p.recorded
    ensures r == Ok(true) ==> p.servedId.Some? && ServedId(job, w.state.phase) == p.servedId && w.state.clear
    ensures w.trace == old(w.trace) + steps && w.Counted(old(w.faults), r.Raised?)
    ensures r == Ok(true) && Clear(job, processes) ==> Creates([SawProcesses(processes)] + steps, job, p.servedId.value)
    ensures r == Ok(false) ==> CreateStops([SawProcesses(processes)] + steps, job)
  {
    hide Fold, FindModel, ServedId, TargetsOf, ServeStep, InventoryId, Creates, CreateStops, Clear;
    steps := [];
    ghost var m := w.state;
    var latest := w.Inventory();
    if latest.Raised? { return Raised(latest.error), steps; }
    StartInventory(job, m, latest.value);
    m := w.state;
    steps := [SawInventory(latest.value)];
    CreateStopsEarly(job, processes, latest.value);
    if latest.value.None? || FindModel(latest.value.value, job.served).Some? { return Ok(false), steps; }
    var created := w.CreateModel(job.served, job.model, job.context);
    StartCreate(job, m, created == Ok(true));
    steps := [SawInventory(latest.value), Event.Create(job.served, job.model, job.context, created == Ok(true))];
    if created.Raised? { return Raised(created.error), steps; }
    assert [SawProcesses(processes)] + steps
           == [SawProcesses(processes), SawInventory(latest.value), Event.Create(job.served, job.model, job.context, created == Ok(true))];
    if !created.value { return Ok(false), steps; }
    p.createConfirmed := true;
    ghost var more;
    r, more := Identify(w, p, job);
    steps := steps + more;
    if r.Ok? { CreateEnds(job, processes, latest.value, more, p.servedId, r.value); }
    assert [SawProcesses(processes)] + steps
           == [SawProcesses(processes), SawInventory(latest.value), Event.Create(job.served, job.model, job.context, true)] + more;
  }

  lemma StartInventory(job: ServeJob, m: ServeMonitor, models: Option<seq<Model>>)
    requires m.Serving? && m.phase.Start?
    ensures var n := ServeStep(job, m, SawInventory(models)); n.Serving? && n.phase.Start? && n.clear == m.clear
  {
  }

  lemma StartCreate(job: ServeJob, m: ServeMonitor, confirmed: bool)
    requires m.Serving? && m.phase.Start? && m.clear && job.owned.None?
    ensures var n := ServeStep(job, m, Event.Create(job.served, job.model, job.context, confirmed));
            n.Serving? && n.clear && n.phase == if confirmed then Made(None) else Start
  {
  }

  lemma CreateStopsEarly(job: ServeJob, processes: Option<seq<Process>>, models: Option<seq<Model>>)
    ensures models.None? || FindModel(models.value, job.served).Some? ==> CreateStops([SawProcesses(processes)] + [SawInventory(models)], job)
    ensures CreateStops([SawProcesses(processes), SawInventory(models), Event.Create(job.served, job.model, job.context, false)], job)
  {
    hide FindModel, InventoryId, Clear;
  }

  /** What identifying and checking the base decide. */
  lemma CreateEnds(job: ServeJob, processes: Option<seq<Process>>, latest: Option<seq<Model>>, more: seq<Event>, id: Option<ArtifactId>, good: bool)
    requires job.owned.None? && latest.Some? && FindModel(latest.value, job.served).None? && more != [] && more[0].SawInventory?
    requires good ==> id.Some? && |more| == 2 && InventoryId(more[0].models, job.served) == id && more[1].SawInventory?
                      && InventoryId(more[1].models, job.model) == Some(job.baseArtifact)
    requires !good ==> || (|more| == 1 && InventoryId(more[0].models, job.served).None?)
                       || (|more| >= 2 && more[1].SawInventory? && InventoryId(more[1].models, job.model) != Some(job.baseArtifact))
    ensures var t := [SawProcesses(processes), SawInventory(latest), Event.Create(job.served, job.model, job.context, true)] + more;
            if good then Clear(job, processes) ==> Creates(t, job, id.value) else CreateStops(t, job)
  {
    hide FindModel, InventoryId, Clear;
    var t := [SawProcesses(processes), SawInventory(latest), Event.Create(job.served, job.model, job.context, true)] + more;
    assert t[3] == more[0] && (|more| >= 2 ==> t[4] == more[1]);
  }

  lemma FirstInventoryIdentifies(job: ServeJob, m: ServeMonitor, models: Option<seq<Model>>)
    requires m.Serving? && m.phase == Made(None)
    ensures var n := ServeStep(job, m, SawInventory(models));
            n.Serving? && n.phase == Made(InventoryId(models, job.served)) && n.clear == m.clear
  {
  }

  /** The identity of the created model, and the base manifest once more. */
  method Identify(w: World<ServeMonitor>, p: Progress, job: ServeJob) returns (r: Outcome<bool>, ghost steps: seq<Event>)
    requires Tracks(w, job) && w.state.phase == Made(None) && w.state.clear && Accounted(p, job, Made(None)) && p.servedId.None?
    modifies w`trace, w`state, w`faults, p`servedId
    ensures Tracks(w, job) && Accounted(p, job, w.state.phase) && !p.recorded
    ensures r == Ok(true) ==> p.servedId.Some? && ServedId(job, w.state.phase) == p.servedId && w.state.clear
    ensures w.trace == old(w.trace) + steps && w.Counted(old(w.faults), r.Raised?)
    ensures r.Ok? ==> steps != [] && steps[0].SawInventory?
    ensures r == Ok(true) ==>
              && |steps| == 2 && InventoryId(steps[0].models, job.served) == p.servedId
              && steps[1].SawInventory? && InventoryId(steps[1].models, job.model) == Some(job.baseArtifact)
    ensures r == Ok(false) ==>
              || (|steps| == 1 && InventoryId(steps[0].models, job.served).None?)
              || (|steps| >= 2 && steps[1].SawInventory? && InventoryId(steps[1].models, job.model) != Some(job.baseArtifact))
  {
    hide InventoryId, ServeStep;
    steps := [];
    ghost var made := w.state;
    var id;
    ghost var models;
    id, models := w.ArtifactIdOf(job.served);
    if id.Raised? { return Raised(id.error), steps; }
    FirstInventoryIdentifies(job, made, models);
    steps := [SawInventory(models)];
    if id.value.None? { return Ok(false), steps; }
    WatchedProbe.InventoryIdIsManifest(models, job.served);
    p.servedId := id.value;
    ghost var more;
    r, more := CheckBase(w, p, job);
    steps := steps + more;
  }

  method CheckBase(w: World<ServeMonitor>, p: Progress, job: ServeJob) returns (r: Outcome<bool>, ghost steps: seq<Event>)
    requires Tracks(w, job) && Accounted(p, job, w.state.phase) && !p.recorded && w.state.clear
    requires p.servedId.Some? && ServedId(job, w.state.phase) == p.servedId
    modifies w`trace, w`state, w`faults
    ensures Tracks(w, job) && w.state.phase == old(w.state.phase)
    ensures r == Ok(true) ==> w.state.clear
    ensures w.trace == old(w.trace) + steps && w.Counted(old(w.faults), r.Raised?)
    ensures r.Ok? ==> steps != [] && steps[0].SawInventory?
    ensures r == Ok(true) ==> |steps| == 1 && InventoryId(steps[0].models, job.model) == Some(job.baseArtifact)
    ensures r == Ok(false) ==> InventoryId(steps[0].models, job.model) != Some(job.baseArtifact)
  {
    hide Fold, FindModel, ResidencyRefusal;
    steps := [];
    var base;
    ghost var models;
    base, models := w.ArtifactIdOf(job.model);
    if base.Raised? { return Raised(base.error), steps; }
    steps := [SawInventory(models)];
    if base.value != Some(job.baseArtifact) {
      ghost var more;
      r, more := Stop(w, p, job);
      steps := steps + more;
      return;
    }
    r := Ok(true);
  }

  /** Load under the daemon's own policy, only straight after the identity was seen again. */
  method Load(w: World<ServeMonitor>, p: Progress, job: ServeJob) returns (r: Outcome<bool>, ghost steps: seq<Event>)
    requires Tracks(w, job) && Accounted(p, job, w.state.phase) && !p.recorded
    requires p.servedId.Some? && ServedId(job, w.state.phase) == p.servedId && w.state.clear
    modifies w`trace, w`state, w`faults
    ensures Tracks(w, job) && w.state.phase == old(w.state.phase)
    ensures w.trace == old(w.trace) + steps && w.Counted(old(w.faults), r.Raised?)
    ensures r == Ok(true) ==> Loads(steps, job, p.servedId.value)
    ensures r == Ok(false) ==> LoadStops(steps, job, p.servedId.value)
  {
    hide InventoryId, ServeStep, ServedId, SoleServed, Loads, LoadStops;
    steps := [];
    ghost var m := w.state;
    var id;
    ghost var models;
    id, models := w.ArtifactIdOf(job.served);
    if id.Raised? { return Raised(id.error), steps; }
    OwnedInventory(job, m, models);
    m := w.state;
    steps := [SawInventory(models)];
    LoadEnds(job, p.servedId.value, models, None, []);
    if id.value != p.servedId { return Ok(false), steps; }
    var loaded := w.LoadModel(job.served, false);
    SeenLoad(job, m, loaded == Ok(true));
    m := w.state;
    steps := [SawInventory(models), Event.Load(job.served, false, loaded == Ok(true))];
    if loaded.Raised? { return Raised(loaded.error), steps; }
    if !loaded.value {
      ghost var more;
      r, more := Stop(w, p, job);
      steps := steps + more;
      LoadEnds(job, p.servedId.value, models, None, more);
      return;
    }
    var processes := w.Processes();
    if processes.Raised? { return Raised(processes.error), steps; }
    AnyProcesses(job, m, processes.value);
    steps := [SawInventory(models), Event.Load(job.served, false, true), SawProcesses(processes.value)];
    if !SoleServed(job, p.servedId.value, processes.value) {
      ghost var more;
      r, more := Stop(w, p, job);
      steps := steps + more;
      LoadEnds(job, p.servedId.value, models, processes.value, more);
      return;
    }
    LoadEnds(job, p.servedId.value, models, processes.value, []);
    r := Ok(true);
  }

  /** What the three events of a load decide. */
  lemma LoadEnds(job: ServeJob, id: ArtifactId, models: Option<seq<Model>>, processes: Option<seq<Process>>, more: seq<Event>)
    ensures InventoryId(models, job.served) != Some(id) ==> LoadStops([SawInventory(models)], job, id)
    ensures LoadStops([SawInventory(models), Event.Load(job.served, false, false)] + more, job, id)
    ensures var t := [SawInventory(models), Event.Load(job.served, false, true), SawProcesses(processes)];
            if SoleServed(job, id, processes) then InventoryId(models, job.served) == Some(id) ==> Loads(t, job, id)
            else LoadStops(t + more, job, id)
  {
    hide InventoryId, SoleServed;
  }

  lemma OwnedInventory(job: ServeJob, m: ServeMonitor, models: Option<seq<Model>>)
    requires m.Serving? && ServedId(job, m.phase).Some?
    ensures var n := ServeStep(job, m, SawInventory(models));
            n.Serving? && n.phase == m.phase && n.clear == m.clear && n.seen == InventoryId(models, job.served)
  {
  }

  lemma SeenLoad(job: ServeJob, m: ServeMonitor, confirmed: bool)
    requires m.Serving? && m.clear && ServedId(job, m.phase).Some? && m.seen == ServedId(job, m.phase)
    ensures var n := ServeStep(job, m, Event.Load(job.served, false, confirmed)); n.Serving? && n.phase == m.phase
  {
  }

  lemma AnyProcesses(job: ServeJob, m: ServeMonitor, processes: Option<seq<Process>>)
    requires m.Serving?
    ensures var n := ServeStep(job, m, SawProcesses(processes)); n.Serving? && n.phase == m.phase
  {
  }

  /** A stage that stopped: what the error path sees and asks. */
  method Stop(w: World<ServeMonitor>, p: Progress, job: ServeJob) returns (r: Outcome<bool>, ghost steps: seq<Event>)
    requires Tracks(w, job) && Accounted(p, job, w.state.phase) && !p.recorded
    modifies w`trace, w`state, w`faults
    ensures Tracks(w, job) && w.state.phase == old(w.state.phase) && w.Counted(old(w.faults), r.Raised?)
    ensures w.trace == old(w.trace) + steps && (r.Ok? ==> !r.value)
  {
    hide Fold, ServeStep;
    var stopped;
    stopped, steps := SetupError(w, p, job);
    r := if stopped.Raised? then Raised(stopped.error) else Ok(false);
  }

  /** The public protocol, and then every authority once more. */
  method Attest(w: World<ServeMonitor>, p: Progress, job: ServeJob) returns (r: Outcome<bool>, ghost steps: seq<Event>)
    requires Tracks(w, job) && Accounted(p, job, w.state.phase) && !p.recorded
    requires p.servedId.Some? && ServedId(job, w.state.phase) == p.servedId
    modifies w`trace, w`state, w`faults
    ensures Tracks(w, job) && w.state.phase == old(w.state.phase)
    ensures r == Ok(true) ==> w.state.attested == ResidentAgain
    ensures w.trace == old(w.trace) + steps && w.Counted(old(w.faults), r.Raised?)
    ensures r == Ok(true) ==> Attests(steps, job, p.servedId.value)
    ensures r == Ok(false) ==> AttestStops(steps, job, p.servedId.value)
  {
    hide Fold, ServeStep, ServedId, InventoryId, Attests, AttestStops, ModelsAttest, ModelsStop;
    ghost var m := w.state;
    ghost var more;
    var answered := w.OpenAiProbe(job.served);
    OwnedProbe(job, m, answered == Ok(true));
    m := w.state;
    steps := [CompletionProbe(job.served, answered == Ok(true))];
    if answered.Raised? { return Raised(answered.error), steps; }
    if !answered.value {
      r, more := Stop(w, p, job);
      steps := steps + more;
      AttestEnds(job, p.servedId.value, job.authority, more);
      return;
    }
    var authority := w.RuntimeAuthority();
    if authority.Raised? { return Raised(authority.error), steps; }
    AnyAuthority(job, m, authority.value);
    steps := [CompletionProbe(job.served, true), SawAuthority(authority.value)];
    if authority.value != job.authority {
      r, more := Stop(w, p, job);
      steps := steps + more;
      AttestEnds(job, p.servedId.value, authority.value, more);
      return;
    }
    r, more := AttestModels(w, p, job);
    steps := steps + more;
    AttestEnds(job, p.servedId.value, authority.value, more);
  }

  lemma OwnedProbe(job: ServeJob, m: ServeMonitor, confirmed: bool)
    requires m.Serving? && ServedId(job, m.phase).Some?
    ensures var n := ServeStep(job, m, CompletionProbe(job.served, confirmed));
            n.Serving? && n.phase == m.phase && n.attested == if confirmed then Probed else NotYet
  {
  }

  lemma AnyAuthority(job: ServeJob, m: ServeMonitor, a: Authority)
    requires m.Serving?
    ensures var n := ServeStep(job, m, SawAuthority(a));
            n.Serving? && n.phase == m.phase && (m.attested == Probed && a == job.authority ==> n.attested == AuthorityAgain)
  {
  }

  /** What the events of the second attestation decide. */
  lemma AttestEnds(job: ServeJob, id: ArtifactId, a: Authority, more: seq<Event>)
    ensures AttestStops([CompletionProbe(job.served, false)] + more, job, id)
    ensures var t := [CompletionProbe(job.served, true), SawAuthority(a)] + more;
            if a != job.authority then AttestStops(t, job, id)
            else (ModelsAttest(more, job, id) ==> Attests(t, job, id)) && (ModelsStop(more, job, id) ==> AttestStops(t, job, id))
  {
    hide InventoryId, SoleServed;
    var t := [CompletionProbe(job.served, true), SawAuthority(a)] + more;
    assert forall i :: 0 <= i < |more| ==> t[i + 2] == more[i];
    assert |more| >= 1 ==> t[2] == more[0];
    assert |more| >= 2 ==> t[3] == more[1];
    assert |more| >= 3 ==> t[4] == more[2];
  }

  /** The last three readings of the second attestation. */
  predicate ModelsAttest(u: seq<Event>, job: ServeJob, id: ArtifactId) {
    && |u| == 3 && u[0].SawInventory? && InventoryId(u[0].models, job.model) == Some(job.baseArtifact)
    && u[1].SawInventory? && InventoryId(u[1].models, job.served) == Some(id)
    && u[2].SawProcesses? && SoleServed(job, id, u[2].processes)
  }

  predicate ModelsStop(u: seq<Event>, job: ServeJob, id: ArtifactId) {
    || (|u| >= 1 && u[0].SawInventory? && InventoryId(u[0].models, job.model) != Some(job.baseArtifact))
    || (|u| == 2 && u[1].SawInventory? && InventoryId(u[1].models, job.served) != Some(id))
    || (|u| >= 3 && u[2].SawProcesses? && !SoleServed(job, id, u[2].processes))
  }

  method AttestModels(w: World<ServeMonitor>, p: Progress, job: ServeJob) returns (r: Outcome<bool>, ghost steps: seq<Event>)
    requires Tracks(w, job) && Accounted(p, job, w.state.phase) && !p.recorded && w.state.attested == AuthorityAgain
    requires p.servedId.Some? && ServedId(job, w.state.phase) == p.servedId
    modifies w`trace, w`state, w`faults
    ensures Tracks(w, job) && w.state.phase == old(w.state.phase)
    ensures r == Ok(true) ==> w.state.attested == ResidentAgain
    ensures w.trace == old(w.trace) + steps && w.Counted(old(w.faults), r.Raised?)
    ensures r == Ok(true) ==> ModelsAttest(steps, job, p.servedId.value)
    ensures r == Ok(false) ==> ModelsStop(steps, job, p.servedId.value)
  {
    hide Fold, ServeStep, ServedId, InventoryId, SoleServed;
    steps := [];
    ghost var m := w.state;
    ghost var more;
    var base, id;
    ghost var models, again;
    base, models := w.ArtifactIdOf(job.model);
    if base.Raised? { return Raised(base.error), steps; }
    AttestingInventory(job, m, models);
    m := w.state;
    steps := [SawInventory(models)];
    if base.value != Some(job.baseArtifact) {
      r, more := Stop(w, p, job);
      steps := steps + more;
      return;
    }
    id, again := w.ArtifactIdOf(job.served);
    if id.Raised? { return Raised(id.error), steps; }
    AttestingInventory(job, m, again);
    m := w.state;
    steps := [SawInventory(models), SawInventory(again)];
    if id.value != p.servedId { return Ok(false), steps; }
    var processes := w.Processes();
    if processes.Raised? { return Raised(processes.error), steps; }
    AttestingProcesses(job, m, processes.value, p.servedId.value);
    steps := [SawInventory(models), SawInventory(again), SawProcesses(processes.value)];
    if !SoleServed(job, p.servedId.value, processes.value) {
      r, more := Stop(w, p, job);
      steps := steps + more;
      return;
    }
    r := Ok(true);
  }

  lemma AttestingInventory(job: ServeJob, m: ServeMonitor, models: Option<seq<Model>>)
    requires m.Serving? && ServedId(job, m.phase).Some?
    ensures var n := ServeStep(job, m, SawInventory(models));
            && n.Serving? && n.phase == m.phase
            && (m.attested == AuthorityAgain && InventoryId(models, job.model) == Some(job.baseArtifact) ==> n.attested == BaseAgain)
            && (m.attested == BaseAgain && InventoryId(models, job.served) == ServedId(job, m.phase) ==> n.attested == ServedAgain)
  {
  }

  lemma AttestingProcesses(job: ServeJob, m: ServeMonitor, processes: Option<seq<Process>>, id: ArtifactId)
    requires m.Serving? && ServedId(job, m.phase) == Some(id)
    ensures var n := ServeStep(job, m, SawProcesses(processes));
            n.Serving? && n.phase == m.phase && (m.attested == ServedAgain && SoleServed(job, id, processes) ==> n.attested == ResidentAgain)
  {
  }

  /** A record that raised is a setup error; nothing else stops here. */
  method Record(w: World<ServeMonitor>, p: Progress, job: ServeJob) returns (r: Outcome<ServeEnd>)
    requires Tracks(w, job) && Accounted(p, job, w.state.phase) && !p.recorded && w.state.attested == ResidentAgain
    requires p.servedId.Some? && ServedId(job, w.state.phase) == p.servedId
    modifies w`trace, w`state, w`faults, p`recorded
    ensures Tracks(w, job) && Accounted(p, job, w.state.phase)
    ensures p.recorded <==> r.Ok? && r.value.Served?
    ensures if r.Ok? && r.value.Served?
            then && r.value.artifact == p.servedId.value && w.faults == old(w.faults)
                 && w.trace == old(w.trace) + [RecordServing(ClaimFor(job, p.servedId.value), true)]
            else w.faults > old(w.faults)
  {
    hide Fold, FindModel, ResidencyRefusal;
    var recorded := w.RecordServingClaim(ClaimFor(job, p.servedId.value));
    if recorded.Raised? {
      ghost var steps;
      r, steps := SetupError(w, p, job);
      return;
    }
    p.recorded := true;
    r := Ok(Served(p.servedId.value));
  }

  /** How the setup ended: with the record after all stages; refused, because a call raised or a stage stopped; or raised. */
  ghost predicate Explained(r: Outcome<ServeEnd>, t: seq<Event>, job: ServeJob, raised: bool) {
    if r.Raised? then raised
    else if r.value.Served? then GoesThrough(t, job, r.value.artifact)
    else raised || Stops(t, job)
  }

  /** The `try` block. An interrupt counts as a call that raised. */
  method SetUp(w: World<ServeMonitor>, p: Progress, job: ServeJob) returns (r: Outcome<ServeEnd>)
    requires Tracks(w, job) && w.state.phase.Start? && Accounted(p, job, Start) && w.trace == []
    modifies w`trace, w`state, w`faults, p
    ensures Tracks(w, job) && Accounted(p, job, w.state.phase)
    ensures r.Ok? && r.value.Served? ==> p.recorded && p.servedId == Some(r.value.artifact)
    ensures p.recorded ==> p.servedId.Some? && LastIsRecord(w.trace, job, p.servedId.value)
    ensures w.faults >= old(w.faults) && Explained(r, w.trace, job, w.faults > old(w.faults))
  {
    hide Fold, ServeStep, Creates, CreateStops, Loads, LoadStops, Attests, AttestStops;
    var created, loaded, attested;
    ghost var made, load, again;
    created, made := Create(w, p, job);
    if created.Raised? { return Raised(created.error); }
    assert w.trace == made;
    if !created.value {
      assert Stops(w.trace, job);
      return Ok(Refused);
    }
    MadeLength(made, job, p.servedId.value);
    loaded, load := Load(w, p, job);
    if loaded.Raised? { return Raised(loaded.error); }
    if !loaded.value {
      StoppedAtLoad(made, load, job, p.servedId.value);
      return Ok(Refused);
    }
    attested, again := Attest(w, p, job);
    if attested.Raised? { return Raised(attested.error); }
    if !attested.value {
      StoppedAtAttest(made, load, again, job, p.servedId.value);
      return Ok(Refused);
    }
    WentThrough(made, load, again, job, p.servedId.value);
    r := Record(w, p, job);
    var interrupted: bool := *;
    if interrupted {
      w.faults := w.faults + 1;
      return Raised(CallRaised);
    }
  }

  lemma MadeLength(made: seq<Event>, job: ServeJob, id: ArtifactId)
    requires Creates(made, job, id)
    ensures |made| == Making(job)
  {
  }

  lemma StoppedAtLoad(made: seq<Event>, load: seq<Event>, job: ServeJob, id: ArtifactId)
    requires Creates(made, job, id) && LoadStops(load, job, id)
    ensures Stops(made + load, job)
  {
    hide CreateStops, LoadStops;
    var t := made + load;
    assert t[..Making(job)] == made && t[Making(job)..] == load;
  }

  lemma StoppedAtAttest(made: seq<Event>, load: seq<Event>, again: seq<Event>, job: ServeJob, id: ArtifactId)
    requires Creates(made, job, id) && Loads(load, job, id) && AttestStops(again, job, id)
    ensures Stops(made + load + again, job)
  {
    hide CreateStops, AttestStops, LoadStops;
    var t := made + load + again;
    assert t[..Making(job)] == made && t[Making(job)..Making(job) + 3] == load && t[Making(job) + 3..] == again;
  }

  lemma WentThrough(made: seq<Event>, load: seq<Event>, again: seq<Event>, job: ServeJob, id: ArtifactId)
    requires Creates(made, job, id) && Loads(load, job, id) && Attests(again, job, id)
    ensures GoesThrough(made + load + again + [RecordServing(ClaimFor(job, id), true)], job, id)
  {
    var t := made + load + again + [RecordServing(ClaimFor(job, id), true)];
    assert t[..Making(job)] == made && t[Making(job)..Making(job) + 3] == load && t[Making(job) + 3..Making(job) + 8] == again;
  }

  predicate LastIsRecord(t: seq<Event>, job: ServeJob, artifact: ArtifactId) {
    t != [] && t[|t| - 1] == RecordServing(ClaimFor(job, artifact), true)
  }

  /** The locked setup and its `except BaseException`. Whatever happens, the monitor of the whole trace is never violated. */
  method Serve(w: World<ServeMonitor>, job: ServeJob) returns (r: Outcome<ServeEnd>)
    requires Tracks(w, job) && w.trace == [] && w.initial == Serving(Start, false, None, NotYet)
    requires job.owned.Some? ==> job.owned.value.OllamaManifest?
    modifies w`trace, w`state, w`faults
    ensures ServeRun(job, w.trace).Serving?
    ensures r.Ok? && r.value.Served? ==> ServeRun(job, w.trace).phase.Recorded? && LastIsRecord(w.trace, job, r.value.artifact)
    ensures ServeRun(job, w.trace).phase.Recorded? ==> exists artifact :: LastIsRecord(w.trace, job, artifact)
    ensures Explained(r, w.trace, job, w.faults > old(w.faults))
  {
    r := ServeWatched(w, job);
    FoldIsServeRun(w.step, job, w.trace);
  }

  method ServeWatched(w: World<ServeMonitor>, job: ServeJob) returns (r: Outcome<ServeEnd>)
    requires Tracks(w, job) && w.state == Serving(Start, false, None, NotYet) && w.trace == []
    requires job.owned.Some? ==> job.owned.value.OllamaManifest?
    modifies w`trace, w`state, w`faults
    ensures Tracks(w, job)
    ensures r.Ok? && r.value.Served? ==> w.state.phase.Recorded? && LastIsRecord(w.trace, job, r.value.artifact)
    ensures w.state.phase.Recorded? ==> exists artifact :: LastIsRecord(w.trace, job, artifact)
    ensures Explained(r, w.trace, job, w.faults > old(w.faults))
  {
    hide Fold, ServeStep, Stops, GoesThrough;
    var p := new Progress(job.owned);
    r := SetUp(w, p, job);
    ghost var steps;
    r, steps := AfterLock(w, p, job, r);
  }

  /** `except BaseException`, which runs when the lock is already released: an interrupt after the handoff preserves it; one
      before deletes at most the model that this run is confirmed to have created, while its identity still stands. */
  method AfterLock(w: World<ServeMonitor>, p: Progress, job: ServeJob, end: Outcome<ServeEnd>)
    returns (r: Outcome<ServeEnd>, ghost steps: seq<Event>)
    requires Tracks(w, job) && Accounted(p, job, w.state.phase)
    modifies w`trace, w`state, w`faults
    ensures Tracks(w, job) && w.state.phase == old(w.state.phase)
    ensures w.trace == old(w.trace) + steps && LooksAndDeletes(steps, job)
    ensures end.Ok? || p.recorded ==> r == end && steps == [] && w.trace == old(w.trace)
    ensures end.Raised? ==> r.Raised?
    ensures w.faults >= old(w.faults)
    ensures steps != [] ==> end.Raised? && w.state.phase.Made?
  {
    hide Fold, ServeStep;
    steps := [];
    if end.Raised? && !p.recorded && p.createConfirmed && p.servedId.Some? {
      var cleaned;
      cleaned, steps := DeleteIfUnchanged(w, p, job);
      if cleaned.Raised? { return cleaned, steps; }
    }
    r := end;
  }
}
