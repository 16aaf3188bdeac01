/** The calls of the daemon and the artifact table as the probe monitor sees them, one step each. */
module WatchedProbe {
  import opened Wrappers
  import opened Evidence
  import opened Characterization
  import opened Events
  import opened Daemon
  import opened ProbeLifecycle

  predicate Extends(earlier: seq<Event>, later: seq<Event>) {
    earlier <= later
  }

  /** The world is watched by the probe monitor of this job, which knows the artifact table. */
  ghost predicate Tracks(w: World<Monitor>, job: Job)
    reads w
  {
    && w.Valid()
    && (forall m, e {:trigger Take(w.step, m, e)} :: Take(w.step, m, e) == Step(job, m, e))
    && (w.state.Watching? ==> w.state.store == w.artifacts && !w.state.saved)
  }

  /** One more event; `m` is the state after it. */
  ghost predicate Now(w: World<Monitor>, t: seq<Event>, e: Event, m: Monitor)
    reads w
  {
    w.trace == t + [e] && w.state == m
  }

  ghost predicate Still(w: World<Monitor>, t: seq<Event>, m: Monitor)
    reads w
  {
    w.trace == t && w.state == m
  }

  function ListedAs(job: Job, m: Monitor, models: Option<seq<Model>>): Monitor
    requires m.Watching?
  {
    m.(seen := DigestIn(models, job.probe),
       phase := if Unidentified(m.phase) then Created(m.phase.context, DigestIn(models, job.probe)) else m.phase,
       last := if Unidentified(m.phase) then Some(Creation(m.phase.context, DigestIn(models, job.probe))) else m.last)
  }

  // ---------- observations ----------

  method SeeAuthority(w: World<Monitor>, job: Job) returns (r: Outcome<Authority>)
    requires Tracks(w, job) && w.state.Watching?
    modifies w`trace, w`state, w`faults
    ensures w.Counted(old(w.faults), r.Raised?)
    ensures Tracks(w, job)
    ensures if r.Ok? then Now(w, old(w.trace), SawAuthority(r.value), old(w.state).(seen := None)) else Still(w, old(w.trace), old(w.state))
  {
    hide Fold, Step;
    ghost var m := w.state;
    r := w.RuntimeAuthority();
    if r.Ok? { ReadingStep(job, m, w.trace[|w.trace| - 1]); }
  }

  method SeeSnapshot(w: World<Monitor>, job: Job) returns (r: Outcome<MemorySnapshot>)
    requires Tracks(w, job) && w.state.Watching?
    modifies w`trace, w`state, w`faults
    ensures w.Counted(old(w.faults), r.Raised?)
    ensures Tracks(w, job)
    ensures if r.Ok? then Now(w, old(w.trace), SawSnapshot(r.value), old(w.state).(seen := None)) else Still(w, old(w.trace), old(w.state))
  {
    hide Fold, Step;
    ghost var m := w.state;
    r := w.Snapshot();
    if r.Ok? { ReadingStep(job, m, w.trace[|w.trace| - 1]); }
  }

  lemma ReadingStep(job: Job, m: Monitor, e: Event)
    requires m.Watching? && !m.saved && (e.SawAuthority? || e.SawSnapshot?)
    ensures Step(job, m, e) == m.(seen := None)
  {
  }

  method SeeProcesses(w: World<Monitor>, job: Job) returns (r: Outcome<Option<seq<Process>>>)
    requires Tracks(w, job) && w.state.Watching?
    modifies w`trace, w`state, w`faults
    ensures w.Counted(old(w.faults), r.Raised?)
    ensures Tracks(w, job)
    ensures if r.Ok? then Now(w, old(w.trace), SawProcesses(r.value),
                              old(w.state).(seen := None, idle := old(w.state.idle) || r.value == Some([])))
            else Still(w, old(w.trace), old(w.state))
  {
    hide Fold, FindModel;
    r := w.Processes();
  }

  method SeeModels(w: World<Monitor>, job: Job) returns (r: Outcome<Option<seq<Model>>>)
    requires Tracks(w, job) && w.state.Watching?
    modifies w`trace, w`state, w`faults
    ensures w.Counted(old(w.faults), r.Raised?)
    ensures Tracks(w, job)
    ensures if r.Ok? then Now(w, old(w.trace), SawInventory(r.value), ListedAs(job, old(w.state), r.value))
            else Still(w, old(w.trace), old(w.state))
  {
    hide Fold, FindModel;
    r := w.Inventory();
  }

  method SeeId(w: World<Monitor>, job: Job, name: string) returns (r: Outcome<Option<ArtifactId>>, ghost models: Option<seq<Model>>)
    requires Tracks(w, job) && w.state.Watching?
    modifies w`trace, w`state, w`faults
    ensures w.Counted(old(w.faults), r.Raised?)
    ensures Tracks(w, job)
    ensures if r.Ok? then Now(w, old(w.trace), SawInventory(models), ListedAs(job, old(w.state), models))
            else Still(w, old(w.trace), old(w.state))
    ensures r.Ok? ==> r.value == InventoryId(models, name)
  {
    hide Fold, FindModel;
    r, models := w.ArtifactIdOf(name);
  }

  /** The identity and the digest of the probe in one inventory say the same. */
  lemma ListedDigest(job: Job, models: Option<seq<Model>>)
    ensures InventoryId(models, job.probe).None? <==> DigestIn(models, job.probe).None?
    ensures InventoryId(models, job.probe).Some? ==> InventoryId(models, job.probe) == Some(OllamaManifest(DigestIn(models, job.probe).value))
  {
  }

  lemma InventoryIdIsManifest(models: Option<seq<Model>>, name: string)
    ensures InventoryId(models, name).Some? ==> InventoryId(models, name).value.OllamaManifest?
  {
  }

  method ReadOwnership(w: World<Monitor>, job: Job, digest: string) returns (r: Outcome<Option<OwnershipRow>>)
    requires Tracks(w, job) && w.state.Watching? && w.state.phase.Absent?
    modifies w`trace, w`state, w`faults
    ensures w.Counted(old(w.faults), r.Raised?)
    ensures Tracks(w, job) && (r.Raised? ==> Still(w, old(w.trace), old(w.state)))
    ensures r.Ok? ==>
              && r.value == Stored(w.artifacts, OllamaManifest(digest))
              && Now(w, old(w.trace), SawOwnership(OllamaManifest(digest), r.value),
                     if r.value.Some? && Proves(job, r.value.value) then old(w.state).(seen := None, phase := Leftover(digest))
                     else old(w.state).(seen := None))
  {
    hide Fold, FindModel, Proves;
    r := w.ReadArtifact(OllamaManifest(digest));
  }

  // ---------- requests ----------

  method CreateProbe(w: World<Monitor>, job: Job, context: int) returns (r: Outcome<bool>)
    requires Tracks(w, job) && w.state.Watching? && w.state.idle && w.state.phase.Absent? && context in job.contexts
    modifies w`trace, w`state, w`faults
    ensures w.Counted(old(w.faults), r.Raised?)
    ensures Tracks(w, job)
    ensures Now(w, old(w.trace), Create(job.probe, job.baseModel, context, r == Ok(true)),
                old(w.state).(seen := None, phase := if r == Ok(true) then Created(context, None) else Absent,
                              last := if r == Ok(true) then Some(Creation(context, None)) else old(w.state).last))
  {
    hide Fold, FindModel;
    r := w.CreateModel(job.probe, job.baseModel, context);
  }

  method OwnProbe(w: World<Monitor>, job: Job, digest: string, context: int) returns (r: Outcome<bool>)
    requires Tracks(w, job) && w.state.Watching? && w.state.phase == Created(context, Some(digest))
    modifies w
    ensures w.Counted(old(w.faults), r.Raised?)
    ensures Tracks(w, job) && (r.Raised? ==> Still(w, old(w.trace), old(w.state)) && w.artifacts == old(w.artifacts))
    ensures r.Ok? ==> Now(w, old(w.trace), Own(OllamaManifest(digest), OwnershipFor(job, context)),
                          old(w.state).(seen := None, phase := Owned(digest, context), store := w.artifacts))
  {
    hide Fold, FindModel;
    r := w.UpsertArtifact(OllamaManifest(digest), OwnershipFor(job, context));
  }

  method GenerateProbe(w: World<Monitor>, job: Job, digest: string, context: int) returns (r: Outcome<bool>)
    requires Tracks(w, job) && w.state.Watching? && w.state.phase == Owned(digest, context)
    modifies w`trace, w`state, w`faults
    ensures w.Counted(old(w.faults), r.Raised?)
    ensures Tracks(w, job)
    ensures Now(w, old(w.trace), Generate(job.probe, context, r == Ok(true)), old(w.state).(seen := None, phase := Used(digest, context)))
  {
    hide Fold, FindModel;
    r := w.ProbeGenerate(job.probe, context);
  }

  method RequestExpiry(w: World<Monitor>, job: Job) returns (r: Outcome<bool>)
    requires Tracks(w, job) && w.state.Watching? && PhaseDigest(w.state.phase).Some?
    modifies w`trace, w`state, w`faults
    ensures w.Counted(old(w.faults), r.Raised?)
    ensures Tracks(w, job)
    ensures Now(w, old(w.trace), Load(job.probe, true, r == Ok(true)), old(w.state).(seen := None))
  {
    hide Fold, FindModel;
    r := w.LoadModel(job.probe, true);
  }

  /** The exact delete: refused after one inventory, or requested straight after the inventory that listed the probe. */
  method DeleteProbe(w: World<Monitor>, job: Job, expected: ArtifactId) returns (r: Outcome<Option<CleanupRefusal>>, ghost models: Option<seq<Model>>)
    requires Tracks(w, job) && w.state.Watching? && expected.OllamaManifest?
    requires PhaseDigest(w.state.phase) == Some(expected.digest)
    modifies w`trace, w`state, w`faults
    ensures w.Counted(old(w.faults), r.Raised?)
    ensures Tracks(w, job) && w.state.Watching? && w.state.store == old(w.state.store) && w.state.idle == old(w.state.idle) && w.state.last == old(w.state.last)
    ensures Extends(old(w.trace), w.trace)
    ensures r.Ok? && r.value.Some? ==> r.value.value == if |w.trace| == |old(w.trace)| + 1 then IdentityChanged else DeleteFailed
    ensures r == Ok(Some(IdentityChanged)) ==>
              w.trace == old(w.trace) + [SawInventory(models)] && DigestIn(models, job.probe) != Some(expected.digest)
    ensures r == Ok(Some(DeleteFailed)) ==> w.trace == old(w.trace) + [SawInventory(models)] + [Delete(job.probe, false)]
    ensures if r == Ok(None) then w.state.phase.Absent? && w.trace == old(w.trace) + [SawInventory(models)] + [Delete(job.probe, true)]
                                  && DigestIn(models, job.probe) == Some(expected.digest)
            else PhaseDigest(w.state.phase) == Some(expected.digest)
  {
    hide Fold, FindModel, Step, DigestIn, InventoryId;
    ghost var m := w.state;
    ghost var steps, confirmed;
    r, steps, models, confirmed := w.DeleteExact(job.probe, expected);
    InventoryStep(job, m, models);
    ListedDigest(job, models);
    if steps == 2 {
      DeleteStep(job, ListedAs(job, m, models), confirmed);
    }
  }

  lemma InventoryStep(job: Job, m: Monitor, models: Option<seq<Model>>)
    requires m.Watching? && !m.saved
    ensures Step(job, m, SawInventory(models)) == ListedAs(job, m, models)
  {
  }

  lemma DeleteStep(job: Job, m: Monitor, confirmed: bool)
    requires m.Watching? && !m.saved && m.seen.Some? && m.seen == PhaseDigest(m.phase)
    ensures var n := Step(job, m, Delete(job.probe, confirmed));
            && n == m.(seen := None, phase := n.phase)
            && (if confirmed then n.phase.Absent? else PhaseDigest(n.phase) == PhaseDigest(m.phase))
  {
  }

  method SaveRow(w: World<Monitor>, job: Job, row: Row) returns (r: Outcome<bool>)
    requires Tracks(w, job) && w.state.Watching? && w.state.phase.Absent?
    modifies w`trace, w`state, w`faults
    ensures w.Counted(old(w.faults), r.Raised?)
    ensures w.Valid()
    ensures if r.Ok? then Now(w, old(w.trace), Saved(row), old(w.state).(seen := None, saved := true))
            else Still(w, old(w.trace), old(w.state))
  {
    hide Fold, FindModel;
    r := w.SaveCharacterization(row);
  }
}
