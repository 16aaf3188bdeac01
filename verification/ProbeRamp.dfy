/** Cleaning up, recovering, and ramping the probe: `_cleanup_ollama_probe`, `_recover_ollama_probe`, and the managed
    form of `_ollama_measure_ceiling`. */
module ProbeRamp {
  import opened Wrappers
  import opened Evidence
  import opened Characterization
  import opened Events
  import opened Daemon
  import opened ProbeLifecycle
  import opened WatchedProbe
  import opened RampEvidence

  // ---------- cleanup ----------

  /** The confirmed delete came straight after the name was listed under this manifest, and that after nothing resident
      answered to the name. */
  predicate DeletedWhenGone(t: seq<Event>, probe: string, digest: string) {
    && |t| >= 3 && GoneAtEnd(t[..|t| - 2], probe)
    && t[|t| - 2].SawInventory? && DigestIn(t[|t| - 2].models, probe) == Some(digest)
    && t[|t| - 1] == Delete(probe, true)
  }

  /** What the cleanup saw last shows why it left the probe in place. */
  predicate Refuses(why: CleanupRefusal, t: seq<Event>, probe: string, digest: string) {
    t != [] &&
    var last := t[|t| - 1];
    var expired := |t| >= 2 && t[|t| - 2] == Load(probe, true, true);
    match why
    case IdentityChanged => last.SawInventory? && DigestIn(last.models, probe) != Some(digest)
    case ResidencyUnknown => last == SawProcesses(None)
    case ResidencyChanged => last.SawProcesses? && last.processes.Some? && !NoneAnswers(last.processes.value, probe)
                             && !SoleProbe(last.processes.value, probe, digest)
    case ExpiryFailed => last == Load(probe, true, false)
    case ExpiryUnknown => expired && last == SawProcesses(None)
    case StillResident => expired && last.SawProcesses? && last.processes.Some? && !NoneAnswers(last.processes.value, probe)
    case DeleteFailed => last == Delete(probe, false)
    case _ => false
  }

  predicate NoneAnswers(processes: seq<Process>, name: string) {
    forall p :: p in processes ==> !SameName(p.name, name)
  }

  /** The exact manifest is resident under the probe's name, alone. */
  predicate SoleProbe(processes: seq<Process>, probe: string, digest: string) {
    |processes| == 1 && SameName(processes[0].name, probe) && processes[0].digest == Some(digest)
  }

  lemma {:induction false} AnsweringMeans(processes: seq<Process>, name: string)
    ensures Answering(processes, name) == [] <==> NoneAnswers(processes, name)
    ensures Answering(processes, name) != [] ==> Answering(processes, name)[0] in processes && Answers(Answering(processes, name)[0], name)
  {
    if processes != [] {
      AnsweringMeans(processes[1..], name);
    }
  }

  /** Expire and delete exactly the probe manifest this job created; anything else is refused. */
  method CleanupProbe(w: World<Monitor>, job: Job, expected: ArtifactId) returns (r: Outcome<Option<CleanupRefusal>>)
    requires Tracks(w, job) && expected.OllamaManifest?
    requires w.state.Watching?
    requires Unidentified(w.state.phase) || PhaseDigest(w.state.phase) == Some(expected.digest)
    modifies w`trace, w`state, w`faults
    ensures Tracks(w, job) && w.state.Watching? && w.state.store == old(w.state.store)
    ensures old(w.state.idle) ==> w.state.idle
    ensures Extends(old(w.trace), w.trace) && (r.Ok? ==> |w.trace| > |old(w.trace)|)
    ensures if r == Ok(None)
            then w.state.phase.Absent? && DeletedWhenGone(w.trace, job.probe, expected.digest) && |w.trace| >= |old(w.trace)| + 3
            else !w.state.phase.Absent?
    ensures old(PhaseDigest(w.state.phase)).Some? ==> w.state.last == old(w.state.last)
    ensures old(PhaseDigest(w.state.phase)).Some? && r != Ok(None) ==> PhaseDigest(w.state.phase) == Some(expected.digest)
    ensures w.Counted(old(w.faults), r.Raised?)
    ensures r.Ok? && r.value.Some? ==> Refuses(r.value.value, w.trace, job.probe, expected.digest)
  {
    hide Tracks, DigestIn, InventoryId, GoneAtEnd, NoneAnswers, SoleProbe;
    var id;
    ghost var models;
    id, models := SeeId(w, job, job.probe);
    if id.Raised? { return Raised(id.error); }
    ListedDigest(job, models);
    if id.value != Some(expected) { return Ok(Some(IdentityChanged)); }
    var held :- ExpireProbe(w, job, expected);
    if held.Some? { return Ok(held); }
    ghost var gone := w.trace;
    r, models := DeleteProbe(w, job, expected);
    assert r == Ok(None) ==> w.trace[..|w.trace| - 2] == gone;
  }

  datatype Expiry = NothingThere | Refuse(why: CleanupRefusal) | Expire

  /** Only the exact probe, resident alone, may be expired. */
  function JudgeResidents(processes: Option<seq<Process>>, probe: string, digest: string): Expiry {
    if processes.None? then Refuse(ResidencyUnknown)
    else
      var residents := Answering(processes.value, probe);
      if residents == [] then NothingThere
      else if |processes.value| == 1 && residents[0].digest == Some(digest) then Expire
      else Refuse(ResidencyChanged)
  }

  /** The last thing seen is that no resident answers to the name. */
  predicate GoneAtEnd(t: seq<Event>, name: string) {
    t != [] && t[|t| - 1].SawProcesses? && t[|t| - 1].processes.Some? && NoneAnswers(t[|t| - 1].processes.value, name)
  }

  /** Two events: the exact probe was seen resident alone, and its expiry was requested. */
  predicate ExpiredAt(t: seq<Event>, i: nat, probe: string, digest: string) {
    i + 1 < |t| && t[i].SawProcesses? && t[i].processes.Some? && SoleProbe(t[i].processes.value, probe, digest) && t[i + 1].Load?
  }

  /** What the judgement means for the residents themselves. */
  lemma JudgedResidents(t: seq<Event>, processes: Option<seq<Process>>, probe: string, digest: string)
    requires t != [] && t[|t| - 1] == SawProcesses(processes)
    ensures match JudgeResidents(processes, probe, digest)
            case NothingThere => GoneAtEnd(t, probe)
            case Refuse(why) => Refuses(why, t, probe, digest)
            case Expire => processes.Some? && SoleProbe(processes.value, probe, digest)
  {
    if processes.Some? {
      AnsweringMeans(processes.value, probe);
    }
  }

  /** Expire the exact probe runner when it is the only resident; any other resident answering to its name refuses. */
  method ExpireProbe(w: World<Monitor>, job: Job, expected: ArtifactId) returns (r: Outcome<Option<CleanupRefusal>>)
    requires Tracks(w, job) && expected.OllamaManifest?
    requires w.state.Watching? && PhaseDigest(w.state.phase) == Some(expected.digest)
    modifies w`trace, w`state, w`faults
    ensures Tracks(w, job) && w.state.Watching? && w.state.phase == old(w.state.phase) && w.state.store == old(w.state.store)
    ensures (old(w.state.idle) ==> w.state.idle) && w.state.last == old(w.state.last)
    ensures Extends(old(w.trace), w.trace)
    ensures r == Ok(None) ==> GoneAtEnd(w.trace, job.probe)
    ensures |w.trace| > |old(w.trace)| + 1 ==> ExpiredAt(w.trace, |old(w.trace)|, job.probe, expected.digest)
    ensures w.Counted(old(w.faults), r.Raised?)
    ensures r.Ok? && r.value.Some? ==> Refuses(r.value.value, w.trace, job.probe, expected.digest)
  {
    hide Tracks, JudgeResidents, GoneAtEnd, SoleProbe, NoneAnswers, DigestIn;
    var processes :- SeeProcesses(w, job);
    JudgedResidents(w.trace, processes, job.probe, expected.digest);
    var expiry := JudgeResidents(processes, job.probe, expected.digest);
    if expiry.NothingThere? { return Ok(None); }
    if expiry.Refuse? { return Ok(Some(expiry.why)); }
    var expired :- RequestExpiry(w, job);
    if !expired { return Ok(Some(ExpiryFailed)); }
    r := ConfirmExpired(w, job, expected.digest);
  }

  method ConfirmExpired(w: World<Monitor>, job: Job, ghost digest: string) returns (r: Outcome<Option<CleanupRefusal>>)
    requires Tracks(w, job) && w.state.Watching? && w.trace != [] && w.trace[|w.trace| - 1] == Load(job.probe, true, true)
    modifies w`trace, w`state, w`faults
    ensures Tracks(w, job) && w.state.Watching? && w.state.phase == old(w.state.phase) && w.state.store == old(w.state.store)
    ensures (old(w.state.idle) ==> w.state.idle) && w.state.last == old(w.state.last)
    ensures Extends(old(w.trace), w.trace)
    ensures r == Ok(None) ==> GoneAtEnd(w.trace, job.probe)
    ensures w.Counted(old(w.faults), r.Raised?)
    ensures r.Ok? && r.value.Some? ==> Refuses(r.value.value, w.trace, job.probe, digest)
  {
    hide Tracks, DigestIn, SoleProbe, NoneAnswers;
    var remaining :- SeeProcesses(w, job);
    if remaining.None? { return Ok(Some(ExpiryUnknown)); }
    AnsweringMeans(remaining.value, job.probe);
    r := Ok(if Answering(remaining.value, job.probe) != [] then Some(StillResident) else None);
  }

  /** The residents that answer to a name. */
  function Answering(processes: seq<Process>, name: string): seq<Process> {
    if processes == [] then []
    else (if Answers(processes[0], name) then [processes[0]] else []) + Answering(processes[1..], name)
  }

  // ---------- recovery ----------

  /** The candidate has the probe's name, and the table holds a row that proves its exact manifest to be this job's. */
  predicate IsProven(artifacts: map<ArtifactId, OwnershipRow>, candidate: Model, job: Job) {
    SameName(candidate.name, job.probe) && candidate.digest.Some? && RowProves(artifacts, job, candidate.digest.value)
  }

  predicate RowProves(artifacts: map<ArtifactId, OwnershipRow>, job: Job, digest: string) {
    OllamaManifest(digest) in artifacts && Proves(job, artifacts[OllamaManifest(digest)])
  }

  /** `_ollama_probe_is_owned`; a store that cannot be read proves nothing. */
  method ProbeIsOwned(w: World<Monitor>, candidate: Model, job: Job) returns (owned: bool)
    requires Tracks(w, job) && w.state.Watching? && w.state.phase.Absent?
    modifies w`trace, w`state, w`faults
    ensures Tracks(w, job) && w.state.Watching? && w.state.store == old(w.state.store)
    ensures (old(w.state.idle) ==> w.state.idle) && w.state.last == old(w.state.last)
    ensures Extends(old(w.trace), w.trace) && |w.trace| <= |old(w.trace)| + 1
    ensures owned ==> candidate.digest.Some? && w.state.phase == Leftover(candidate.digest.value) && |w.trace| == |old(w.trace)| + 1
    ensures owned ==> IsProven(w.artifacts, candidate, job)
    ensures !owned ==> w.state.phase.Absent?
    ensures !owned && (w.trace != old(w.trace) || !SameName(candidate.name, job.probe)) ==> !IsProven(w.artifacts, candidate, job)
    ensures w.faults >= old(w.faults) && (!owned && IsProven(w.artifacts, candidate, job) ==> w.faults > old(w.faults))
  {
    hide Tracks, Proves;
    if !SameName(candidate.name, job.probe) || candidate.digest.None? {
      return false;
    }
    var row := ReadOwnership(w, job, candidate.digest.value);
    if row.Raised? || row.value.None? { return false; }
    return Proves(job, row.value.value);
  }

  lemma ProvenHasDigest(artifacts: map<ArtifactId, OwnershipRow>, candidate: Model, job: Job)
    ensures IsProven(artifacts, candidate, job) ==> candidate.digest.Some?
  {
  }

  /** `_recover_ollama_probe`: a leftover is removed only on durable proof; without proof nothing is touched. */
  method RecoverProbe(w: World<Monitor>, candidate: Model, job: Job) returns (r: Outcome<Option<CleanupRefusal>>)
    requires Tracks(w, job) && w.state.Watching? && w.state.phase.Absent?
    modifies w`trace, w`state, w`faults
    ensures Tracks(w, job) && w.state.Watching? && w.state.store == old(w.state.store)
    ensures (old(w.state.idle) ==> w.state.idle) && w.state.last == old(w.state.last)
    ensures Extends(old(w.trace), w.trace)
    ensures r == Ok(None) ==>
              && w.state.phase.Absent? && candidate.digest.Some?
              && DeletedWhenGone(w.trace, job.probe, candidate.digest.value) && |w.trace| >= |old(w.trace)| + 3
    ensures !IsProven(w.artifacts, candidate, job) ==>
              && r == Ok(Some(if candidate.digest.None? then DigestUnavailable else NotProvenOwned))
              && |w.trace| <= |old(w.trace)| + 1 && w.state.phase.Absent?
    ensures IsProven(w.artifacts, candidate, job) && r.Ok? && r.value.Some? ==>
              && candidate.digest.Some?
              && (if r.value.value == NotProvenOwned then w.trace == old(w.trace) && w.faults > old(w.faults)
                  else Refuses(r.value.value, w.trace, job.probe, candidate.digest.value) && |w.trace| > |old(w.trace)| + 1)
    ensures w.faults >= old(w.faults) && (r.Raised? ==> w.faults > old(w.faults))
  {
    hide Tracks, IsProven;
    ProvenHasDigest(w.artifacts, candidate, job);
    if candidate.digest.None? {
      return Ok(Some(DigestUnavailable));
    }
    var owned := ProbeIsOwned(w, candidate, job);
    if !owned {
      return Ok(Some(NotProvenOwned));
    }
    r := CleanupProbe(w, job, OllamaManifest(candidate.digest.value));
  }

  /** Where a proving row comes from: it was in the table when the run began, or the run itself bound that manifest. */
  lemma {:induction false} ProvenByRows(job: Job, store: map<ArtifactId, OwnershipRow>, t: seq<Event>, digest: string)
    requires Run(job, store, t).Watching?
    ensures RowProves(Run(job, store, t).store, job, digest)
            <==> RowProves(store, job, digest) || OwnedIn(t, digest)
  {
    hide Step, RowProves, Proves;
    if t != [] {
      var front, last := t[..|t| - 1], |t| - 1;
      WatchedBefore(job, Run(job, store, front), t[last]);
      ProvenByRows(job, store, front, digest);
      CrashLeavesProof(job, store, front);
      RowsAfterStep(job, Run(job, store, front), t[last], digest);
      if OwnedIn(front, digest) {
        var k :| 0 <= k < |front| && front[k].Own? && front[k].artifact == OllamaManifest(digest);
        assert t[k] == front[k];
      }
      if OwnedIn(t, digest) && !(t[last].Own? && t[last].artifact == OllamaManifest(digest)) {
        var k :| 0 <= k < |t| && t[k].Own? && t[k].artifact == OllamaManifest(digest);
        assert front[k] == t[k];
      }
    }
  }

  predicate OwnedIn(t: seq<Event>, digest: string) {
    exists k :: 0 <= k < |t| && t[k].Own? && t[k].artifact == OllamaManifest(digest)
  }

  lemma RowsAfterStep(job: Job, m: Monitor, e: Event, digest: string)
    requires m.Watching? && HoldsProof(job, m) && Step(job, m, e).Watching?
    ensures RowProves(Step(job, m, e).store, job, digest)
            <==> RowProves(m.store, job, digest) || (e.Own? && e.artifact == OllamaManifest(digest))
  {
    hide DigestIn;
  }

  /** Two runs of one job, the first cut off anywhere, after the events `t`. A probe that it owned, had used, or had
      recognised is proven to the second, which refuses it as unproven only when the table cannot be read; a probe that it
      had created and listed, but not yet bound, is refused untouched, unless a row for that very manifest was there before. */
  method RecoverAfterCrash(
    w: World<Monitor>, job: Job, ghost store: map<ArtifactId, OwnershipRow>, ghost t: seq<Event>, candidate: Model)
    returns (r: Outcome<Option<CleanupRefusal>>)
    requires Run(job, store, t).Watching? && w.artifacts == Run(job, store, t).store
    requires Tracks(w, job) && w.state.Watching? && w.state.phase.Absent?
    requires SameName(candidate.name, job.probe) && candidate.digest.Some?
    requires PhaseDigest(Run(job, store, t).phase) == candidate.digest
    modifies w`trace, w`state, w`faults
    ensures Tracks(w, job) && w.state.Watching?
    ensures !Run(job, store, t).phase.Created? ==>
              && (r == Ok(None) ==> DeletedWhenGone(w.trace, job.probe, candidate.digest.value) && |w.trace| >= |old(w.trace)| + 3)
              && (r == Ok(Some(NotProvenOwned)) ==> w.trace == old(w.trace) && w.faults > old(w.faults)) && r != Ok(Some(DigestUnavailable))
    ensures Run(job, store, t).phase.Created? && !RowProves(store, job, candidate.digest.value) && !OwnedIn(t, candidate.digest.value) ==>
              r == Ok(Some(NotProvenOwned)) && w.state.phase.Absent? && |w.trace| <= |old(w.trace)| + 1
  {
    hide Tracks, RowProves, DeletedWhenGone, Run, Proves;
    LeftoverIsProven(job, store, t);
    ProvenByRows(job, store, t, candidate.digest.value);
    r := RecoverProbe(w, candidate, job);
  }

  lemma LeftoverIsProven(job: Job, store: map<ArtifactId, OwnershipRow>, t: seq<Event>)
    requires Run(job, store, t).Watching?
    ensures var end := Run(job, store, t);
            !end.phase.Created? && PhaseDigest(end.phase).Some? ==> RowProves(end.store, job, PhaseDigest(end.phase).value)
  {
    hide Run, Proves;
    CrashLeavesProof(job, store, t);
  }

  // ---------- one rung ----------

  /** The caller's record of what the ramp created and cleaned. */
  class Provenance {
    var created: bool
    var cleaned: bool
    var artifact: Option<ArtifactId>
    var context: Option<int>

    constructor ()
      ensures !created && !cleaned && artifact.None? && context.None?
    {
      created, cleaned, artifact, context := false, false, None, None;
    }
  }

  /** The record names the last confirmed creation, and tells the caller's `finally` what is left: nothing, an identified
      probe not yet cleaned, or a confirmed creation that was never identified. */
  ghost predicate Accounted(prov: Provenance, m: Monitor)
    requires m.Watching?
    reads prov
  {
    && (prov.artifact.Some? ==> prov.artifact.value.OllamaManifest? && prov.created)
    && NamesLast(prov, m.last)
    && (match m.phase
        case Absent => prov.created ==> m.last.value.id.Some? && prov.cleaned
        case Created(_, None) => prov.created && !prov.cleaned
        case _ =>
          && prov.artifact.Some? && !prov.cleaned && PhaseDigest(m.phase) == Some(prov.artifact.value.digest)
          && m.last.Some? && m.last.value.id == PhaseDigest(m.phase))
  }

  /** The context of the last confirmed creation, and its manifest once it was listed. */
  ghost predicate NamesLast(prov: Provenance, last: Option<Creation>)
    reads prov
  {
    match last
    case None => !prov.created && prov.artifact.None? && prov.context.None?
    case Some(Creation(context, id)) =>
      prov.created && prov.context == Some(context) && (id.Some? ==> prov.artifact == Some(OllamaManifest(id.value)))
  }

  /** A rung that created no probe leaves the record of the last one; any other becomes the last one. */
  ghost predicate KeptOrTried(artifact: Option<ArtifactId>, last: Option<int>, prov: Provenance, context: int, uncreated: bool)
    reads prov
  {
    if uncreated then prov.artifact == artifact && prov.context == last
    else prov.artifact.Some? && prov.context == Some(context)
  }

  datatype RungEnd = Uncreated | Failed(reason: Reason) | Loaded(after: MemorySnapshot, process: Process)

  /** The four events that show this probe loaded at this context under this authority, with exactly this process
      resident and this wall reading straight after. */
  function LoadEvents(job: Job, a: Authority, context: int, after: MemorySnapshot, process: Process): seq<Event> {
    [Generate(job.probe, context, true), SawAuthority(a), SawProcesses(Some([process])), SawSnapshot(after)]
  }

  /** An inventory that lists the base model under the very manifest being characterized. */
  predicate BaseSeen(e: Event, job: Job) {
    e.SawInventory? && InventoryId(e.models, job.baseModel) == Some(job.baseArtifact)
  }

  /** The eight events of a rung that loaded: its probe was created from the base, listed, durably owned, the base seen
      unchanged, and then the load events, in which exactly the created manifest was resident at this context. */
  predicate LoadedSteps(t: seq<Event>, job: Job, a: Authority, context: int, after: MemorySnapshot, process: Process) {
    && |t| == 8 && process.digest.Some?
    && t[0] == Create(job.probe, job.baseModel, context, true)
    && t[1].SawInventory? && DigestIn(t[1].models, job.probe) == process.digest
    && t[2] == Own(OllamaManifest(process.digest.value), OwnershipFor(job, context))
    && BaseSeen(t[3], job)
    && t[4..] == LoadEvents(job, a, context, after, process)
    && IsTarget(process, [Target(job.probe, process.digest)], Some(context))
  }

  /** The probe is made: created from the base, listed, durably owned, and the base seen unchanged. */
  predicate Made(t: seq<Event>, job: Job, context: int, digest: string) {
    && |t| == 4
    && t[0] == Create(job.probe, job.baseModel, context, true)
    && t[1].SawInventory? && DigestIn(t[1].models, job.probe) == Some(digest)
    && t[2] == Own(OllamaManifest(digest), OwnershipFor(job, context))
    && BaseSeen(t[3], job)
  }

  predicate SoleRunner(processes: Option<seq<Process>>, probe: string, digest: string, context: int) {
    processes.Some? && |processes.value| == 1 && RunsAs(processes.value[0], Target(probe, Some(digest)), context)
  }

  /** The runner of the rung before, if there was one, is still the only resident. */
  predicate PreviousRemains(processes: Option<seq<Process>>, probe: string, previous: Option<(int, string)>) {
    previous.Some? && SoleRunner(processes, probe, previous.value.1, previous.value.0)
  }

  /** A confirmed load under the same authority, followed by the residents and the walls. */
  predicate ReadAfterLoad(t: seq<Event>, job: Job, a: Authority, context: int) {
    |t| == 4 && t[0] == Generate(job.probe, context, true) && t[1] == SawAuthority(a) && t[2].SawProcesses? && t[3].SawSnapshot?
  }

  /** How a load ends, by what was seen: it was not confirmed; it left nothing, or the runner before, resident; or exactly
      the probe became resident. */
  predicate LoadEnds(
    end: RungEnd, t: seq<Event>, job: Job, a: Authority, context: int, previous: Option<(int, string)>, digest: string)
  {
    if end.Uncreated? then false
    else if end == Failed(GenerationFailed) then t == [Generate(job.probe, context, false)]
    else if end.Failed? then
      && end.reason == EffectiveResidencyUnverified && ReadAfterLoad(t, job, a, context)
      && !SoleRunner(t[2].processes, job.probe, digest, context)
      && (t[2].processes == Some([]) || PreviousRemains(t[2].processes, job.probe, previous))
    else
      && ReadAfterLoad(t, job, a, context) && t[2] == SawProcesses(Some([end.process])) && t[3] == SawSnapshot(end.after)
      && SoleRunner(Some([end.process]), job.probe, digest, context)
  }

  /** A load stops with an error, although no call raised, when the authority changed or somebody else is resident. */
  predicate LoadStops(t: seq<Event>, job: Job, a: Authority, context: int, previous: Option<(int, string)>, digest: string) {
    || (|t| == 2 && t[1].SawAuthority? && t[1].authority != a)
    || (ReadAfterLoad(t, job, a, context) && !SoleRunner(t[2].processes, job.probe, digest, context)
        && t[2].processes != Some([]) && !PreviousRemains(t[2].processes, job.probe, previous))
  }

  /** The same for the whole rung from its create on: not created, or made and then loaded. */
  predicate RungEnds(
    end: RungEnd, t: seq<Event>, job: Job, a: Authority, context: int, previous: Option<(int, string)>, digest: string)
  {
    if end.Uncreated? then t == [Create(job.probe, job.baseModel, context, false)]
    else |t| >= 4 && Made(t[..4], job, context, digest) && LoadEnds(end, t[4..], job, a, context, previous, digest)
  }

  predicate RungStops(t: seq<Event>, job: Job, a: Authority, context: int, previous: Option<(int, string)>) {
    || (|t| == 2 && t[0] == Create(job.probe, job.baseModel, context, true) && t[1].SawInventory?
        && DigestIn(t[1].models, job.probe).None?)
    || (|t| == 4 && t[3].SawInventory? && !BaseSeen(t[3], job))
    || (|t| >= 4 && t[1].SawInventory? && DigestIn(t[1].models, job.probe).Some?
        && Made(t[..4], job, context, DigestIn(t[1].models, job.probe).value)
        && LoadStops(t[4..], job, a, context, previous, DigestIn(t[1].models, job.probe).value))
  }

  /** The events of a rung decide how it ends. */
  lemma RungEndIsDecided(
    end: RungEnd, other: RungEnd, t: seq<Event>, job: Job, a: Authority, context: int, previous: Option<(int, string)>, digest: string)
    requires RungEnds(end, t, job, a, context, previous, digest) && RungEnds(other, t, job, a, context, previous, digest)
    ensures end == other && !RungStops(t, job, a, context, previous)
  {
    hide DigestIn, OwnershipFor, InventoryId;
    if |t| >= 4 {
      assert t[1] == t[..4][1] && t[3] == t[..4][3];
    }
  }

  /** A made probe, a confirmed load, the same authority and exactly the probe resident: the rung has loaded. */
  lemma GoodLoadIsLoaded(
    end: RungEnd, t: seq<Event>, job: Job, a: Authority, context: int, previous: Option<(int, string)>, digest: string)
    requires |t| == 8 && Made(t[..4], job, context, digest) && ReadAfterLoad(t[4..], job, a, context)
    requires SoleRunner(t[6].processes, job.probe, digest, context)
    ensures RungEnds(end, t, job, a, context, previous, digest) ==> end == Loaded(t[7].snapshot, t[6].processes.value[0])
    ensures !RungStops(t, job, a, context, previous)
  {
    hide DigestIn, OwnershipFor, InventoryId;
    assert t[1] == t[..4][1] && t[3] == t[..4][3] && t[6] == t[4..][2] && t[7] == t[4..][3];
  }

  lemma LoadedRung(t: seq<Event>, job: Job, a: Authority, context: int, previous: Option<(int, string)>, digest: string,
                   after: MemorySnapshot, process: Process)
    requires RungEnds(Loaded(after, process), t, job, a, context, previous, digest)
    ensures LoadedSteps(t, job, a, context, after, process) && process.digest == Some(digest)
  {
    hide DigestIn, OwnershipFor;
    var u := t[4..];
    assert u == [u[0], u[1], u[2], u[3]];
    assert |t| == 8 && t[0] == t[..4][0] && t[1] == t[..4][1] && t[2] == t[..4][2] && t[3] == t[..4][3];
    assert Answers(process, Target(job.probe, process.digest).name);
  }

  /** A measured rung is eleven events in a row: its wall reading, the same daemon and the same base seen before anything
      is created, and the steps of the load. */
  predicate ProbedFrom(t: seq<Event>, j: int, job: Job, a: Authority, context: int, o: RungObservation) {
    && 0 <= j <= |t| - 11 && o.Measured?
    && t[j] == SawSnapshot(o.before) && t[j + 1] == SawAuthority(a) && BaseSeen(t[j + 2], job)
    && LoadedSteps(t[j + 3..j + 11], job, a, context, o.after, o.process)
  }

  ghost predicate Probed(t: seq<Event>, job: Job, a: Authority, context: int, o: RungObservation) {
    exists j :: ProbedFrom(t, j, job, a, context, o)
  }

  // ---------- every observation is shown by the trace ----------

  function EndOf(o: RungObservation): RungEnd
    requires !o.Refused?
  {
    match o
    case NotCreated(_) => Uncreated
    case Unproven(_, reason) => Failed(reason)
    case Measured(_, after, process) => Loaded(after, process)
  }

  /** The number of events from the create to the end of the rung. */
  function Length(end: RungEnd): nat {
    if end.Uncreated? then 1 else if end == Failed(GenerationFailed) then 5 else 8
  }

  lemma EndHasLength(
    end: RungEnd, t: seq<Event>, job: Job, a: Authority, context: int, previous: Option<(int, string)>, digest: string)
    requires RungEnds(end, t, job, a, context, previous, digest)
    ensures |t| == Length(end)
  {
  }

  /** What one rung observed is what its events show: its wall reading first and, unless the admission on that reading refused,
      the same daemon and base, and then how the rung ended. */
  predicate ObservedFrom(
    t: seq<Event>, j: int, job: Job, a: Authority, context: int, previous: Option<(int, string)>, digest: string, o: RungObservation)
  {
    && 0 <= j < |t| && t[j] == SawSnapshot(o.before)
    && (!o.Refused? ==>
          && j + 3 + Length(EndOf(o)) <= |t| && t[j + 1] == SawAuthority(a) && BaseSeen(t[j + 2], job)
          && RungEnds(EndOf(o), t[j + 3..j + 3 + Length(EndOf(o))], job, a, context, previous, digest))
  }

  ghost predicate Observed(t: seq<Event>, job: Job, a: Authority, context: int, previous: Option<(int, string)>, o: RungObservation) {
    exists j, digest :: ObservedFrom(t, j, job, a, context, previous, digest, o)
  }

  lemma ObservedStays(
    t: seq<Event>, u: seq<Event>, job: Job, a: Authority, context: int, previous: Option<(int, string)>, o: RungObservation)
    requires Extends(t, u) && Observed(t, job, a, context, previous, o)
    ensures Observed(u, job, a, context, previous, o)
  {
    hide RungEnds, BaseSeen;
    var j, digest :| ObservedFrom(t, j, job, a, context, previous, digest, o);
    assert u[..|t|] == t;
    assert u[j] == u[..|t|][j];
    if !o.Refused? {
      var n := Length(EndOf(o));
      assert u[j + 1] == u[..|t|][j + 1] && u[j + 2] == u[..|t|][j + 2] && u[j + 3..j + 3 + n] == u[..|t|][j + 3..j + 3 + n];
    }
    assert ObservedFrom(u, j, job, a, context, previous, digest, o);
  }

  lemma ObservedMeasured(
    t: seq<Event>, j: int, job: Job, a: Authority, context: int, previous: Option<(int, string)>, digest: string, o: RungObservation)
    requires ObservedFrom(t, j, job, a, context, previous, digest, o) && o.Measured?
    ensures Probed(t, job, a, context, o) && o.process.digest == Some(digest)
  {
    hide RungEnds, LoadedSteps, BaseSeen;
    LoadedRung(t[j + 3..j + 11], job, a, context, previous, digest, o.after, o.process);
    assert ProbedFrom(t, j, job, a, context, o);
  }

  lemma ProbedStays(t: seq<Event>, u: seq<Event>, job: Job, a: Authority, context: int, o: RungObservation)
    requires Extends(t, u) && Probed(t, job, a, context, o)
    ensures Probed(u, job, a, context, o)
  {
    hide LoadedSteps, BaseSeen;
    var j :| ProbedFrom(t, j, job, a, context, o);
    assert u[..|t|] == t;
    assert u[j] == u[..|t|][j] && u[j + 1] == u[..|t|][j + 1] && u[j + 2] == u[..|t|][j + 2];
    assert u[j + 3..j + 11] == u[..|t|][j + 3..j + 11];
    assert ProbedFrom(u, j, job, a, context, o);
  }

  /** What the measured process is: the probe, under the manifest first listed after this rung created it. */
  lemma ProbedIsTheProbe(t: seq<Event>, j: int, job: Job, a: Authority, context: int, o: RungObservation)
    requires ProbedFrom(t, j, job, a, context, o)
    ensures o.process.digest.Some? && CreatedAs(job, t, j + 3, j + 4, o.process.digest.value)
    ensures t[j + 3] == Create(job.probe, job.baseModel, context, true)
    ensures t[j + 5] == Own(OllamaManifest(o.process.digest.value), OwnershipFor(job, context))
    ensures SameName(o.process.name, job.probe) && o.process.effectiveContext == Some(context)
  {
    hide OwnershipFor, DigestIn, BaseSeen;
    var u := t[j + 3..j + 11];
    assert u[0] == t[j + 3] && u[1] == t[j + 4] && u[2] == t[j + 5];
  }

  /** The `try` block of one rung: create, identify, own, re-attest the base, load, and read what became resident. */
  method TryRung(w: World<Monitor>, prov: Provenance, job: Job, a: Authority, context: int, previous: Option<(int, string)>)
    returns (r: Outcome<RungEnd>, probeArtifact: Option<ArtifactId>, ghost steps: seq<Event>)
    requires Tracks(w, job) && context in job.contexts
    requires w.state.Watching? && w.state.idle && w.state.phase.Absent? && Accounted(prov, w.state)
    modifies w, prov
    ensures Tracks(w, job) && w.state.Watching? && (old(w.state.idle) ==> w.state.idle) && w.trace == old(w.trace) + steps
    ensures Accounted(prov, w.state)
    ensures r.Ok? ==> KeptOrTried(old(prov.artifact), old(prov.context), prov, context, r.value.Uncreated?)
    ensures probeArtifact.Some? ==> prov.artifact == probeArtifact && !w.state.phase.Absent?
                                    && PhaseDigest(w.state.phase) == Some(probeArtifact.value.digest)
    ensures r.Ok? ==> (r.value.Uncreated? <==> probeArtifact.None?)
    ensures r.Ok? && r.value.Uncreated? ==> w.state.phase.Absent?
    ensures r.Ok? ==> RungEnds(r.value, steps, job, a, context, previous, if probeArtifact.Some? then probeArtifact.value.digest else "")
    ensures if r.Ok? then w.faults == old(w.faults)
            else w.faults > old(w.faults) || (w.faults == old(w.faults) && RungStops(steps, job, a, context, previous))
  {
    hide Tracks, DigestIn, InventoryId, OwnershipFor, LoadEnds, LoadStops;
    var made;
    ghost var listed, more;
    made, probeArtifact, steps, listed := MakeProbe(w, prov, job, context);
    if made.Raised? { return Raised(made.error), probeArtifact, steps; }
    if !made.value { return Ok(Uncreated), None, steps; }
    var base;
    ghost var models;
    base, models := SeeId(w, job, job.baseModel);
    if base.Raised? { return Raised(base.error), probeArtifact, steps; }
    steps := steps + [SawInventory(models)];
    if base.value != Some(job.baseArtifact) { return Raised(BaseManifestChanged), probeArtifact, steps; }
    assert steps == [Create(job.probe, job.baseModel, context, true), SawInventory(listed),
                     Own(OllamaManifest(probeArtifact.value.digest), OwnershipFor(job, context)), SawInventory(models)];
    ghost var made4 := steps;
    r, more := LoadAndRead(w, job, a, context, previous, probeArtifact.value.digest);
    steps := steps + more;
    assert steps[..4] == made4 && steps[4..] == more;
  }

  /** Create the probe, identify it once, and bind it durably; the record follows each step. `Ok(false)`: not created. */
  method MakeProbe(w: World<Monitor>, prov: Provenance, job: Job, context: int)
    returns (r: Outcome<bool>, probeArtifact: Option<ArtifactId>, ghost steps: seq<Event>, ghost listed: Option<seq<Model>>)
    requires Tracks(w, job) && context in job.contexts
    requires w.state.Watching? && w.state.idle && w.state.phase.Absent? && Accounted(prov, w.state)
    modifies w, prov
    ensures Tracks(w, job) && w.state.Watching? && (old(w.state.idle) ==> w.state.idle) && w.trace == old(w.trace) + steps
    ensures Accounted(prov, w.state)
    ensures probeArtifact.Some? ==> prov.artifact == probeArtifact && !w.state.phase.Absent?
                                    && PhaseDigest(w.state.phase) == Some(probeArtifact.value.digest)
    ensures r == Ok(false) ==>
              w.state.phase.Absent? && probeArtifact.None? && prov.artifact == old(prov.artifact) && prov.context == old(prov.context)
    ensures r == Ok(true) ==>
              && probeArtifact.Some? && prov.context == Some(context)
              && w.state.phase == Owned(probeArtifact.value.digest, context)
              && steps == [Create(job.probe, job.baseModel, context, true), SawInventory(listed),
                           Own(probeArtifact.value, OwnershipFor(job, context))]
              && DigestIn(listed, job.probe) == Some(probeArtifact.value.digest)
    ensures r == Ok(false) ==> steps == [Create(job.probe, job.baseModel, context, false)]
    ensures if r.Ok? then w.faults == old(w.faults)
            else w.faults > old(w.faults)
                 || (w.faults == old(w.faults) && DigestIn(listed, job.probe).None?
                     && steps == [Create(job.probe, job.baseModel, context, true), SawInventory(listed)])
  {
    hide Tracks, DigestIn, InventoryId, OwnershipFor;
    probeArtifact, listed := None, None;
    var created := CreateProbe(w, job, context);
    steps := [Create(job.probe, job.baseModel, context, created == Ok(true))];
    if created.Raised? { return Raised(created.error), None, steps, listed; }
    if !created.value { return Ok(false), None, steps, listed; }
    prov.created, prov.cleaned, prov.context := true, false, Some(context);
    ghost var more;
    r, probeArtifact, more, listed := IdentifyAndOwn(w, job, context);
    steps := steps + more;
    if probeArtifact.Some? { prov.artifact := probeArtifact; }
  }

  lemma RungLoaded(
    job: Job, a: Authority, context: int, after: MemorySnapshot, process: Process, listed: Option<seq<Model>>, models: Option<seq<Model>>)
    requires process.digest.Some? && DigestIn(listed, job.probe) == process.digest
    requires InventoryId(models, job.baseModel) == Some(job.baseArtifact)
    requires IsTarget(process, [Target(job.probe, process.digest)], Some(context))
    ensures LoadedSteps(
              [Create(job.probe, job.baseModel, context, true), SawInventory(listed),
               Own(OllamaManifest(process.digest.value), OwnershipFor(job, context)), SawInventory(models)]
              + LoadEvents(job, a, context, after, process), job, a, context, after, process)
  {
    hide DigestIn, InventoryId, IsTarget, OwnershipFor;
  }

  /** See the created probe's manifest once and bind it durably to this job before anything may load it. */
  method IdentifyAndOwn(w: World<Monitor>, job: Job, context: int)
    returns (r: Outcome<bool>, probeArtifact: Option<ArtifactId>, ghost steps: seq<Event>, ghost listed: Option<seq<Model>>)
    requires Tracks(w, job) && w.state.Watching? && w.state.phase == Created(context, None)
    requires w.state.last == Some(Creation(context, None))
    modifies w
    ensures Tracks(w, job) && w.state.Watching? && (old(w.state.idle) ==> w.state.idle) && w.trace == old(w.trace) + steps
    ensures probeArtifact.None? ==> w.state.phase == Created(context, None) && w.state.last == old(w.state.last)
    ensures probeArtifact.Some? ==>
              && probeArtifact.value.OllamaManifest?
              && w.state.last == Some(Creation(context, Some(probeArtifact.value.digest)))
              && (w.state.phase == Created(context, Some(probeArtifact.value.digest))
                  || w.state.phase == Owned(probeArtifact.value.digest, context))
    ensures r.Ok? ==>
              && r.value
              && probeArtifact.Some? && w.state.phase == Owned(probeArtifact.value.digest, context)
              && steps == [SawInventory(listed), Own(probeArtifact.value, OwnershipFor(job, context))]
              && DigestIn(listed, job.probe) == Some(probeArtifact.value.digest)
    ensures if r.Ok? then w.faults == old(w.faults)
            else w.faults > old(w.faults)
                 || (w.faults == old(w.faults) && steps == [SawInventory(listed)] && DigestIn(listed, job.probe).None?)
  {
    hide Tracks, DigestIn, InventoryId, OwnershipFor;
    probeArtifact, steps := None, [];
    var id;
    id, listed := SeeId(w, job, job.probe);
    if id.Raised? { return Raised(id.error), None, steps, listed; }
    steps := [SawInventory(listed)];
    ListedDigest(job, listed);
    if id.value.None? { return Raised(ProbeUnidentified), None, steps, listed; }
    probeArtifact := id.value;
    var owned := OwnProbe(w, job, probeArtifact.value.digest, context);
    if owned.Raised? { return Raised(owned.error), probeArtifact, steps, listed; }
    steps := steps + [Own(probeArtifact.value, OwnershipFor(job, context))];
    r := Ok(true);
  }

  /** The load of an owned probe and the readings straight after it. */
  method LoadAndRead(w: World<Monitor>, job: Job, a: Authority, context: int, previous: Option<(int, string)>, digest: string)
    returns (r: Outcome<RungEnd>, ghost steps: seq<Event>)
    requires Tracks(w, job) && w.state.Watching? && w.state.phase == Owned(digest, context)
    modifies w`trace, w`state, w`faults
    ensures Tracks(w, job) && w.state.Watching? && (old(w.state.idle) ==> w.state.idle) && w.trace == old(w.trace) + steps
    ensures w.state.phase == Used(digest, context) && w.state.last == old(w.state.last)
    ensures r.Ok? ==> LoadEnds(r.value, steps, job, a, context, previous, digest) && !r.value.Uncreated?
    ensures if r.Ok? then w.faults == old(w.faults)
            else w.faults > old(w.faults) || (w.faults == old(w.faults) && LoadStops(steps, job, a, context, previous, digest))
  {
    hide Tracks, ResidencyRefusal, SoleRunner, LoadEnds, LoadStops;
    var generated := GenerateProbe(w, job, digest, context);
    steps := [Generate(job.probe, context, generated == Ok(true))];
    LoadEndsEarly(job, a, context, previous, digest);
    if generated.Raised? { return Raised(generated.error), steps; }
    if !generated.value { return Ok(Failed(GenerationFailed)), steps; }
    var authority := SeeAuthority(w, job);
    if authority.Raised? { return Raised(authority.error), steps; }
    steps := [Generate(job.probe, context, true), SawAuthority(authority.value)];
    if authority.value != a { return Raised(AuthorityChanged), steps; }
    var processes := SeeProcesses(w, job);
    if processes.Raised? { return Raised(processes.error), steps; }
    steps := [Generate(job.probe, context, true), SawAuthority(a), SawProcesses(processes.value)];
    var after := SeeSnapshot(w, job);
    if after.Raised? { return Raised(after.error), steps; }
    steps := [Generate(job.probe, context, true), SawAuthority(a), SawProcesses(processes.value), SawSnapshot(after.value)];
    LoadIsRead(job, a, context, previous, digest, processes.value, after.value);
    SoleIsRunner(processes.value, job.probe, digest, context);
    if previous.Some? { SoleIsRunner(processes.value, job.probe, previous.value.1, previous.value.0); }
    if ResidencyRefusal(processes.value, [Target(job.probe, Some(digest))], Some(context), true).Some? {
      var previousRemains :=
        previous.Some?
        && ResidencyRefusal(processes.value, [Target(job.probe, Some(previous.value.1))], Some(previous.value.0), true).None?;
      if processes.value == Some([]) || previousRemains {
        return Ok(Failed(EffectiveResidencyUnverified)), steps;
      }
      return Raised(ResidencyBlocked), steps;
    }
    r := Ok(Loaded(after.value, processes.value.value[0]));
  }

  lemma LoadEndsEarly(job: Job, a: Authority, context: int, previous: Option<(int, string)>, digest: string)
    ensures LoadEnds(Failed(GenerationFailed), [Generate(job.probe, context, false)], job, a, context, previous, digest)
    ensures forall other :: other != a ==>
              LoadStops([Generate(job.probe, context, true), SawAuthority(other)], job, a, context, previous, digest)
  {
  }

  /** What the readings after a confirmed load decide. */
  lemma LoadIsRead(
    job: Job, a: Authority, context: int, previous: Option<(int, string)>, digest: string, processes: Option<seq<Process>>,
    after: MemorySnapshot)
    ensures var t := [Generate(job.probe, context, true), SawAuthority(a), SawProcesses(processes), SawSnapshot(after)];
            if SoleRunner(processes, job.probe, digest, context)
            then LoadEnds(Loaded(after, processes.value[0]), t, job, a, context, previous, digest)
            else if processes == Some([]) || PreviousRemains(processes, job.probe, previous)
            then LoadEnds(Failed(EffectiveResidencyUnverified), t, job, a, context, previous, digest)
            else LoadStops(t, job, a, context, previous, digest)
  {
    if SoleRunner(processes, job.probe, digest, context) {
      assert processes.value == [processes.value[0]];
    }
  }

  lemma SoleIsRunner(processes: Option<seq<Process>>, name: string, digest: string, context: int)
    ensures ResidencyRefusal(processes, [Target(name, Some(digest))], Some(context), true).None? <==> SoleRunner(processes, name, digest, context)
    ensures SoleRunner(processes, name, digest, context) ==> processes.Some? && |processes.value| == 1 && processes == Some([processes.value[0]])
  {
    var target := Target(name, Some(digest));
    assert target in [target];
    if processes.Some? && |processes.value| == 1 {
      assert processes.value == [processes.value[0]];
      assert Answers(processes.value[0], target.name) <==> SameName(processes.value[0].name, name);
    }
  }

  ghost predicate CleanupRefused(t: seq<Event>, probe: string, digest: string) {
    exists why :: Refuses(why, t, probe, digest)
  }

  lemma RefusedCleanup(why: CleanupRefusal, t: seq<Event>, probe: string, digest: string)
    requires Refuses(why, t, probe, digest)
    ensures CleanupRefused(t, probe, digest)
  {
  }

  /** The rung with its `finally`: whatever happened, an identified probe is cleaned up before anything else. */
  method RungWithCleanup(w: World<Monitor>, prov: Provenance, job: Job, a: Authority, context: int, previous: Option<(int, string)>)
    returns (r: Outcome<RungEnd>, digest: string, ghost steps: seq<Event>)
    requires Tracks(w, job) && context in job.contexts
    requires w.state.Watching? && w.state.idle && w.state.phase.Absent? && Accounted(prov, w.state)
    modifies w, prov
    ensures Tracks(w, job) && w.state.Watching? && (old(w.state.idle) ==> w.state.idle) && Extends(old(w.trace) + steps, w.trace)
    ensures Accounted(prov, w.state)
    ensures r.Ok? ==> w.state.phase.Absent? && KeptOrTried(old(prov.artifact), old(prov.context), prov, context, r.value.Uncreated?)
    ensures r.Ok? ==> RungEnds(r.value, steps, job, a, context, previous, digest)
    ensures if r.Ok? then w.faults == old(w.faults)
            else w.faults > old(w.faults)
                 || (w.faults == old(w.faults)
                     && (RungStops(steps, job, a, context, previous) || CleanupRefused(w.trace, job.probe, digest)))
  {
    hide Tracks, DeletedWhenGone, BaseSeen, RungEnds, RungStops, CleanupRefused;
    var end, probeArtifact;
    end, probeArtifact, steps := TryRung(w, prov, job, a, context, previous);
    digest := "";
    if probeArtifact.Some? {
      digest := probeArtifact.value.digest;
      var cleanup := CleanupProbe(w, job, probeArtifact.value);
      if cleanup.Raised? { return Raised(cleanup.error), digest, steps; }
      prov.cleaned := cleanup.value.None?;
      if cleanup.value.Some? { RefusedCleanup(cleanup.value.value, w.trace, job.probe, digest); }
      if cleanup.value.Some? { return Raised(ProbeCleanupFailed), digest, steps; }
    }
    r := end;
  }
}
