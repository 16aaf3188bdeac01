/** The life of one throwaway probe model, watched over a whole trace: it is created, identified, durably owned, only
    then loaded, and deleted straight after its exact identity was seen again. */
module ProbeLifecycle {
  import opened Wrappers
  import opened Evidence
  import opened Characterization
  import opened Events

  /** What identifies one characterization: the probe name, its base, the schedule, and the endpoint. */
  datatype Job = Job(probe: string, baseModel: string, baseArtifact: ArtifactId, contexts: seq<int>, endpoint: Option<string>)

  /** `_record_ollama_probe_ownership`. */
  function OwnershipFor(job: Job, context: int): OwnershipRow {
    OwnershipRow(job.probe, ObservedDigest, PROBE_STAMP, job.probe, job.baseModel, job.baseArtifact, Int(context),
                 job.endpoint)
  }

  /** The row tests of `_ollama_probe_is_owned`. */
  predicate Proves(job: Job, row: OwnershipRow) {
    && row.logicalModel == job.probe
    && row.confidence == ObservedDigest
    && row.stamp == PROBE_STAMP
    && row.probe == job.probe
    && row.baseModel == job.baseModel
    && row.baseArtifact == job.baseArtifact
    && row.context.Int? && row.context.n in job.contexts
    && row.endpoint == job.endpoint
  }

  /** A row proves ownership exactly when this job would have written it for one of its own contexts. */
  lemma ProofIsExactlyOwnRecord(job: Job, row: OwnershipRow)
    ensures Proves(job, row) <==> exists c :: c in job.contexts && row == OwnershipFor(job, c)
  {
    if Proves(job, row) {
      assert row.context.n in job.contexts && row == OwnershipFor(job, row.context.n);
    }
  }

  // ---------- the monitor ----------

  /** `Owned` may be loaded once; `Used` has been loaded, or its delete was attempted; `Leftover` is an earlier run's. */
  datatype Phase =
    | Absent
    | Created(context: int, id: Option<string>)
    | Owned(digest: string, context: int)
    | Used(digest: string, context: int)
    | Leftover(digest: string)

  /** `seen` is the probe's digest when the event just before was an inventory that listed it; `saved` ends the run;
      `idle` says that this run has seen the daemon with nothing resident; `last` is the last confirmed creation. */
  datatype Monitor =
    | Violated
    | Watching(
        phase: Phase, seen: Option<string>, store: map<ArtifactId, OwnershipRow>, saved: bool, idle: bool, last: Option<Creation>)

  /** A creation by its context, with the manifest first listed under the probe's name after it. */
  datatype Creation = Creation(context: int, id: Option<string>)

  function Start(store: map<ArtifactId, OwnershipRow>): Monitor {
    Watching(Absent, None, store, false, false, None)
  }

  /** Created and confirmed, but not yet seen in any inventory. */
  predicate Unidentified(p: Phase) {
    p.Created? && p.id.None?
  }

  function DigestIn(models: Option<seq<Model>>, name: string): Option<string> {
    var id := InventoryId(models, name);
    if id.Some? && id.value.OllamaManifest? then Some(id.value.digest) else None
  }

  function PhaseDigest(p: Phase): Option<string> {
    match p
    case Absent => None
    case Created(_, id) => id
    case Owned(d, _) => Some(d)
    case Used(d, _) => Some(d)
    case Leftover(d) => Some(d)
  }

  function Stored(store: map<ArtifactId, OwnershipRow>, a: ArtifactId): Option<OwnershipRow> {
    if a in store then Some(store[a]) else None
  }

  function Step(job: Job, m: Monitor, e: Event): Monitor {
    if m.Violated? || m.saved then Violated
    else
      match e
      case SawInventory(models) =>
        var seen := DigestIn(models, job.probe);
        m.(seen := seen,
           phase := if Unidentified(m.phase) then Created(m.phase.context, seen) else m.phase,
           last := if Unidentified(m.phase) then Some(Creation(m.phase.context, seen)) else m.last)
      case SawOwnership(a, row) =>
        if row != Stored(m.store, a) then Violated
        else if m.phase.Absent? && a.OllamaManifest? && row.Some? && Proves(job, row.value)
        then m.(phase := Leftover(a.digest), seen := None)
        else m.(seen := None)
      case Create(name, base, context, confirmed) =>
        if m.idle && m.phase.Absent? && name == job.probe && base == job.baseModel && context in job.contexts
        then m.(phase := if confirmed then Created(context, None) else Absent, seen := None,
                last := if confirmed then Some(Creation(context, None)) else m.last)
        else Violated
      case Own(a, row) =>
        if m.phase.Created? && m.phase.id.Some? && a == OllamaManifest(m.phase.id.value)
           && row == OwnershipFor(job, m.phase.context)
        then m.(phase := Owned(m.phase.id.value, m.phase.context), seen := None, store := m.store[a := row])
        else Violated
      case Generate(name, context, _) =>
        if m.phase.Owned? && name == job.probe && context == m.phase.context
        then m.(phase := Used(m.phase.digest, context), seen := None)
        else Violated
      case Load(name, expire, _) =>
        if name == job.probe && expire && PhaseDigest(m.phase).Some? then m.(seen := None) else Violated
      case Delete(name, confirmed) =>
        if name == job.probe && m.seen.Some? && m.seen == PhaseDigest(m.phase)
        then m.(phase := if confirmed then Absent
                         else if m.phase.Owned? then Used(m.phase.digest, m.phase.context) else m.phase,
                seen := None)
        else Violated
      case SawAuthority(_) => m.(seen := None)
      case SawProcesses(processes) => m.(seen := None, idle := m.idle || processes == Some([]))
      case SawSnapshot(_) => m.(seen := None)
      case Saved(_) => if m.phase.Absent? then m.(seen := None, saved := true) else Violated
      case _ => Violated
  }

  function Run(job: Job, store: map<ArtifactId, OwnershipRow>, t: seq<Event>): Monitor {
    if t == [] then Start(store)
    else Step(job, Run(job, store, t[..|t| - 1]), t[|t| - 1])
  }

  /** A world watched by this monitor is in the state that the run of its trace gives. */
  lemma {:induction false} FoldIsRun(step: (Monitor, Event) -> Monitor, job: Job, store: map<ArtifactId, OwnershipRow>, t: seq<Event>)
    requires forall m, e {:trigger Take(step, m, e)} :: Take(step, m, e) == Step(job, m, e)
    ensures Fold(step, Start(store), t) == Run(job, store, t)
  {
    if t != [] {
      FoldIsRun(step, job, store, t[..|t| - 1]);
      assert Take(step, Run(job, store, t[..|t| - 1]), t[|t| - 1]) == Step(job, Run(job, store, t[..|t| - 1]), t[|t| - 1]);
    }
  }

  // ---------- what acceptance means ----------

  /** A row is saved at most once, as the very last event, and with no probe left. */
  lemma {:induction false} SavedIsLast(job: Job, store: map<ArtifactId, OwnershipRow>, t: seq<Event>, i: nat)
    requires i < |t| && t[i].Saved? && Run(job, store, t).Watching?
    ensures i == |t| - 1 && Run(job, store, t).saved && Run(job, store, t).phase.Absent?
    decreases |t|
  {
    if i < |t| - 1 {
      SavedIsLast(job, store, t[..|t| - 1], i);
    }
  }

  /** A crash is a prefix of a run: whatever a run never violates, no crash point violates either. */
  lemma {:induction false} AcceptedAtEveryCrash(job: Job, store: map<ArtifactId, OwnershipRow>, t: seq<Event>, n: nat)
    requires n <= |t| && Run(job, store, t).Watching?
    ensures Run(job, store, t[..n]).Watching?
  {
    if n < |t| {
      AcceptedAtEveryCrash(job, store, t[..|t| - 1], n);
      assert t[..|t| - 1][..n] == t[..n];
    } else {
      assert t[..n] == t;
    }
  }

  /** Nothing is created before the daemon was seen with nothing resident. */
  lemma {:induction false} CreatesFollowIdle(job: Job, store: map<ArtifactId, OwnershipRow>, t: seq<Event>, i: nat)
    requires i < |t| && t[i].Create? && Run(job, store, t).Watching?
    ensures exists j :: 0 <= j < i && t[j] == SawProcesses(Some([]))
  {
    AcceptedAtEveryCrash(job, store, t, i + 1);
    assert t[..i + 1][..i] == t[..i];
    var j := IdleSince(job, store, t[..i]);
    assert t[j] == SawProcesses(Some([]));
  }

  lemma {:induction false} IdleSince(job: Job, store: map<ArtifactId, OwnershipRow>, t: seq<Event>) returns (j: nat)
    requires Run(job, store, t).Watching? && Run(job, store, t).idle
    ensures j < |t| && t[j] == SawProcesses(Some([]))
  {
    var last := |t| - 1;
    if Run(job, store, t[..last]).idle {
      j := IdleSince(job, store, t[..last]);
    } else {
      j := last;
    }
  }

  /** Every generation on the probe comes after a durable ownership row for that context, with no create, delete or
      other ownership in between. */
  lemma {:induction false} LoadsFollowOwnership(job: Job, store: map<ArtifactId, OwnershipRow>, t: seq<Event>, i: nat)
    requires i < |t| && t[i].Generate? && Run(job, store, t).Watching?
    ensures t[i].name == job.probe
    ensures exists j :: 0 <= j < i && t[j].Own? && t[j].ownership == OwnershipFor(job, t[i].context)
                        && forall k :: j < k < i ==> !t[k].Own? && !t[k].Create? && !t[k].Delete? && !t[k].Generate?
  {
    AcceptedAtEveryCrash(job, store, t, i + 1);
    assert t[..i + 1][..i] == t[..i];
    var j := OwnedSince(job, store, t[..i]);
    assert t[j].Own?;
  }

  lemma {:induction false} OwnedSince(job: Job, store: map<ArtifactId, OwnershipRow>, t: seq<Event>) returns (j: nat)
    requires Run(job, store, t).Watching? && Run(job, store, t).phase.Owned?
    ensures j < |t| && t[j] == Own(OllamaManifest(Run(job, store, t).phase.digest), OwnershipFor(job, Run(job, store, t).phase.context))
    ensures forall k :: j < k < |t| ==> !t[k].Own? && !t[k].Create? && !t[k].Delete? && !t[k].Generate?
  {
    var last := |t| - 1;
    if t[last].Own? {
      j := last;
    } else {
      j := OwnedSince(job, store, t[..last]);
    }
  }

  /** A confirmed creation, and the first later inventory that listed the probe: under this manifest. */
  predicate CreatedAs(job: Job, t: seq<Event>, c: int, v: int, digest: string) {
    && 0 <= c < v < |t|
    && t[c].Create? && t[c].confirmed && t[c].name == job.probe
    && t[v].SawInventory? && DigestIn(t[v].models, job.probe) == Some(digest)
    && forall k :: c < k < v && t[k].SawInventory? ==> DigestIn(t[k].models, job.probe).None?
  }

  /** A durable row that proves an earlier run's ownership of this manifest. */
  predicate ProvenAs(job: Job, t: seq<Event>, j: int, digest: string) {
    0 <= j < |t| && t[j].SawOwnership? && t[j].artifact == OllamaManifest(digest) && t[j].row.Some? && Proves(job, t[j].row.value)
  }

  /** A delete names only the probe and comes straight after an inventory that listed it under a manifest which either
      was the first one seen after a creation that this run confirmed, or is proven by a durable row to be an earlier
      run's. */
  lemma {:induction false} DeletesOnlyItsOwn(job: Job, store: map<ArtifactId, OwnershipRow>, t: seq<Event>, i: nat)
    requires i < |t| && t[i].Delete? && Run(job, store, t).Watching?
    ensures t[i].name == job.probe && i > 0 && t[i - 1].SawInventory? && DigestIn(t[i - 1].models, job.probe).Some?
    ensures var digest := DigestIn(t[i - 1].models, job.probe).value;
            || (exists c, v :: CreatedAs(job, t, c, v, digest) && v < i)
            || (exists j :: ProvenAs(job, t, j, digest) && j < i)
  {
    AcceptedAtEveryCrash(job, store, t, i + 1);
    assert t[..i + 1][..i] == t[..i];
    AcceptedAtEveryCrash(job, store, t, i);
    SeenIsLast(job, store, t[..i]);
    var c, v := DigestOrigin(job, store, t[..i]);
    var digest := DigestIn(t[i - 1].models, job.probe).value;
    if Run(job, store, t[..i]).phase.Leftover? {
      assert ProvenAs(job, t, c, digest);
    } else {
      assert CreatedAs(job, t, c, v, digest);
    }
  }

  lemma {:induction false} SeenIsLast(job: Job, store: map<ArtifactId, OwnershipRow>, t: seq<Event>)
    requires Run(job, store, t).Watching? && Run(job, store, t).seen.Some?
    ensures t != [] && t[|t| - 1].SawInventory? && DigestIn(t[|t| - 1].models, job.probe) == Run(job, store, t).seen
  {
  }

  lemma {:induction false} DigestOrigin(job: Job, store: map<ArtifactId, OwnershipRow>, t: seq<Event>) returns (c: nat, v: nat)
    requires Run(job, store, t).Watching? && !Run(job, store, t).phase.Absent?
    ensures var p := Run(job, store, t).phase;
            if p.Leftover? then ProvenAs(job, t, c, p.digest)
            else if PhaseDigest(p).Some? then CreatedAs(job, t, c, v, PhaseDigest(p).value)
            else c < |t| && t[c].Create? && t[c].confirmed && t[c].name == job.probe
                 && forall k :: c < k < |t| && t[k].SawInventory? ==> DigestIn(t[k].models, job.probe).None?
  {
    hide Proves, DigestIn, OwnershipFor;
    var last := |t| - 1;
    var m := Run(job, store, t[..last]);
    if m.phase.Absent? {
      c, v := last, 0;
    } else {
      c, v := DigestOrigin(job, store, t[..last]);
      if !m.phase.Leftover? && PhaseDigest(m.phase).None? {
        v := last;
      }
    }
  }

  /** The last confirmed creation of a trace, and the manifest first listed under the probe's name after it. */
  predicate LastCreatedAs(job: Job, t: seq<Event>, c: int, v: int, digest: string) {
    CreatedAs(job, t, c, v, digest) && forall k :: c < k < |t| ==> !(t[k].Create? && t[k].confirmed)
  }

  /** `last` is what it says: no creation was confirmed, or the last one had this context and then this manifest. */
  lemma {:induction false} LastCreation(job: Job, store: map<ArtifactId, OwnershipRow>, t: seq<Event>) returns (c: nat, v: nat)
    requires Run(job, store, t).Watching?
    ensures LastMeans(job, t, Run(job, store, t).last, c, v)
    ensures LastFollowsPhase(Run(job, store, t))
  {
    hide DigestIn, Step, LastMeans;
    c, v := 0, 0;
    if t == [] {
      NothingCreated(job, t, c, v);
    } else {
      var last := |t| - 1;
      var m := Run(job, store, t[..last]);
      WatchedBefore(job, m, t[last]);
      c, v := LastCreation(job, store, t[..last]);
      LastAfterStep(job, m, t[last]);
      if t[last].Create? && t[last].confirmed {
        c := last;
        JustCreated(job, t, c, v);
      } else if t[last].SawInventory? && Unidentified(m.phase) {
        JustListed(job, t, c, v, last, m.phase.context);
        v := last;
      } else {
        LastStays(job, t, m.last, c, v);
      }
    }
  }

  /** What the last creation means for a trace. */
  predicate LastMeans(job: Job, t: seq<Event>, last: Option<Creation>, c: int, v: int) {
    match last
    case None => forall k :: 0 <= k < |t| ==> !(t[k].Create? && t[k].confirmed)
    case Some(Creation(context, None)) => LastUnidentified(job, t, c) && t[c].context == context
    case Some(Creation(context, Some(digest))) => LastCreatedAs(job, t, c, v, digest) && t[c].context == context
  }

  predicate LastFollowsPhase(m: Monitor) {
    m.Watching? && ((m.last.Some? && m.last.value.id.None?) <==> Unidentified(m.phase))
    && (Unidentified(m.phase) ==> m.last.value.context == m.phase.context)
  }

  /** Only a confirmed creation, or the first inventory after it, changes `last`. */
  lemma LastAfterStep(job: Job, m: Monitor, e: Event)
    requires LastFollowsPhase(m) && Step(job, m, e).Watching?
    ensures LastFollowsPhase(Step(job, m, e))
    ensures Step(job, m, e).last
            == (if e.Create? && e.confirmed then Some(Creation(e.context, None))
                else if e.SawInventory? && Unidentified(m.phase) then Some(Creation(m.phase.context, DigestIn(e.models, job.probe)))
                else m.last)
    ensures e.Create? ==> e.name == job.probe
  {
    hide DigestIn, Proves, OwnershipFor;
  }

  lemma NothingCreated(job: Job, t: seq<Event>, c: int, v: int)
    requires t == []
    ensures LastMeans(job, t, None, c, v)
  {
  }

  lemma JustCreated(job: Job, t: seq<Event>, c: int, v: int)
    requires c == |t| - 1 >= 0 && t[c].Create? && t[c].confirmed && t[c].name == job.probe
    ensures LastMeans(job, t, Some(Creation(t[c].context, None)), c, v)
  {
  }

  lemma JustListed(job: Job, t: seq<Event>, c: int, v: int, now: int, context: int)
    requires now == |t| - 1 >= 0 && LastMeans(job, t[..now], Some(Creation(context, None)), c, v) && t[now].SawInventory?
    ensures LastMeans(job, t, Some(Creation(context, DigestIn(t[now].models, job.probe))), c, now)
  {
    hide DigestIn;
  }

  lemma LastStays(job: Job, t: seq<Event>, last: Option<Creation>, c: int, v: int)
    requires t != [] && LastMeans(job, t[..|t| - 1], last, c, v)
    requires !(t[|t| - 1].Create? && t[|t| - 1].confirmed)
    requires t[|t| - 1].SawInventory? ==> last.None? || last.value.id.Some?
    ensures LastMeans(job, t, last, c, v)
  {
    hide DigestIn;
  }

  /** The last confirmed creation, which no inventory has listed yet. */
  predicate LastUnidentified(job: Job, t: seq<Event>, c: int) {
    && 0 <= c < |t| && t[c].Create? && t[c].confirmed && t[c].name == job.probe
    && forall k :: c < k < |t| ==> !(t[k].Create? && t[k].confirmed)
                                   && (t[k].SawInventory? ==> DigestIn(t[k].models, job.probe).None?)
  }

  /** The durable table holds a row that proves the manifest of every owned, used or recognised probe. */
  predicate HoldsProof(job: Job, m: Monitor)
    requires m.Watching?
  {
    && (m.phase.Created? || m.phase.Owned? || m.phase.Used? ==> m.phase.context in job.contexts)
    && (m.phase.Owned? || m.phase.Used? || m.phase.Leftover? ==>
          var a := OllamaManifest(m.phase.digest);
          a in m.store && Proves(job, m.store[a]))
  }

  /** Wherever a crash leaves an owned, used or recognised probe, the durable store holds a row that proves it, so
      the next run with the same job recognises that exact manifest. */
  lemma {:induction false} CrashLeavesProof(job: Job, store: map<ArtifactId, OwnershipRow>, t: seq<Event>)
    requires Run(job, store, t).Watching?
    ensures HoldsProof(job, Run(job, store, t))
  {
    hide Step, HoldsProof;
    if t == [] {
      NothingToProve(job, store);
    } else {
      WatchedBefore(job, Run(job, store, t[..|t| - 1]), t[|t| - 1]);
      CrashLeavesProof(job, store, t[..|t| - 1]);
      StepKeepsProof(job, Run(job, store, t[..|t| - 1]), t[|t| - 1]);
    }
  }

  lemma NothingToProve(job: Job, store: map<ArtifactId, OwnershipRow>)
    ensures HoldsProof(job, Start(store))
  {
  }

  lemma WatchedBefore(job: Job, m: Monitor, e: Event)
    requires Step(job, m, e).Watching?
    ensures m.Watching?
  {
  }

  lemma StepKeepsProof(job: Job, m: Monitor, e: Event)
    requires m.Watching? && HoldsProof(job, m) && Step(job, m, e).Watching?
    ensures HoldsProof(job, Step(job, m, e))
  {
    hide DigestIn;
  }

  /** When a run ends with no probe left, every confirmed creation was followed by a confirmed delete. */
  lemma {:induction false} NothingLeftUndeleted(job: Job, store: map<ArtifactId, OwnershipRow>, t: seq<Event>, i: nat)
    requires i < |t| && t[i].Create? && t[i].confirmed
    requires Run(job, store, t).Watching? && Run(job, store, t).phase.Absent?
    ensures exists j :: i < j < |t| && t[j] == Delete(job.probe, true)
  {
    var last := |t| - 1;
    if t[last].Delete? && t[last].confirmed {
      assert t[last] == Delete(job.probe, true);
    } else {
      assert i < last;
      NothingLeftUndeleted(job, store, t[..last], i);
      var j :| i < j < last && t[..last][j] == Delete(job.probe, true);
      assert t[j] == Delete(job.probe, true);
    }
  }
}
