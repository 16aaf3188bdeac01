/** The life of one governed serving model, watched over a whole trace of the serve setup. */
module ServeLifecycle {
  import opened Wrappers
  import opened Evidence
  import opened Characterization
  import opened Events

  /** One handoff: the served name and its base, the authority it was admitted under, and the manifest an earlier
      run already owns, if any. */
  datatype ServeJob = ServeJob(
    served: string, model: string, baseArtifact: ArtifactId, context: int, endpoint: Option<string>,
    authority: Authority, owned: Option<ArtifactId>)

  function ClaimFor(job: ServeJob, servedArtifact: ArtifactId): ServingClaim {
    ServingClaim(job.served, job.model, job.context, job.endpoint, job.baseArtifact, servedArtifact)
  }

  /** `Made` is this run's own confirmed creation, with the manifest first seen under the name after it. */
  datatype ServePhase = Start | Made(id: Option<ArtifactId>) | Recorded

  /** The second attestation, one observation at a time, straight after the public-protocol probe. */
  datatype Attested = NotYet | Probed | AuthorityAgain | BaseAgain | ServedAgain | ResidentAgain

  /** `clear`: residency was admitted before anything was created; `seen`: the served identity in the event just before. */
  datatype ServeMonitor =
    | ServeViolated
    | Serving(phase: ServePhase, clear: bool, seen: Option<ArtifactId>, attested: Attested)

  function ServedId(job: ServeJob, p: ServePhase): Option<ArtifactId> {
    match p
    case Start => job.owned
    case Made(id) => id
    case Recorded => None
  }

  function TargetsOf(job: ServeJob, id: Option<ArtifactId>): seq<Target> {
    if id.Some? && id.value.OllamaManifest? then [Target(job.served, Some(id.value.digest))] else []
  }

  function ServeStep(job: ServeJob, m: ServeMonitor, e: Event): ServeMonitor {
    if m.ServeViolated? then ServeViolated
    else
      var id := ServedId(job, m.phase);
      match e
      case SawInventory(models) =>
        var seen := InventoryId(models, job.served);
        m.(phase := if m.phase == Made(None) then Made(seen) else m.phase,
           seen := seen,
           attested :=
             if m.attested == AuthorityAgain && InventoryId(models, job.model) == Some(job.baseArtifact) then BaseAgain
             else if m.attested == BaseAgain && id.Some? && seen == id then ServedAgain
             else NotYet)
      case SawProcesses(processes) =>
        m.(clear := m.clear || ResidencyRefusal(processes, TargetsOf(job, job.owned), Some(job.context), false).None?,
           seen := None,
           attested :=
             if m.attested == ServedAgain && ResidencyRefusal(processes, TargetsOf(job, id), Some(job.context), true).None?
             then ResidentAgain else NotYet)
      case SawAuthority(a) =>
        m.(seen := None, attested := if m.attested == Probed && a == job.authority then AuthorityAgain else NotYet)
      case Create(name, base, context, confirmed) =>
        if m.phase.Start? && job.owned.None? && m.clear && name == job.served && base == job.model && context == job.context
        then m.(phase := if confirmed then Made(None) else Start, seen := None, attested := NotYet)
        else ServeViolated
      case Load(name, expire, _) =>
        if name == job.served && !expire && m.clear && id.Some? && m.seen == id
        then m.(seen := None, attested := NotYet) else ServeViolated
      case CompletionProbe(name, confirmed) =>
        if name == job.served && id.Some?
        then m.(seen := None, attested := if confirmed then Probed else NotYet) else ServeViolated
      case RecordServing(claim, confirmed) =>
        if m.attested == ResidentAgain && id.Some? && claim == ClaimFor(job, id.value)
        then m.(phase := if confirmed then Recorded else m.phase, seen := None, attested := NotYet)
        else ServeViolated
      case Delete(name, _) =>
        if name == job.served && m.phase.Made? && id.Some? && m.seen == id
        then m.(seen := None, attested := NotYet) else ServeViolated
      case _ => ServeViolated
  }

  function ServeRun(job: ServeJob, t: seq<Event>): ServeMonitor {
    if t == [] then Serving(Start, false, None, NotYet)
    else ServeStep(job, ServeRun(job, t[..|t| - 1]), t[|t| - 1])
  }

  /** A world watched by this monitor is in the state that the run of its trace gives. */
  lemma {:induction false} FoldIsServeRun(step: (ServeMonitor, Event) -> ServeMonitor, job: ServeJob, t: seq<Event>)
    requires forall m, e {:trigger Take(step, m, e)} :: Take(step, m, e) == ServeStep(job, m, e)
    ensures Fold(step, Serving(Start, false, None, NotYet), t) == ServeRun(job, t)
  {
    if t != [] {
      FoldIsServeRun(step, job, t[..|t| - 1]);
      assert Take(step, ServeRun(job, t[..|t| - 1]), t[|t| - 1]) == ServeStep(job, ServeRun(job, t[..|t| - 1]), t[|t| - 1]);
    }
  }

  // ---------- what acceptance means ----------

  lemma {:induction false} ServeAcceptedAtEveryFault(job: ServeJob, t: seq<Event>, n: nat)
    requires n <= |t| && ServeRun(job, t).Serving?
    ensures ServeRun(job, t[..n]).Serving?
  {
    if n < |t| {
      ServeAcceptedAtEveryFault(job, t[..|t| - 1], n);
      assert t[..|t| - 1][..n] == t[..n];
    } else {
      assert t[..n] == t;
    }
  }

  /** Five consecutive observations: the public probe answered, and then authority, base manifest, served manifest
      and sole residency were all seen again. */
  predicate SecondAttestation(job: ServeJob, t: seq<Event>, i: int, id: ArtifactId) {
    && 5 <= i <= |t|
    && t[i - 5] == CompletionProbe(job.served, true)
    && t[i - 4] == SawAuthority(job.authority)
    && t[i - 3].SawInventory? && InventoryId(t[i - 3].models, job.model) == Some(job.baseArtifact)
    && t[i - 2].SawInventory? && InventoryId(t[i - 2].models, job.served) == Some(id)
    && t[i - 1].SawProcesses?
    && ResidencyRefusal(t[i - 1].processes, TargetsOf(job, Some(id)), Some(job.context), true).None?
  }

  /** Ownership is recorded only straight after the complete second attestation, for the attested manifest. */
  lemma {:induction false} OwnershipFollowsAttestation(job: ServeJob, t: seq<Event>, i: nat)
    requires i < |t| && t[i].RecordServing? && ServeRun(job, t).Serving?
    ensures t[i].claim == ClaimFor(job, t[i].claim.servedArtifact)
    ensures SecondAttestation(job, t, i, t[i].claim.servedArtifact)
  {
    ServeAcceptedAtEveryFault(job, t, i + 1);
    assert t[..i + 1][..i] == t[..i];
    hide SecondAttestation, InventoryId, ResidencyRefusal, TargetsOf;
    AttestedLooksBack(job, t[..i]);
    AttestationInPrefix(job, t, i, t[i].claim.servedArtifact);
  }

  lemma AttestationInPrefix(job: ServeJob, t: seq<Event>, i: nat, id: ArtifactId)
    requires i <= |t|
    ensures SecondAttestation(job, t[..i], i, id) <==> SecondAttestation(job, t, i, id)
  {
  }

  /** How far back the attestation progress reaches. */
  lemma {:induction false} AttestedLooksBack(job: ServeJob, t: seq<Event>)
    requires ServeRun(job, t).Serving?
    ensures var m := ServeRun(job, t);
            var n := |t|;
            var id := ServedId(job, m.phase);
            match m.attested
            case NotYet => true
            case Probed => n >= 1 && t[n - 1] == CompletionProbe(job.served, true) && id.Some?
            case AuthorityAgain =>
              n >= 2 && t[n - 2] == CompletionProbe(job.served, true) && t[n - 1] == SawAuthority(job.authority) && id.Some?
            case BaseAgain =>
              n >= 3 && t[n - 3] == CompletionProbe(job.served, true) && t[n - 2] == SawAuthority(job.authority) && id.Some?
              && t[n - 1].SawInventory? && InventoryId(t[n - 1].models, job.model) == Some(job.baseArtifact)
            case ServedAgain =>
              n >= 4 && t[n - 4] == CompletionProbe(job.served, true) && t[n - 3] == SawAuthority(job.authority)
              && t[n - 2].SawInventory? && InventoryId(t[n - 2].models, job.model) == Some(job.baseArtifact)
              && id.Some? && t[n - 1].SawInventory? && InventoryId(t[n - 1].models, job.served) == id
            case ResidentAgain => id.Some? && SecondAttestation(job, t, n, id.value)
  {
    if t != [] {
      AttestedLooksBack(job, t[..|t| - 1]);
    }
  }

  /** A delete names only the served model, and only when this run confirmed creating it, no ownership was recorded,
      and the event just before saw the very manifest that was first seen after that creation. */
  lemma {:induction false} ServeDeletesOnlyItsOwn(job: ServeJob, t: seq<Event>, i: nat)
    requires i < |t| && t[i].Delete? && ServeRun(job, t).Serving?
    ensures t[i].name == job.served && job.owned.None?
    ensures i > 0 && t[i - 1].SawInventory?
    ensures exists c, v :: MadeAt(job, t, c, v) && v < i
                           && InventoryId(t[i - 1].models, job.served) == InventoryId(t[v].models, job.served) != None
    ensures forall k :: 0 <= k < i ==> !(t[k].RecordServing? && t[k].confirmed)
  {
    hide InventoryId, ResidencyRefusal, TargetsOf;
    ServeAcceptedAtEveryFault(job, t, i + 1);
    assert t[..i + 1][..i] == t[..i];
    SeenIsJustBefore(job, t[..i]);
    var c, v := MadeOrigin(job, t[..i]);
    assert MadeAt(job, t, c, v);
  }

  /** A confirmed creation and the first later inventory that listed the created name. */
  predicate MadeAt(job: ServeJob, t: seq<Event>, c: int, v: int) {
    && 0 <= c < v < |t|
    && t[c] == Create(job.served, job.model, job.context, true)
    && t[v].SawInventory? && InventoryId(t[v].models, job.served).Some?
    && forall k :: c < k < v && t[k].SawInventory? ==> InventoryId(t[k].models, job.served).None?
  }

  lemma {:induction false} SeenIsJustBefore(job: ServeJob, t: seq<Event>)
    requires ServeRun(job, t).Serving? && ServeRun(job, t).seen.Some?
    ensures t != [] && t[|t| - 1].SawInventory? && InventoryId(t[|t| - 1].models, job.served) == ServeRun(job, t).seen
  {
  }

  lemma {:induction false} MadeOrigin(job: ServeJob, t: seq<Event>) returns (c: nat, v: nat)
    requires ServeRun(job, t).Serving? && ServeRun(job, t).phase.Made?
    ensures job.owned.None?
    ensures c < |t| && t[c] == Create(job.served, job.model, job.context, true)
    ensures var id := ServeRun(job, t).phase.id;
            if id.Some? then MadeAt(job, t, c, v) && InventoryId(t[v].models, job.served) == id
            else forall k :: c < k < |t| && t[k].SawInventory? ==> InventoryId(t[k].models, job.served).None?
    ensures forall k :: 0 <= k < |t| ==> !(t[k].RecordServing? && t[k].confirmed)
  {
    hide FindModel, ResidencyRefusal;
    var last := |t| - 1;
    var m := ServeRun(job, t[..last]);
    if m.phase.Made? {
      c, v := MadeOrigin(job, t[..last]);
      if m.phase.id.None? {
        v := last;
      }
    } else {
      c, v := last, 0;
      StartHasNoRecord(job, t[..last]);
    }
  }

  lemma {:induction false} StartHasNoRecord(job: ServeJob, t: seq<Event>)
    requires ServeRun(job, t).Serving? && ServeRun(job, t).phase.Start?
    ensures forall k :: 0 <= k < |t| ==> !(t[k].RecordServing? && t[k].confirmed)
  {
    if t != [] {
      StartHasNoRecord(job, t[..|t| - 1]);
    }
  }
}
