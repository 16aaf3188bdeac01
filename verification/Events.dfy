/** What ARA observes of the Ollama daemon and asks of it, and the checks it makes on each observation. */
module Events {
  import opened Wrappers
  import opened Evidence
  import opened Characterization

  /** The constant columns that mark a probe-ownership row. */
  datatype Stamp = Stamp(source: string, format: string, schema: string, owner: string, purpose: string)

  const PROBE_STAMP := Stamp("ollama", "gguf", "ollama-characterization-probe-v1", "ara", "characterization_probe")

  /** The durable row that binds one probe manifest to the operation that created it. */
  datatype OwnershipRow = OwnershipRow(
    logicalModel: string,
    confidence: Confidence,
    stamp: Stamp,
    probe: string,
    baseModel: string,
    baseArtifact: ArtifactId,
    context: Field,
    endpoint: Option<string>)

  datatype ServingClaim = ServingClaim(
    served: string, model: string, context: int, endpoint: Option<string>, baseArtifact: ArtifactId, servedArtifact: ArtifactId)

  /** Observations carry the answer; requests carry whether the daemon confirmed them. An unconfirmed request may or
      may not have taken effect. */
  datatype Event =
    | SawAuthority(authority: Authority)
    | SawInventory(models: Option<seq<Model>>)
    | SawProcesses(processes: Option<seq<Process>>)
    | SawSnapshot(snapshot: MemorySnapshot)
    | SawOwnership(artifact: ArtifactId, row: Option<OwnershipRow>)
    | Create(name: string, base: string, context: int, confirmed: bool)
    | Generate(name: string, context: int, confirmed: bool)
    | Load(name: string, expire: bool, confirmed: bool)
    | Warm(name: string, context: int, confirmed: bool)
    | Request(name: string, context: int)
    | CompletionProbe(name: string, confirmed: bool)
    | Delete(name: string, confirmed: bool)
    | Own(artifact: ArtifactId, ownership: OwnershipRow)
    | RecordServing(claim: ServingClaim, confirmed: bool)
    | Saved(record: Row)

  /** Why a model was left in place. */
  datatype CleanupRefusal =
    | IdentityChanged | ResidencyUnknown | ResidencyChanged | ExpiryFailed | ExpiryUnknown | StillResident | DeleteFailed
    | DigestUnavailable | NotProvenOwned

  /** One monitor step, named so that proofs meet it only where an event is logged. */
  ghost function Take<M>(step: (M, Event) -> M, m: M, e: Event): M {
    step(m, e)
  }

  /** A monitor's state after a whole trace. */
  ghost function Fold<M>(step: (M, Event) -> M, initial: M, t: seq<Event>): M {
    if t == [] then initial else step(Fold(step, initial, t[..|t| - 1]), t[|t| - 1])
  }

  // ---------- name resolution ----------

  predicate EndsWith(s: string, suffix: string) {
    |suffix| <= |s| && s[|s| - |suffix|..] == suffix
  }

  function Leaf(name: string): string {
    if '/' !in name then name else Leaf(name[1..])
  }

  /** The other spelling of an implicit `:latest` pair. */
  function LatestAlias(name: string): Option<string> {
    var leaf := Leaf(name);
    if EndsWith(leaf, ":latest") && EndsWith(name, ":latest") then Some(name[..|name| - |":latest"|])
    else if ':' !in leaf then Some(name + ":latest")
    else None
  }

  function FirstNamed(models: seq<Model>, name: string): Option<Model> {
    if models == [] then None
    else if models[0].name == name then Some(models[0])
    else FirstNamed(models[1..], name)
  }

  function FindModel(models: seq<Model>, name: string): Option<Model> {
    var exact := FirstNamed(models, name);
    if exact.Some? || LatestAlias(name).None? then exact else FirstNamed(models, LatestAlias(name).value)
  }

  function InventoryId(models: Option<seq<Model>>, name: string): Option<ArtifactId> {
    var m := if models.Some? then FindModel(models.value, name) else None;
    if m.Some? then ArtifactOf(m.value) else None
  }

  // ---------- residency admission ----------

  datatype ResidencyError = Uninspectable | NotResident | Blocked

  /** A reported name that stands for `name`, with or without the implicit tag. */
  predicate SameName(reported: string, name: string) {
    reported == name || reported == name + ":latest"
  }

  predicate Answers(p: Process, name: string) {
    SameName(p.name, name)
  }

  /** One allowed resident target: a name and the manifest digest it must carry. */
  datatype Target = Target(name: string, digest: Option<string>)

  predicate IsTarget(p: Process, targets: seq<Target>, context: Option<int>) {
    && (exists t :: t in targets && Answers(p, t.name) && p.digest == t.digest)
    && p.effectiveContext == context
    && p.size.Some? && p.size.value > 0
    && p.sizeVram.Some? && p.sizeVram.value >= 0
  }

  /** A runner of one target, loaded at this context. */
  predicate RunsAs(p: Process, target: Target, context: int) {
    && SameName(p.name, target.name) && p.digest == target.digest && p.effectiveContext == Some(context)
    && p.size.Some? && p.size.value > 0 && p.sizeVram.Some? && p.sizeVram.value >= 0
  }

  /** `_ollama_residency_error`; no targets means that nothing may be resident. */
  function ResidencyRefusal(
    processes: Option<seq<Process>>, targets: seq<Target>, context: Option<int>, requireTarget: bool): Option<ResidencyError>
  {
    if processes.None? then Some(Uninspectable)
    else if processes.value == [] then (if requireTarget then Some(NotResident) else None)
    else if |processes.value| == 1 && IsTarget(processes.value[0], targets, context) then None
    else Some(Blocked)
  }
}
