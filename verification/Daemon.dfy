/** The world outside one ARA process: the Ollama daemon, the memory walls, and the durable artifact table. Each call
    may answer anything or raise. The trace records observations and requests in order, and a
    monitor of the caller's choice watches it. */
module Daemon {
  import opened Wrappers
  import opened Evidence
  import opened Characterization
  import opened Events

  class World<M(!new)> {
    ghost var trace: seq<Event>
    var artifacts: map<ArtifactId, OwnershipRow>

    /** A monitor of the trace: it starts in `initial` and takes one `step` per event. */
    ghost const step: (M, Event) -> M
    ghost const initial: M
    ghost var state: M

    /** How many calls have raised so far. */
    ghost var faults: nat

    ghost predicate Valid()
      reads this
    {
      state == Fold(step, initial, trace)
    }

    /** One process starts with the artifact table that earlier processes left. */
    constructor (artifacts: map<ArtifactId, OwnershipRow>, ghost step: (M, Event) -> M, ghost initial: M)
      ensures Valid() && trace == [] && this.artifacts == artifacts && this.step == step && this.initial == initial
    {
      this.artifacts, this.step, this.initial := artifacts, step, initial;
      trace, state, faults := [], initial, 0;
    }

    ghost method Log(e: Event)
      requires Valid()
      modifies this`trace, this`state
      ensures Valid() && After(old(trace), old(state), e)
    {
      trace, state := trace + [e], step(state, e);
      assert trace[..|trace| - 1] == old(trace);
    }

    /** The state one event later. */
    ghost predicate After(t: seq<Event>, m: M, e: Event)
      reads this
    {
      trace == t + [e] && state == Take(step, m, e)
    }

    /** One call more has raised, if this one did. */
    ghost predicate Counted(n: nat, raised: bool)
      reads this
    {
      faults == n + if raised then 1 else 0
    }

    ghost predicate Same(t: seq<Event>, m: M)
      reads this
    {
      trace == t && state == m
    }

    method RuntimeAuthority() returns (r: Outcome<Authority>)
      requires Valid()
      modifies this`trace, this`state, this`faults
      ensures Valid() && Counted(old(faults), r.Raised?)
      ensures if r.Ok? then After(old(trace), old(state), SawAuthority(r.value)) else Same(old(trace), old(state))
    {
      r := *;
      if r.Raised? { faults := faults + 1; }
      if r.Ok? { Log(SawAuthority(r.value)); }
    }

    method Inventory() returns (r: Outcome<Option<seq<Model>>>)
      requires Valid()
      modifies this`trace, this`state, this`faults
      ensures Valid() && Counted(old(faults), r.Raised?)
      ensures if r.Ok? then After(old(trace), old(state), SawInventory(r.value)) else Same(old(trace), old(state))
    {
      r := *;
      if r.Raised? { faults := faults + 1; }
      if r.Ok? { Log(SawInventory(r.value)); }
    }

    method Processes() returns (r: Outcome<Option<seq<Process>>>)
      requires Valid()
      modifies this`trace, this`state, this`faults
      ensures Valid() && Counted(old(faults), r.Raised?)
      ensures if r.Ok? then After(old(trace), old(state), SawProcesses(r.value)) else Same(old(trace), old(state))
    {
      r := *;
      if r.Raised? { faults := faults + 1; }
      if r.Ok? { Log(SawProcesses(r.value)); }
    }

    method Snapshot() returns (r: Outcome<MemorySnapshot>)
      requires Valid()
      modifies this`trace, this`state, this`faults
      ensures Valid() && Counted(old(faults), r.Raised?)
      ensures if r.Ok? then After(old(trace), old(state), SawSnapshot(r.value)) else Same(old(trace), old(state))
    {
      r := *;
      if r.Raised? { faults := faults + 1; }
      if r.Ok? { Log(SawSnapshot(r.value)); }
    }

    // Requests: a raised request is traced as unconfirmed, since it may or may not have taken effect.

    method CreateModel(name: string, base: string, context: int) returns (r: Outcome<bool>)
      requires Valid()
      modifies this`trace, this`state, this`faults
      ensures Valid() && Counted(old(faults), r.Raised?)
      ensures After(old(trace), old(state), Create(name, base, context, r == Ok(true)))
    {
      r := *;
      if r.Raised? { faults := faults + 1; }
      Log(Create(name, base, context, r == Ok(true)));
    }

    method ProbeGenerate(name: string, context: int) returns (r: Outcome<bool>)
      requires Valid()
      modifies this`trace, this`state, this`faults
      ensures Valid() && Counted(old(faults), r.Raised?)
      ensures After(old(trace), old(state), Generate(name, context, r == Ok(true)))
    {
      r := *;
      if r.Raised? { faults := faults + 1; }
      Log(Generate(name, context, r == Ok(true)));
    }

    method LoadModel(name: string, expire: bool) returns (r: Outcome<bool>)
      requires Valid()
      modifies this`trace, this`state, this`faults
      ensures Valid() && Counted(old(faults), r.Raised?)
      ensures After(old(trace), old(state), Load(name, expire, r == Ok(true)))
    {
      r := *;
      if r.Raised? { faults := faults + 1; }
      Log(Load(name, expire, r == Ok(true)));
    }

    method WarmForRun(name: string, context: int) returns (r: Outcome<bool>)
      requires Valid()
      modifies this`trace, this`state, this`faults
      ensures Valid() && Counted(old(faults), r.Raised?)
      ensures After(old(trace), old(state), Warm(name, context, r == Ok(true)))
    {
      r := *;
      if r.Raised? { faults := faults + 1; }
      Log(Warm(name, context, r == Ok(true)));
    }

    method RunBody(name: string, context: int) returns (r: Outcome<bool>)
      requires Valid()
      modifies this`trace, this`state, this`faults
      ensures Valid() && Counted(old(faults), r.Raised?)
      ensures After(old(trace), old(state), Request(name, context))
    {
      r := *;
      if r.Raised? { faults := faults + 1; }
      Log(Request(name, context));
    }

    method OpenAiProbe(name: string) returns (r: Outcome<bool>)
      requires Valid()
      modifies this`trace, this`state, this`faults
      ensures Valid() && Counted(old(faults), r.Raised?)
      ensures After(old(trace), old(state), CompletionProbe(name, r == Ok(true)))
    {
      r := *;
      if r.Raised? { faults := faults + 1; }
      Log(CompletionProbe(name, r == Ok(true)));
    }

    method DeleteModel(name: string) returns (r: Outcome<bool>)
      requires Valid()
      modifies this`trace, this`state, this`faults
      ensures Valid() && Counted(old(faults), r.Raised?)
      ensures After(old(trace), old(state), Delete(name, r == Ok(true)))
    {
      r := *;
      if r.Raised? { faults := faults + 1; }
      Log(Delete(name, r == Ok(true)));
    }

    method RecordServingClaim(claim: ServingClaim) returns (r: Outcome<bool>)
      requires Valid()
      modifies this`trace, this`state, this`faults
      ensures Valid() && Counted(old(faults), r.Raised?)
      ensures After(old(trace), old(state), RecordServing(claim, r.Ok?))
    {
      r := *;
      if r.Raised? { faults := faults + 1; }
      Log(RecordServing(claim, r.Ok?));
    }

    /** `db.upsert_model_artifact`: the row is committed before the call returns; a raise leaves the table unchanged. */
    method UpsertArtifact(artifact: ArtifactId, row: OwnershipRow) returns (r: Outcome<bool>)
      requires Valid()
      modifies this
      ensures Valid() && Counted(old(faults), r.Raised?)
      ensures r.Ok? ==> After(old(trace), old(state), Own(artifact, row)) && artifacts == old(artifacts)[artifact := row]
      ensures r.Raised? ==> Same(old(trace), old(state)) && artifacts == old(artifacts)
    {
      r := *;
      if r.Raised? { faults := faults + 1; }
      if r.Ok? {
        artifacts := artifacts[artifact := row];
        Log(Own(artifact, row));
      }
    }

    method ReadArtifact(artifact: ArtifactId) returns (r: Outcome<Option<OwnershipRow>>)
      requires Valid()
      modifies this`trace, this`state, this`faults
      ensures Valid() && Counted(old(faults), r.Raised?)
      ensures if r.Ok? then After(old(trace), old(state), SawOwnership(artifact, r.value)) else Same(old(trace), old(state))
      ensures r.Ok? ==> r.value == if artifact in artifacts then Some(artifacts[artifact]) else None
    {
      var raised: bool := *;
      if raised {
        faults := faults + 1;
        return Raised(StoreUnavailable);
      }
      r := Ok(if artifact in artifacts then Some(artifacts[artifact]) else None);
      Log(SawOwnership(artifact, r.value));
    }

    /** `db.save_characterization`: a raise means that nothing was committed. */
    method SaveCharacterization(row: Row) returns (r: Outcome<bool>)
      requires Valid()
      modifies this`trace, this`state, this`faults
      ensures Valid() && Counted(old(faults), r.Raised?)
      ensures if r.Ok? then After(old(trace), old(state), Saved(row)) else Same(old(trace), old(state))
    {
      r := *;
      if r.Raised? { faults := faults + 1; }
      if r.Ok? { Log(Saved(row)); }
    }

    /** `_ollama_artifact_id(name)`: the manifest identity in one fresh inventory. */
    method ArtifactIdOf(name: string) returns (r: Outcome<Option<ArtifactId>>, ghost models: Option<seq<Model>>)
      requires Valid()
      modifies this`trace, this`state, this`faults
      ensures Valid() && Counted(old(faults), r.Raised?)
      ensures if r.Ok? then After(old(trace), old(state), SawInventory(models)) else Same(old(trace), old(state))
      ensures r.Ok? ==> r.value == InventoryId(models, name)
    {
      models := None;
      var inventory :- Inventory();
      models := inventory;
      r := Ok(InventoryId(inventory, name));
    }

    /** `_delete_exact_ollama_model`: a delete is requested only straight after the expected identity was observed.
        `steps` counts the events: none on a raise, one when the identity differed, two when a delete was requested. */
    method DeleteExact(name: string, expected: ArtifactId)
      returns (r: Outcome<Option<CleanupRefusal>>, ghost steps: nat, ghost models: Option<seq<Model>>, ghost confirmed: bool)
      requires Valid()
      modifies this`trace, this`state, this`faults
      ensures Valid() && steps <= 2 && Counted(old(faults), r.Raised?)
      ensures r.Ok? && r.value.Some? ==> r.value.value == if steps == 1 then IdentityChanged else DeleteFailed
      ensures steps == 0 ==> r.Raised? && Same(old(trace), old(state))
      ensures steps == 1 ==> r == Ok(Some(IdentityChanged)) && InventoryId(models, name) != Some(expected)
                             && After(old(trace), old(state), SawInventory(models))
      ensures steps == 2 ==> (r == Ok(None) <==> confirmed) && InventoryId(models, name) == Some(expected)
                             && After(old(trace) + [SawInventory(models)], Take(step, old(state), SawInventory(models)),
                                      Delete(name, confirmed))
    {
      steps, confirmed := 0, false;
      var id;
      id, models := ArtifactIdOf(name);
      if id.Raised? { return Raised(id.error), steps, models, confirmed; }
      steps := 1;
      if id.value != Some(expected) {
        return Ok(Some(IdentityChanged)), steps, models, confirmed;
      }
      var deleted := DeleteModel(name);
      steps, confirmed := 2, deleted == Ok(true);
      if deleted.Raised? { return Raised(deleted.error), steps, models, confirmed; }
      r := Ok(if deleted.value then None else Some(DeleteFailed));
    }
  }
}
