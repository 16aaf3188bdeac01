/** Optional values and outcomes that may carry a raised exception. */
module Wrappers {

  datatype Option<+T> = None | Some(value: T) {

    function GetOr(default: T): T {
      if Some? then value else default
    }
  }

  /** What a raise says: an interrupt or transport fault of the called service, or a named refusal of the caller. */
  datatype Fault =
    | CallRaised | StoreUnavailable | IntegrityError | IoError
    | AuthorityChanged | BaseManifestChanged | ProbeUnidentified | ResidencyBlocked | ProbeCleanupFailed
    | ManifestChanged | HeadroomRefused | ResidencyDrift | WarmupUnconfirmed

  /** The outcome of a step that can raise: `:-` propagates `Raised` as the source's exceptions propagate. */
  datatype Outcome<+T> = Ok(value: T) | Raised(error: Fault) {

    predicate IsFailure() {
      Raised?
    }

    function PropagateFailure<U>(): Outcome<U>
      requires Raised?
    {
      Raised(error)
    }

    function Extract(): T
      requires Ok?
    {
      value
    }
  }

  lemma Inhabited<T>(s: set<T>)
    ensures s == {} || exists x :: x in s
  {
    if forall x :: x !in s {
      assert s == {};
    }
  }
}
