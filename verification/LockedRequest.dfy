/** The commands that take the setup lock of an Ollama endpoint, each with its whole trace placed inside or outside of it. */
module LockedRequest {
  import opened Wrappers
  import opened Events
  import opened Daemon
  import opened GovernedRequest
  import ServeLifecycle
  import ServeSetup
  import Characterization
  import Characterize
  import ProbeLifecycle
  import ProbeRamp
  import RampEvidence
  import WatchedProbe
  import Locking

  /** `with ollama_setup_lock(endpoint.url, …):` around the governed request; `None` is `OllamaSetupBusy`. Whatever the
      request saw and asked, and however it ended, it did so inside the lock of its endpoint, in this order; when the
      attempt was refused, it saw and asked nothing. */
  method GovernedUnderLock<M(!new)>(
    sys: Locking.System<Event>, w: World<M>, pid: Locking.Pid, endpoint: string, hash: NameHash, g: Governed)
    returns (r: Option<Outcome<bool>>, fd: Locking.Fd, ghost fault: bool, ghost attempt: seq<Locking.Step<Event>>,
             ghost before: seq<Event>, ghost during: seq<Event>, ghost after: seq<Event>)
    requires sys.Valid() && w.Valid()
    modifies sys, w`trace, w`state, w`faults
    ensures sys.Valid() && w.Valid() && w.trace == old(w.trace) + before + during + after
    ensures Locking.Tried(old(sys.history), sys.history, attempt, fd, Locking.EndpointPath(endpoint), fault, r.Some?)
    ensures Locking.Gone(sys.history, sys.state, fd, Locking.EndpointPath(endpoint), before + during + after)
    ensures r.None? ==> before + during + after == []
    ensures r.Some? ==> w.faults >= old(w.faults) && Governs(r.value, before, during, after, hash, g, w.faults > old(w.faults))
  {
    hide Fold, Locking.Run, Locking.Gone, Locking.ActsOf, Locking.PathOf, Locking.Consistent, Governs;
    before, during, after := [], [], [];
    var entered;
    entered, fd, fault, attempt := sys.Enter(pid, Locking.EndpointPath(endpoint));
    if entered {
      var outcome;
      outcome, before, during, after := GovernedOllamaRequest(w, hash, g);
      r := Some(outcome);
    } else {
      r := None;
      assert before + during + after == [] && w.trace == old(w.trace) + before + during + after;
    }
    sys.Finish(pid, Locking.EndpointPath(endpoint), fd, entered, before + during + after);
  }

  /** The characterization: preparation, ramp and cleanup are inside the lock; only the last two re-attestations and the save
      come after it. */
  method CharacterizeUnderLock(
    sys: Locking.System<Event>, w: World<ProbeLifecycle.Monitor>, pid: Locking.Pid, endpoint: string, c: Characterize.Command)
    returns (r: Option<Outcome<Characterize.CharacterizeEnd>>, fd: Locking.Fd, ghost fault: bool,
             ghost attempt: seq<Locking.Step<Event>>, ghost inside: seq<Event>, ghost outside: seq<Event>,
             ghost obs: seq<RampEvidence.RungObservation>, ghost probe: Option<Characterization.ProbeTarget>, ghost steps: seq<Event>)
    requires sys.Valid() && WatchedProbe.Tracks(w, c.job) && Characterize.Ready(c) && c.job.endpoint == Some(endpoint)
    requires w.trace == [] && w.initial == ProbeLifecycle.Start(w.artifacts)
    modifies sys, w
    ensures sys.Valid() && w.trace == inside + outside && Characterize.LooksAndSaves(outside)
    ensures Locking.Tried(old(sys.history), sys.history, attempt, fd, Locking.EndpointPath(endpoint), fault, r.Some?)
    ensures Locking.Gone(sys.history, sys.state, fd, Locking.EndpointPath(endpoint), inside)
    ensures r.None? ==> w.trace == []
    ensures r.Some? ==> Characterize.Explained(c, old(w.artifacts), r.value, w.trace, steps, obs, probe,
                                               ProbeLifecycle.Run(c.job, old(w.artifacts), w.trace), w.faults > old(w.faults))
  {
    hide Locking.Run, Locking.Gone, Locking.ActsOf, Locking.PathOf, Locking.Consistent, Characterize.Prepared, Characterize.Completed,
      Characterize.RowFor, Characterize.Failure, RampEvidence.RampRun, Characterize.AllObserved, Characterize.LastTried, Characterize.Ready,
      ProbeLifecycle.Step;
    Characterize.RampIsReady(c);
    inside, outside, obs, probe, steps := [], [], [], None, [];
    var entered;
    entered, fd, fault, attempt := sys.Enter(pid, Locking.EndpointPath(endpoint));
    var prov := new ProbeRamp.Provenance();
    var ramp, measured := Raised(CallRaised), (None, []);
    if entered {
      ramp, measured, obs, steps := Characterize.RampUnderLock(w, prov, c.job, c.a, c.max, c.subject);
    }
    inside := w.trace;
    sys.Finish(pid, Locking.EndpointPath(endpoint), fd, entered, inside);
    if !entered { return None, fd, fault, attempt, inside, outside, obs, probe, steps; }
    r := Some(ramp);
    if ramp == Ok(Characterize.RampDone) {
      var outcome;
      outcome, probe, steps := Characterize.CommitRamp(w, prov, c, measured, obs);
      outside := steps;
      r := Some(outcome);
    }
    ProbeLifecycle.FoldIsRun(w.step, c.job, old(w.artifacts), w.trace);
  }

  /** The serve setup: all of it is inside the lock, its ownership record included. Only the cleanup after an interrupt
      comes when the lock is already released: at most two inventories and the delete of the model that this run made. */
  method ServeUnderLock(
    sys: Locking.System<Event>, w: World<ServeLifecycle.ServeMonitor>, pid: Locking.Pid, endpoint: string, job: ServeLifecycle.ServeJob)
    returns (r: Option<Outcome<ServeSetup.ServeEnd>>, fd: Locking.Fd, ghost fault: bool, ghost attempt: seq<Locking.Step<Event>>,
             ghost inside: seq<Event>, ghost outside: seq<Event>)
    requires sys.Valid() && ServeSetup.Tracks(w, job) && w.trace == []
    requires w.state == ServeLifecycle.Serving(ServeLifecycle.Start, false, None, ServeLifecycle.NotYet)
    requires w.initial == w.state && (job.owned.Some? ==> job.owned.value.OllamaManifest?)
    modifies sys, w`trace, w`state, w`faults
    ensures sys.Valid() && w.trace == inside + outside && ServeSetup.LooksAndDeletes(outside, job)
    ensures Locking.Tried(old(sys.history), sys.history, attempt, fd, Locking.EndpointPath(endpoint), fault, r.Some?)
    ensures Locking.Gone(sys.history, sys.state, fd, Locking.EndpointPath(endpoint), inside)
    ensures r.None? ==> w.trace == []
    ensures ServeLifecycle.ServeRun(job, w.trace).Serving?
    ensures r.Some? && r.value.Ok? ==> outside == []
    ensures r.Some? && r.value.Ok? && r.value.value.Served? ==> ServeSetup.LastIsRecord(inside, job, r.value.value.artifact)
    ensures outside != [] ==> ServeLifecycle.ServeRun(job, w.trace).phase.Made?
    ensures r.Some? ==> ServeSetup.Explained(r.value, w.trace, job, w.faults > old(w.faults))
  {
    hide Fold, Locking.Run, Locking.Gone, Locking.ActsOf, Locking.PathOf, Locking.Consistent, ServeLifecycle.ServeStep, ServeSetup.LastIsRecord,
      ServeSetup.Stops, ServeSetup.GoesThrough;
    inside, outside := [], [];
    var entered;
    entered, fd, fault, attempt := sys.Enter(pid, Locking.EndpointPath(endpoint));
    var p := new ServeSetup.Progress(job.owned);
    var end := Raised(CallRaised);
    if entered {
      end := ServeSetup.SetUp(w, p, job);
    }
    inside := w.trace;
    sys.Finish(pid, Locking.EndpointPath(endpoint), fd, entered, inside);
    r := None;
    if entered {
      var outcome;
      outcome, outside := ServeSetup.AfterLock(w, p, job, end);
      r := Some(outcome);
    }
    ServeLifecycle.FoldIsServeRun(w.step, job, w.trace);
  }

  /** From the first thing that one of these commands sees or asks inside the lock to the last, no other holder of the lock
      of the same endpoint, whichever command it is, sees or asks anything of the daemon. */
  lemma HoldersAreExclusive(t: seq<Locking.Step<Event>>, a: Locking.Fd, i: nat, j: nat, l: nat)
    requires Locking.Run(t).Some? && i < j < l < |t|
    requires t[i].Act? && t[l].Act? && t[i].fd == t[l].fd == a
    requires t[j].Act? && Locking.PathOf(t, t[j].fd) == Locking.PathOf(t, a)
    ensures t[j].fd == a
  {
    hide Fold, Locking.Run, Locking.PathOf;
    if t[j].fd != a {
      Locking.ActedBeforeIsOver(t, i, j, l);
    }
  }
}
