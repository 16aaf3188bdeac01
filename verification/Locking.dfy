/** The two advisory file locks under any interleaving of processes, with crashes. */
module Locking {
  import opened Wrappers

  type Pid = nat
  type Fd = nat

  /** One lock file for measurements, and one per endpoint for Ollama setup; the hash in its name is taken to be injective. */
  datatype Path = MeasurementPath | EndpointPath(endpoint: string)

  /** `Leaving` has run `_release`; a release that failed keeps the lock until the descriptor is closed. */
  datatype Phase = Opened | Denied | Inside | Leaving

  datatype Session = Session(pid: Pid, path: Path, phase: Phase)

  /** An advisory lock belongs to one open descriptor and goes with it. */
  datatype State = State(next: Fd, sessions: map<Fd, Session>, locks: map<Path, Fd>)

  /** `E` is what a body does while it is inside; a `fault` is any failure of the lock call that is no holder's doing. */
  datatype Step<+E> =
    | Open(pid: Pid, path: Path)
    | TryAcquire(fd: Fd, fault: bool)
    | Act(fd: Fd, what: E)
    | Release(fd: Fd, works: bool)
    | Close(fd: Fd)
    | Crash(pid: Pid)

  const INITIAL := State(0, map[], map[])

  predicate At(s: State, fd: Fd, phase: Phase) {
    fd in s.sessions && s.sessions[fd].phase == phase
  }

  function Unlock(locks: map<Path, Fd>, gone: set<Fd>): map<Path, Fd> {
    map p | p in locks && locks[p] !in gone :: locks[p]
  }

  function OfProcess(s: State, pid: Pid): set<Fd> {
    set fd | fd in s.sessions && s.sessions[fd].pid == pid
  }

  function Moved(s: State, fd: Fd, phase: Phase): State
    requires fd in s.sessions
  {
    s.(sessions := s.sessions[fd := s.sessions[fd].(phase := phase)])
  }

  /** The state after a step, or `None` when the step cannot happen. */
  function Apply<E>(s: State, step: Step<E>): Option<State> {
    match step
    case Open(pid, path) => Some(State(s.next + 1, s.sessions[s.next := Session(pid, path, Opened)], s.locks))
    case TryAcquire(fd, fault) =>
      if !At(s, fd, Opened) then None
      else if fault || s.sessions[fd].path in s.locks then Some(Moved(s, fd, Denied))
      else Some(Moved(s, fd, Inside).(locks := s.locks[s.sessions[fd].path := fd]))
    case Act(fd, _) => if At(s, fd, Inside) then Some(s) else None
    case Release(fd, works) =>
      if !At(s, fd, Inside) then None
      else Some(Moved(s, fd, Leaving).(locks := if works then Unlock(s.locks, {fd}) else s.locks))
    case Close(fd) =>
      if fd !in s.sessions || s.sessions[fd].phase == Inside then None
      else Some(State(s.next, s.sessions - {fd}, Unlock(s.locks, {fd})))
    case Crash(pid) => Some(State(s.next, s.sessions - OfProcess(s, pid), Unlock(s.locks, OfProcess(s, pid))))
  }

  function Run<E>(t: seq<Step<E>>): Option<State> {
    if t == [] then Some(INITIAL)
    else
      var s := Run(t[..|t| - 1]);
      if s.None? then None else Apply(s.value, t[|t| - 1])
  }

  /** The lock table names live holders, and whoever is inside is the one it names. */
  ghost predicate Consistent(s: State) {
    && (forall fd :: fd in s.sessions ==> fd < s.next)
    && (forall p :: p in s.locks ==> s.locks[p] in s.sessions && s.sessions[s.locks[p]].path == p
                                     && s.sessions[s.locks[p]].phase in {Inside, Leaving})
    && (forall fd :: At(s, fd, Inside) ==> s.sessions[fd].path in s.locks && s.locks[s.sessions[fd].path] == fd)
  }

  lemma StepKeepsConsistency<E>(s: State, step: Step<E>)
    requires Consistent(s) && Apply(s, step).Some?
    ensures Consistent(Apply(s, step).value)
  {
    var n := Apply(s, step).value;
    forall fd | At(n, fd, Inside) ensures n.sessions[fd].path in n.locks && n.locks[n.sessions[fd].path] == fd {
      assert At(s, fd, Inside) || (step.TryAcquire? && step.fd == fd);
    }
  }

  lemma {:induction false} RunsAreConsistent<E>(t: seq<Step<E>>)
    requires Run(t).Some?
    ensures Consistent(Run(t).value)
  {
    if t != [] {
      RunsAreConsistent(t[..|t| - 1]);
      StepKeepsConsistency(Run(t[..|t| - 1]).value, t[|t| - 1]);
    }
  }

  /** At every moment of every run, at most one descriptor is inside the guarded block of a lock file. */
  lemma OneInsidePerPath<E>(t: seq<Step<E>>, a: Fd, b: Fd)
    requires Run(t).Some? && At(Run(t).value, a, Inside) && At(Run(t).value, b, Inside)
    requires Run(t).value.sessions[a].path == Run(t).value.sessions[b].path
    ensures a == b
  {
    RunsAreConsistent(t);
  }

  // ---------- guarded blocks do not overlap ----------

  lemma {:induction false} PrefixRuns<E>(t: seq<Step<E>>, n: nat)
    requires n <= |t| && Run(t).Some?
    ensures Run(t[..n]).Some?
  {
    if n < |t| {
      PrefixRuns(t[..|t| - 1], n);
      assert t[..|t| - 1][..n] == t[..n];
    } else {
      assert t[..n] == t;
    }
  }

  /** The steps that end a guarded block: its own release, or the crash of its process. */
  predicate Ends<E>(step: Step<E>, fd: Fd, pid: Pid) {
    (step.Release? && step.fd == fd) || step == Crash(pid)
  }

  /** Until one of them, the descriptor stays inside. */
  lemma {:induction false} StaysInside<E>(t: seq<Step<E>>, i: nat, n: nat, fd: Fd, pid: Pid)
    requires i <= n <= |t| && Run(t).Some? && Run(t[..i]).Some?
    requires At(Run(t[..i]).value, fd, Inside) && Run(t[..i]).value.sessions[fd].pid == pid
    requires forall j :: i <= j < n ==> !Ends(t[j], fd, pid)
    ensures Run(t[..n]).Some? && At(Run(t[..n]).value, fd, Inside)
    ensures Run(t[..n]).value.sessions[fd] == Run(t[..i]).value.sessions[fd]
    decreases n
  {
    hide Apply, Ends, Consistent;
    PrefixRuns(t, n);
    if i < n {
      StaysInside(t, i, n - 1, fd, pid);
      assert t[..n][..n - 1] == t[..n - 1];
      RunsAreConsistent(t[..n - 1]);
      StepKeepsInside(Run(t[..n - 1]).value, t[n - 1], fd, pid);
    }
  }

  lemma StepKeepsInside<E>(s: State, step: Step<E>, fd: Fd, pid: Pid)
    requires Consistent(s) && At(s, fd, Inside) && s.sessions[fd].pid == pid && !Ends(step, fd, pid) && Apply(s, step).Some?
    ensures At(Apply(s, step).value, fd, Inside) && Apply(s, step).value.sessions[fd] == s.sessions[fd]
  {
  }

  lemma {:induction false} ActIsInside<E>(t: seq<Step<E>>, i: nat)
    requires i < |t| && Run(t).Some? && t[i].Act?
    ensures Run(t[..i]).Some? && At(Run(t[..i]).value, t[i].fd, Inside)
  {
    PrefixRuns(t, i + 1);
    assert t[..i + 1][..i] == t[..i];
  }

  /** Whose action this is, and in which lock. */
  function ActingSession<E>(t: seq<Step<E>>, i: nat): Session
    requires i < |t| && Run(t).Some? && t[i].Act?
  {
    ActIsInside(t, i);
    Run(t[..i]).value.sessions[t[i].fd]
  }

  /** Two actions inside the same lock by different holders are separated by the first holder's release or crash:
      whole guarded blocks follow one another and never interleave. */
  lemma BlocksDoNotInterleave<E>(t: seq<Step<E>>, i: nat, k: nat) returns (j: nat)
    requires i < k < |t| && Run(t).Some? && t[i].Act? && t[k].Act? && t[i].fd != t[k].fd
    requires ActingSession(t, i).path == ActingSession(t, k).path
    ensures i < j < k && Ends(t[j], t[i].fd, ActingSession(t, i).pid)
  {
    hide Apply, Consistent, Run;
    var a, pid := t[i].fd, ActingSession(t, i).pid;
    ActIsInside(t, i);
    ActIsInside(t, k);
    if forall m :: i <= m < k ==> !Ends(t[m], a, pid) {
      StaysInside(t, i, k, a, pid);
      OneInsidePerPath(t[..k], a, t[k].fd);
    } else {
      j :| i <= j < k && Ends(t[j], a, pid);
    }
  }

  // ---------- refusals and liveness ----------

  /** An attempt is refused exactly when the lock call fails or some descriptor that has not released holds the same lock. */
  lemma BusyExactlyWhenHeld<E>(t: seq<Step<E>>, fd: Fd, fault: bool)
    requires Run(t).Some? && At(Run(t).value, fd, Opened)
    ensures var s := Run(t).value;
            var n := Apply(s, Step<E>.TryAcquire(fd, fault)).value;
            && (At(n, fd, Denied) <==>
                fault || exists other :: other != fd && Holds(s, other) && s.sessions[other].path == s.sessions[fd].path)
            && (At(n, fd, Inside) <==> !At(n, fd, Denied))
  {
    RunsAreConsistent(t);
    var s := Run(t).value;
    if s.sessions[fd].path in s.locks {
      assert Holds(s, s.locks[s.sessions[fd].path]);
    }
  }

  predicate Holds(s: State, fd: Fd) {
    fd in s.sessions && s.sessions[fd].path in s.locks && s.locks[s.sessions[fd].path] == fd
  }

  /** Whatever ends a holder, closing it or a crash of its process, frees the lock at once: no crash wedges it. */
  lemma EndingFreesTheLock<E>(t: seq<Step<E>>, fd: Fd, step: Step<E>)
    requires Run(t).Some? && Holds(Run(t).value, fd)
    requires step == Close(fd) || step == Crash(Run(t).value.sessions[fd].pid)
    requires Apply(Run(t).value, step).Some?
    ensures var s := Run(t).value;
            var n := Apply(s, step).value;
            s.sessions[fd].path !in n.locks && fd !in n.sessions
  {
    RunsAreConsistent(t);
  }

  // ---------- steps of other processes ----------

  /** A step of another process. */
  predicate Foreign<E>(s: State, step: Step<E>, pid: Pid) {
    match step
    case Open(p, _) => p != pid
    case Crash(p) => p != pid
    case TryAcquire(fd, _) => fd !in OfProcess(s, pid)
    case Act(fd, _) => fd !in OfProcess(s, pid)
    case Release(fd, _) => fd !in OfProcess(s, pid)
    case Close(fd) => fd !in OfProcess(s, pid)
  }

  /** A descriptor and its lock, if it holds one, are as they were. */
  predicate Kept(s: State, n: State, fd: Fd) {
    && fd in s.sessions && fd in n.sessions && n.sessions[fd] == s.sessions[fd]
    && (Holds(s, fd) ==> Holds(n, fd))
  }

  lemma KeptIsAnOrder(s: State, n: State, o: State, fd: Fd)
    ensures fd in s.sessions ==> Kept(s, s, fd)
    ensures Kept(s, n, fd) ==> fd in s.sessions && fd in n.sessions && n.sessions[fd] == s.sessions[fd]
    ensures Kept(s, n, fd) && Kept(n, o, fd) ==> Kept(s, o, fd)
  {
  }

  lemma ForeignStepsKeepMine<E>(s: State, step: Step<E>, pid: Pid, fd: Fd)
    requires Consistent(s) && fd in OfProcess(s, pid) && Foreign(s, step, pid) && Apply(s, step).Some?
    ensures Kept(s, Apply(s, step).value, fd) && !(step.Act? && step.fd == fd)
  {
  }

  // ---------- whose action, and in which lock ----------

  /** What the body behind one descriptor did, in order. */
  function ActsOf<E>(t: seq<Step<E>>, fd: Fd): seq<E> {
    if t == [] then []
    else
      var last := t[|t| - 1];
      ActsOf(t[..|t| - 1], fd) + if last.Act? && last.fd == fd then [last.what] else []
  }

  /** The lock file that a descriptor was opened on; descriptors are never used again. */
  function PathOf<E>(t: seq<Step<E>>, fd: Fd): Option<Path> {
    if t == [] || Run(t[..|t| - 1]).None? then None
    else if t[|t| - 1].Open? && Run(t[..|t| - 1]).value.next == fd then Some(t[|t| - 1].path)
    else PathOf(t[..|t| - 1], fd)
  }

  lemma {:induction false} SessionsKeepTheirPath<E>(t: seq<Step<E>>, fd: Fd)
    requires Run(t).Some?
    ensures PathOf(t, fd).Some? <==> fd < Run(t).value.next
    ensures fd in Run(t).value.sessions ==> PathOf(t, fd) == Some(Run(t).value.sessions[fd].path)
    ensures fd >= Run(t).value.next ==> fd !in Run(t).value.sessions && ActsOf(t, fd) == []
  {
    if t != [] {
      SessionsKeepTheirPath(t[..|t| - 1], fd);
    }
  }

  /** A path once known stays. */
  lemma {:induction false} PathStays<E>(t: seq<Step<E>>, n: nat, fd: Fd)
    requires n <= |t| && Run(t).Some? && Run(t[..n]).Some? && PathOf(t[..n], fd).Some?
    ensures PathOf(t, fd) == PathOf(t[..n], fd)
  {
    if n < |t| {
      var front := t[..|t| - 1];
      assert front[..n] == t[..n];
      PathStays(front, n, fd);
      SessionsKeepTheirPath(front, fd);
    } else {
      assert t[..n] == t;
    }
  }

  lemma ActsOnItsPath<E>(t: seq<Step<E>>, i: nat)
    requires i < |t| && Run(t).Some? && t[i].Act?
    ensures PathOf(t, t[i].fd) == Some(ActingSession(t, i).path)
  {
    ActIsInside(t, i);
    SessionsKeepTheirPath(t[..i], t[i].fd);
    PathStays(t, i, t[i].fd);
  }

  /** Released, refused, closed or crashed. */
  predicate Over(s: State, fd: Fd) {
    fd < s.next && !At(s, fd, Opened) && !At(s, fd, Inside)
  }

  lemma {:induction false} OverStaysOver<E>(t: seq<Step<E>>, n: nat, m: nat, fd: Fd)
    requires n <= m <= |t| && Run(t).Some? && Run(t[..n]).Some? && Over(Run(t[..n]).value, fd)
    ensures Run(t[..m]).Some? && Over(Run(t[..m]).value, fd)
    decreases m
  {
    hide Apply, Over;
    PrefixRuns(t, m);
    if n < m {
      OverStaysOver(t, n, m - 1, fd);
      assert t[..m][..m - 1] == t[..m - 1];
      StepKeepsOver(Run(t[..m - 1]).value, t[m - 1], fd);
    }
  }

  lemma StepKeepsOver<E>(s: State, step: Step<E>, fd: Fd)
    requires Over(s, fd) && Apply(s, step).Some?
    ensures Over(Apply(s, step).value, fd)
  {
  }

  /** After its own release or the crash of its process, a body never acts again. */
  lemma EndedNeverActs<E>(t: seq<Step<E>>, j: nat, k: nat, fd: Fd, pid: Pid)
    requires j < k < |t| && Run(t).Some? && Run(t[..j]).Some?
    requires fd in Run(t[..j]).value.sessions && Run(t[..j]).value.sessions[fd].pid == pid && Ends(t[j], fd, pid)
    ensures !(t[k].Act? && t[k].fd == fd)
  {
    hide Apply, Consistent, Ends;
    PrefixRuns(t, j + 1);
    assert t[..j + 1][..j] == t[..j];
    RunsAreConsistent(t[..j]);
    EndIsOver(Run(t[..j]).value, t[j], fd, pid);
    OverStaysOver(t, j + 1, k, fd);
    if t[k].Act? && t[k].fd == fd {
      ActIsInside(t, k);
      assert false;
    }
  }

  lemma EndIsOver<E>(s: State, step: Step<E>, fd: Fd, pid: Pid)
    requires Consistent(s) && fd in s.sessions && s.sessions[fd].pid == pid && Ends(step, fd, pid) && Apply(s, step).Some?
    ensures Over(Apply(s, step).value, fd)
  {
  }

  ghost predicate Precedes<E>(t: seq<Step<E>>, a: Fd, b: Fd) {
    forall i, k :: 0 <= i < |t| && 0 <= k < |t| && t[i].Act? && t[i].fd == a && t[k].Act? && t[k].fd == b ==> i < k
  }

  /** Once another body has acted inside the same lock, this one never acts again. */
  lemma ActedBeforeIsOver<E>(t: seq<Step<E>>, i: nat, k: nat, l: nat)
    requires i < k < l < |t| && Run(t).Some? && t[i].Act? && t[k].Act? && t[l].Act?
    requires t[i].fd != t[k].fd && PathOf(t, t[i].fd) == PathOf(t, t[k].fd)
    ensures t[l].fd != t[i].fd
  {
    hide Apply, Run, PathOf, Ends;
    var a, pid := t[i].fd, ActingSession(t, i).pid;
    ActsOnItsPath(t, i);
    ActsOnItsPath(t, k);
    var j := FirstEnd(t, i, k);
    EndedNeverActs(t, j, l, a, pid);
  }

  /** The first step that ends the first of two bodies; its session is intact until then. */
  lemma FirstEnd<E>(t: seq<Step<E>>, i: nat, k: nat) returns (j: nat)
    requires i < k < |t| && Run(t).Some? && t[i].Act? && t[k].Act? && t[i].fd != t[k].fd
    requires ActingSession(t, i).path == ActingSession(t, k).path
    ensures i < j < k && Ends(t[j], t[i].fd, ActingSession(t, i).pid)
    ensures Run(t[..j]).Some? && t[i].fd in Run(t[..j]).value.sessions && Run(t[..j]).value.sessions[t[i].fd] == ActingSession(t, i)
  {
    hide Apply, Run;
    var a, pid := t[i].fd, ActingSession(t, i).pid;
    ActIsInside(t, i);
    var end := BlocksDoNotInterleave(t, i, k);
    j := i;
    while !Ends(t[j], a, pid)
      invariant i <= j <= end && forall m :: i <= m < j ==> !Ends(t[m], a, pid)
      decreases end - j
    {
      j := j + 1;
    }
    StaysInside(t, i, j, a, pid);
  }

  /** Two bodies behind different descriptors of one lock file: every action of one comes before every action of the other. */
  lemma WholeBlocksAreOrdered<E>(t: seq<Step<E>>, a: Fd, b: Fd)
    requires Run(t).Some? && a != b && PathOf(t, a) == PathOf(t, b)
    ensures Precedes(t, a, b) || Precedes(t, b, a)
  {
    hide Run, PathOf;
    if !Precedes(t, a, b) && !Precedes(t, b, a) {
      var i, k :| 0 <= i < |t| && 0 <= k < |t| && t[i].Act? && t[i].fd == a && t[k].Act? && t[k].fd == b && k < i;
      var l, m :| 0 <= l < |t| && 0 <= m < |t| && t[l].Act? && t[l].fd == b && t[m].Act? && t[m].fd == a && m < l;
      if m < k {
        ActedBeforeIsOver(t, m, k, i);
      } else {
        ActedBeforeIsOver(t, k, m, l);
      }
    }
  }

  // ---------- one process's `with` block ----------

  lemma OneMoreStep<E>(t: seq<Step<E>>, step: Step<E>, fd: Fd)
    ensures ActsOf(t + [step], fd) == ActsOf(t, fd) + if step.Act? && step.fd == fd then [step.what] else []
    ensures Run(t).Some? && step.Act? && At(Run(t).value, step.fd, Inside) ==> Run(t + [step]) == Run(t)
  {
    assert (t + [step])[..|t + [step]| - 1] == t;
  }

  /** One attempt on a lock file: it got in exactly when the call did not fail and no other descriptor held the lock. */
  ghost predicate Tried<E>(
    before: seq<Step<E>>, after: seq<Step<E>>, attempt: seq<Step<E>>, fd: Fd, path: Path, fault: bool, entered: bool)
  {
    && before <= attempt && attempt + [TryAcquire(fd, fault)] <= after && Run(attempt).Some?
    && (entered <==> !fault && path !in Run(attempt).value.locks)
    && (path in Run(attempt).value.locks ==> Run(attempt).value.locks[path] != fd)
  }

  /** A finished block on a lock file: what its body did, all of it inside, and no descriptor or lock left. */
  ghost predicate Gone<E>(t: seq<Step<E>>, s: State, fd: Fd, path: Path, acts: seq<E>) {
    && PathOf(t, fd) == Some(path) && ActsOf(t, fd) == acts
    && fd !in s.sessions && forall p :: p in s.locks ==> s.locks[p] != fd
  }

  /** The operating system as one process meets it: between its own calls, the others take any steps of theirs. */
  class System<E(!new)> {
    ghost var history: seq<Step<E>>
    var state: State

    ghost predicate Valid()
      reads this
    {
      Run(history) == Some(state) && Consistent(state)
    }

    constructor ()
      ensures Valid() && history == []
    {
      history, state := [], INITIAL;
    }

    method Take(step: Step<E>)
      requires Valid() && Apply(state, step).Some?
      modifies this
      ensures Valid() && history == old(history) + [step] && Some(state) == Apply(old(state), step)
    {
      ghost var more := history + [step];
      assert more[..|more| - 1] == history;
      StepKeepsConsistency(state, step);
      history := more;
      state := Apply(state, step).value;
    }

    /** Any steps of other processes. */
    method Others(pid: Pid, fd: Fd)
      requires Valid() && fd in OfProcess(state, pid)
      modifies this
      ensures Valid() && old(history) <= history && Kept(old(state), state, fd) && ActsOf(history, fd) == ActsOf(old(history), fd)
    {
      hide Apply, Consistent, Run, Foreign, ActsOf, Kept;
      KeptIsAnOrder(state, state, state, fd);
      var rounds: nat := *;
      while rounds > 0
        invariant Valid() && old(history) <= history && Kept(old(state), state, fd)
        invariant ActsOf(history, fd) == ActsOf(old(history), fd)
      {
        var step: Step<E> := *;
        if Apply(state, step).Some? && Foreign(state, step, pid) {
          KeptIsAnOrder(old(state), state, state, fd);
          ForeignStepsKeepMine(state, step, pid, fd);
          OneMoreStep(history, step, fd);
          ghost var was := state;
          Take(step);
          KeptIsAnOrder(old(state), was, state, fd);
        }
        rounds := rounds - 1;
      }
    }

    /** Open the lock file and try once. */
    method Enter(pid: Pid, path: Path) returns (entered: bool, fd: Fd, ghost fault: bool, ghost attempt: seq<Step<E>>)
      requires Valid()
      modifies this
      ensures Valid() && Tried(old(history), history, attempt, fd, path, fault, entered)
      ensures PathOf(history, fd) == Some(path) && ActsOf(history, fd) == []
      ensures fd in state.sessions && state.sessions[fd] == Session(pid, path, if entered then Inside else Denied)
    {
      hide Run, ActsOf;
      fd := state.next;
      SessionsKeepTheirPath(history, fd);
      OneMoreStep(history, Open(pid, path), fd);
      Take(Open(pid, path));
      Others(pid, fd);
      attempt := history;
      var fails: bool := *;
      fault := fails;
      OneMoreStep(history, TryAcquire(fd, fails), fd);
      Take(TryAcquire(fd, fails));
      entered := state.sessions[fd].phase == Inside;
      Others(pid, fd);
      SessionsKeepTheirPath(history, fd);
    }

    /** The body acts in its own order, with any steps of other processes in between. */
    method Perform(pid: Pid, fd: Fd, ghost body: seq<E>)
      requires Valid() && fd in OfProcess(state, pid) && At(state, fd, Inside)
      modifies this
      ensures Valid() && old(history) <= history
      ensures fd in state.sessions && state.sessions[fd] == old(state.sessions)[fd]
      ensures ActsOf(history, fd) == ActsOf(old(history), fd) + body
    {
      hide Run, ActsOf, Consistent;
      ghost var rest := body;
      var rounds: nat := *;
      while rounds > 0
        invariant Valid() && old(history) <= history
        invariant fd in state.sessions && state.sessions[fd] == old(state.sessions)[fd]
        invariant ActsOf(history, fd) + rest == ActsOf(old(history), fd) + body
      {
        ghost var n :| 0 <= n <= |rest|;
        DoAll(fd, rest[..n]);
        assert rest == rest[..n] + rest[n..];
        rest := rest[n..];
        Others(pid, fd);
        rounds := rounds - 1;
      }
      DoAll(fd, rest);
    }

    ghost method DoAll(fd: Fd, acts: seq<E>)
      requires Valid() && At(state, fd, Inside)
      modifies this`history
      ensures Valid() && old(history) <= history && ActsOf(history, fd) == ActsOf(old(history), fd) + acts
    {
      hide Run, ActsOf, Consistent;
      for i := 0 to |acts|
        invariant Valid() && old(history) <= history && ActsOf(history, fd) == ActsOf(old(history), fd) + acts[..i]
      {
        OneMoreStep(history, Act(fd, acts[i]), fd);
        history := history + [Act(fd, acts[i])];
      }
    }

    /** The `finally`: a held lock is released, which may fail, and the descriptor is closed. */
    method Leave(pid: Pid, fd: Fd)
      requires Valid() && fd in OfProcess(state, pid) && state.sessions[fd].phase in {Inside, Denied}
      modifies this
      ensures Valid() && old(history) <= history && ActsOf(history, fd) == ActsOf(old(history), fd)
      ensures fd !in state.sessions && forall p :: p in state.locks ==> state.locks[p] != fd
    {
      hide Run, ActsOf;
      if state.sessions[fd].phase == Inside {
        var works: bool := *;
        OneMoreStep(history, Release(fd, works), fd);
        Take(Release(fd, works));
      }
      Others(pid, fd);
      OneMoreStep(history, Close(fd), fd);
      Take(Close(fd));
    }

    /** The rest of the block: the body, if inside, and the `finally`. Nothing of the block is left at the end. */
    method Finish(pid: Pid, path: Path, fd: Fd, entered: bool, ghost body: seq<E>)
      requires Valid() && fd in state.sessions && state.sessions[fd] == Session(pid, path, if entered then Inside else Denied)
      requires PathOf(history, fd) == Some(path) && ActsOf(history, fd) == []
      modifies this
      ensures Valid() && old(history) <= history && Gone(history, state, fd, path, if entered then body else [])
    {
      hide Run, ActsOf, Consistent, PathOf;
      ghost var begun := history;
      if entered { Perform(pid, fd, body); }
      Leave(pid, fd);
      assert history[..|begun|] == begun;
      PathStays(history, |begun|, fd);
    }

    /** `with measurement_lock():` or `with ollama_setup_lock(…):` around any body: it acts only inside the lock, or not
        at all because the attempt was refused. */
    method WithLock(pid: Pid, path: Path, ghost body: seq<E>)
      returns (entered: bool, fd: Fd, ghost fault: bool, ghost attempt: seq<Step<E>>)
      requires Valid()
      modifies this
      ensures Valid() && Tried(old(history), history, attempt, fd, path, fault, entered)
      ensures Gone(history, state, fd, path, if entered then body else [])
    {
      hide Run, ActsOf, Consistent, PathOf;
      entered, fd, fault, attempt := Enter(pid, path);
      Finish(pid, path, fd, entered, body);
    }
  }
}
