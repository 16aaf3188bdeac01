/** Activity records on disk: atomic replacement, retries, and closing of directory guards under a fault at any step. */
module AtomicWrite {
  import opened Wrappers

  const WIN_REPLACE_ATTEMPTS := 5
  const ENOENT := 2

  /** Interrupts and all other failures; only `Permission` is retried on Windows. */
  datatype Error = Permission | Other(code: int)

  datatype Done = Success | Failure(error: Error)

  datatype Call = Opening | Writing | Closing | Replacing | Unlinking

  /** A directory with its open descriptors. `seen` is every state another process could observe, in order; `faults`
      is every failed call. */
  class Directory {
    var files: map<string, string>
    var descriptors: map<nat, string>
    ghost var seen: seq<map<string, string>>
    ghost var faults: seq<(Call, Error)>

    constructor (files: map<string, string>)
      ensures this.files == files && descriptors == map[] && seen == [files] && faults == []
    {
      this.files, descriptors, seen, faults := files, map[], [files], [];
    }

    /** A call ends: nothing or the whole change becomes visible, and it may fail. */
    method Commit(call: Call, change: map<string, string>) returns (done: Done)
      modifies this`files, this`seen, this`faults
      ensures seen == old(seen) + [files]
      ensures files == change || (done.Failure? && files == old(files))
      ensures faults == if done.Failure? then old(faults) + [(call, done.error)] else old(faults)
    {
      done := *;
      var applied: bool := *;
      files := if done.Failure? && !applied then files else change;
      seen := seen + [files];
      faults := if done.Failure? then faults + [(call, done.error)] else faults;
    }

    /** `os.replace`; a missing source is an error of its own. */
    method Replace(source: string, target: string) returns (done: Done)
      requires source != target
      modifies this`files, this`seen, this`faults
      ensures seen == old(seen) + [files]
      ensures files == old(files) || (source in old(files) && files == Moved(old(files), source, target))
      ensures done.Success? ==> source in old(files) && files == Moved(old(files), source, target)
      ensures faults == if done.Failure? then old(faults) + [(Replacing, done.error)] else old(faults)
    {
      if source in files {
        done := Commit(Replacing, Moved(files, source, target));
      } else {
        done := Failure(Other(ENOENT));
        seen, faults := seen + [files], faults + [(Replacing, Other(ENOENT))];
      }
    }

    /** `_open_directory`: a guard holds a directory open by a descriptor of its own. */
    method OpenGuard() returns (done: Done, fd: nat)
      modifies this`descriptors, this`faults
      ensures done.Success? ==> fd !in old(descriptors) && descriptors == old(descriptors)[fd := "."]
      ensures done.Failure? ==> descriptors == old(descriptors)
      ensures faults == if done.Failure? then old(faults) + [(Opening, done.error)] else old(faults)
    {
      done, fd := *, *;
      if fd in descriptors { done := Failure(Other(0)); }
      if done.Success? { descriptors := descriptors[fd := "."]; }
      faults := if done.Failure? then faults + [(Opening, done.error)] else faults;
    }

    /** `O_CREAT | O_EXCL`: refused when the name exists. */
    method OpenExclusive(name: string) returns (done: Done, fd: nat)
      requires name !in files
      modifies this
      ensures seen == old(seen) + [files]
      ensures done.Success? ==> files == old(files)[name := ""] && fd !in old(descriptors) && descriptors == old(descriptors)[fd := name]
      ensures done.Failure? ==> files == old(files) && descriptors == old(descriptors)
      ensures faults == if done.Failure? then old(faults) + [(Opening, done.error)] else old(faults)
    {
      done, fd := *, *;
      if fd in descriptors { done := Failure(Other(0)); }
      if done.Success? {
        files, descriptors := files[name := ""], descriptors[fd := name];
      }
      seen := seen + [files];
      faults := if done.Failure? then faults + [(Opening, done.error)] else faults;
    }

    /** Dump, flush and sync: on a failure any part of the data may have reached the file. */
    method Write(fd: nat, data: string) returns (done: Done)
      requires fd in descriptors && descriptors[fd] in files
      modifies this`files, this`seen, this`faults
      ensures seen == old(seen) + [files]
      ensures descriptors[fd] in files && files == old(files)[descriptors[fd] := files[descriptors[fd]]]
      ensures done.Success? ==> files[descriptors[fd]] == data
      ensures faults == if done.Failure? then old(faults) + [(Writing, done.error)] else old(faults)
    {
      done := *;
      var partial: string := *;
      var text := if done.Success? then data else partial;
      files := files[descriptors[fd] := text];
      seen := seen + [files];
      faults := if done.Failure? then faults + [(Writing, done.error)] else faults;
    }

    /** The descriptor is gone even when closing it reports an error. */
    method Close(fd: nat) returns (done: Done)
      modifies this`descriptors, this`faults
      ensures descriptors == old(descriptors) - {fd}
      ensures faults == if done.Failure? then old(faults) + [(Closing, done.error)] else old(faults)
    {
      done := *;
      descriptors := descriptors - {fd};
      faults := if done.Failure? then faults + [(Closing, done.error)] else faults;
    }
  }

  function Moved(files: map<string, string>, source: string, target: string): map<string, string>
    requires source in files
  {
    files[target := files[source]] - {source}
  }

  /** `_replace_record`: one attempt, or on Windows up to five while permission is refused. */
  method ReplaceRecord(d: Directory, source: string, target: string, posix: bool) returns (done: Done, attempts: nat)
    requires source in d.files && source != target
    modifies d`files, d`seen, d`faults
    ensures 1 <= attempts <= (if posix then 1 else WIN_REPLACE_ATTEMPTS)
    ensures d.files == Moved(old(d.files), source, target) || (done.Failure? && d.files == old(d.files))
    ensures forall i :: |old(d.seen)| <= i < |d.seen| ==> d.seen[i] == old(d.files) || d.seen[i] == Moved(old(d.files), source, target)
    ensures old(d.seen) <= d.seen && old(d.faults) <= d.faults
    ensures forall i :: |old(d.faults)| <= i < |d.faults| ==> d.faults[i].0 == Replacing
    ensures done.Failure? ==> |d.faults| > |old(d.faults)| && d.faults[|d.faults| - 1] == (Replacing, done.error)
    ensures done == Failure(Permission) && !posix ==> attempts == WIN_REPLACE_ATTEMPTS
  {
    attempts := 0;
    while true
      invariant 0 <= attempts < (if posix then 1 else WIN_REPLACE_ATTEMPTS)
      invariant d.files == old(d.files) || d.files == Moved(old(d.files), source, target)
      invariant old(d.seen) <= d.seen && forall i :: |old(d.seen)| <= i < |d.seen| ==>
                  d.seen[i] == old(d.files) || d.seen[i] == Moved(old(d.files), source, target)
      invariant old(d.faults) <= d.faults && forall i :: |old(d.faults)| <= i < |d.faults| ==> d.faults[i].0 == Replacing
      decreases WIN_REPLACE_ATTEMPTS - attempts
    {
      done := d.Replace(source, target);
      attempts := attempts + 1;
      if posix || done != Failure(Permission) || attempts >= WIN_REPLACE_ATTEMPTS { return; }
    }
  }

  function Lookup(files: map<string, string>, name: string): Option<string> {
    if name in files then Some(files[name]) else None
  }

  /** All other files are as they were, and the target is the old or the complete new record. */
  ghost predicate WholeOrOld(before: map<string, string>, now: map<string, string>, path: string, temporary: string, record: string) {
    && (forall n :: n != path && n != temporary ==> Lookup(now, n) == Lookup(before, n))
    && (Lookup(now, path) == Lookup(before, path) || Lookup(now, path) == Some(record))
  }

  /** The raised error is the one that stopped the write: every earlier fault was a retried replacement, every later
      one a failed cleanup. */
  ghost predicate FirstFailure(before: seq<(Call, Error)>, after: seq<(Call, Error)>, error: Error) {
    exists k :: |before| <= k < |after| && after[k].1 == error && after[k].0 != Unlinking
                && forall i :: |before| <= i < k ==> after[i].0 == Replacing
  }

  /** `_atomic_write` with a fresh temporary name. At every moment, for every reader, the target is the old or the
      complete new record; no descriptor is left; and the temporary file is left only when removing it failed. */
  method AtomicWrite(d: Directory, path: string, temporary: string, record: string, posix: bool) returns (done: Done)
    requires path != temporary && temporary !in d.files
    modifies d
    ensures old(d.seen) <= d.seen && old(d.faults) <= d.faults && d.descriptors == old(d.descriptors)
    ensures forall i :: |old(d.seen)| <= i < |d.seen| ==> WholeOrOld(old(d.files), d.seen[i], path, temporary, record)
    ensures WholeOrOld(old(d.files), d.files, path, temporary, record)
    ensures done.Success? ==> d.files == old(d.files)[path := record]
    ensures done.Failure? ==> FirstFailure(old(d.faults), d.faults, done.error)
    ensures temporary in d.files ==> exists i :: |old(d.faults)| <= i < |d.faults| && d.faults[i].0 == Unlinking
  {
    var fd;
    done, fd := d.OpenExclusive(temporary);
    if done.Failure? {
      assert d.faults[|old(d.faults)|] == (Opening, done.error);
      return;
    }
    ghost var started := d.files;
    done := FillAndReplace(d, fd, path, temporary, record, posix);
    ghost var failed := d.faults;
    if done.Failure? {
      var cleaned := RemoveTemporary(d, temporary);
      FirstFailureStays(old(d.faults), failed, d.faults, done.error);
      assert |d.faults| > |failed| ==> d.faults[|failed|].0 == Unlinking;
    }
    forall i | |old(d.seen)| <= i < |d.seen| ensures WholeOrOld(old(d.files), d.seen[i], path, temporary, record) {
      OpeningIsInvisible(old(d.files), started, d.seen[i], path, temporary, record);
    }
  }

  lemma FirstFailureStays(before: seq<(Call, Error)>, failed: seq<(Call, Error)>, after: seq<(Call, Error)>, error: Error)
    requires FirstFailure(before, failed, error) && failed <= after
    ensures FirstFailure(before, after, error)
  {
    var k :| |before| <= k < |failed| && failed[k].1 == error && failed[k].0 != Unlinking
             && forall i :: |before| <= i < k ==> failed[i].0 == Replacing;
    assert after[k] == failed[k];
  }

  lemma OpeningIsInvisible(
    before: map<string, string>, started: map<string, string>, now: map<string, string>, path: string, temporary: string, record: string)
    requires temporary !in before && started == before[temporary := ""] && path != temporary
    requires WholeOrOld(started, now, path, temporary, record)
    ensures WholeOrOld(before, now, path, temporary, record)
  {
  }

  /** The body of the `try`: fill the temporary file, close it, and move it into place. */
  method FillAndReplace(d: Directory, fd: nat, path: string, temporary: string, record: string, posix: bool) returns (done: Done)
    requires path != temporary && temporary in d.files && fd in d.descriptors && d.descriptors[fd] == temporary
    modifies d
    ensures old(d.seen) <= d.seen && old(d.faults) <= d.faults && d.descriptors == old(d.descriptors) - {fd}
    ensures forall i :: |old(d.seen)| <= i < |d.seen| ==> WholeOrOld(old(d.files), d.seen[i], path, temporary, record)
    ensures WholeOrOld(old(d.files), d.files, path, temporary, record)
    ensures done.Success? ==> d.files == old(d.files)[path := record] - {temporary}
    ensures done.Failure? ==> FirstFailure(old(d.faults), d.faults, done.error)
  {
    done := d.Write(fd, record);
    if done.Failure? {
      var _ := d.Close(fd);
      assert d.faults[|old(d.faults)|] == (Writing, done.error);
      return;
    }
    done := d.Close(fd);
    if done.Failure? {
      assert d.faults[|old(d.faults)|] == (Closing, done.error);
      return;
    }
    var attempts;
    done, attempts := ReplaceRecord(d, temporary, path, posix);
  }

  /** A missing temporary file is no error. */
  method RemoveTemporary(d: Directory, temporary: string) returns (done: Done)
    modifies d`files, d`seen, d`faults
    ensures old(d.seen) <= d.seen && |d.seen| == |old(d.seen)| + 1 && d.seen[|d.seen| - 1] == d.files
    ensures d.files == old(d.files) - {temporary} || d.files == old(d.files)
    ensures old(d.faults) <= d.faults
    ensures forall i :: |old(d.faults)| <= i < |d.faults| ==> d.faults[i].0 == Unlinking
    ensures temporary in d.files ==> |d.faults| > |old(d.faults)|
  {
    done := d.Commit(Unlinking, d.files - {temporary});
  }

  // ---------- directory guards ----------

  function FirstError(original: Option<Error>, results: seq<Done>): Option<Error>
    decreases results
  {
    if original.Some? || results == [] then original
    else FirstError(if results[0].Failure? then Some(results[0].error) else None, results[1..])
  }

  /** `_close_guards`: every guard is closed whatever fails; the first failure, or the original one, survives. */
  method CloseGuards(d: Directory, guards: seq<Option<nat>>, original: Option<Error>) returns (raised: Option<Error>, ghost results: seq<Done>)
    modifies d`descriptors, d`faults
    ensures forall g :: g in guards && g.Some? ==> g.value !in d.descriptors
    ensures forall fd :: fd in d.descriptors ==> fd in old(d.descriptors) && d.descriptors[fd] == old(d.descriptors)[fd]
    ensures forall fd :: fd in old(d.descriptors) && fd !in d.descriptors ==> Some(fd) in guards
    ensures raised == if original.Some? then None else FirstError(None, results)
    ensures |results| == |Held(guards)|
  {
    var first := original;
    results := [];
    var i := 0;
    while i < |guards|
      invariant 0 <= i <= |guards|
      invariant forall g :: g in guards[..i] && g.Some? ==> g.value !in d.descriptors
      invariant forall fd :: fd in d.descriptors ==> fd in old(d.descriptors) && d.descriptors[fd] == old(d.descriptors)[fd]
      invariant forall fd :: fd in old(d.descriptors) && fd !in d.descriptors ==> Some(fd) in guards
      invariant first == FirstError(original, results)
      invariant |results| == |Held(guards[..i])|
    {
      assert guards[..i + 1][..i] == guards[..i];
      if guards[i].Some? {
        var done := d.Close(guards[i].value);
        FirstErrorOfMore(original, results, done);
        results := results + [done];
        if first.None? && done.Failure? { first := Some(done.error); }
      }
      i := i + 1;
    }
    assert guards[..i] == guards;
    raised := if original.None? then first else None;
  }

  function Held(guards: seq<Option<nat>>): seq<nat> {
    if guards == [] then []
    else Held(guards[..|guards| - 1]) + (if guards[|guards| - 1].Some? then [guards[|guards| - 1].value] else [])
  }

  lemma {:induction false} FirstErrorOfMore(original: Option<Error>, results: seq<Done>, done: Done)
    ensures FirstError(original, results + [done])
            == if FirstError(original, results).Some? then FirstError(original, results)
               else if done.Failure? then Some(done.error) else None
    decreases results
  {
    if original.None? && results != [] {
      assert (results + [done])[1..] == results[1..] + [done];
      FirstErrorOfMore(if results[0].Failure? then Some(results[0].error) else None, results[1..], done);
    } else if original.None? {
      assert (results + [done])[1..] == [];
    }
  }

  // ---------- one live activity record ----------

  class Tracker {
    const path: string
    const temporary: string
    var guard: Option<nat>

    constructor (path: string, temporary: string)
      ensures this.path == path && this.temporary == temporary && guard.None?
    {
      this.path, this.temporary, guard := path, temporary, None;
    }

    /** `__enter__`: the record is visible and the directory held, or everything opened is closed again. */
    method Enter(d: Directory, record: string, posix: bool) returns (done: Done)
      requires path != temporary && temporary !in d.files && guard.None?
      modifies d, `guard
      ensures done.Success? ==> d.files == old(d.files)[path := record]
                                && guard.Some? && guard.value !in old(d.descriptors)
                                && d.descriptors == old(d.descriptors)[guard.value := "."]
      ensures done.Failure? ==> guard.None? && d.descriptors == old(d.descriptors)
                                && WholeOrOld(old(d.files), d.files, path, temporary, record)
    {
      var fd;
      done, fd := d.OpenGuard();
      if done.Failure? { return; }
      guard := Some(fd);
      done := AtomicWrite(d, path, temporary, record, posix);
      if done.Failure? {
        var raised;
        ghost var results;
        raised, results := CloseGuards(d, [guard], Some(done.error));
        assert d.descriptors == old(d.descriptors) by { assert guard in [guard]; }
        guard := None;
      }
    }

    /** `__exit__`: the record is removed unless that failed, the guard is closed, and the body's own exception is never
        replaced; without one, the first cleanup failure is raised. */
    method Exit(d: Directory, body: Option<Error>) returns (raised: Option<Error>)
      requires guard.Some? && guard.value in d.descriptors
      modifies d, `guard
      ensures guard.None? && d.descriptors == old(d.descriptors) - {old(guard).value}
      ensures path !in d.files || (d.files == old(d.files) && |d.faults| > |old(d.faults)| && d.faults[|old(d.faults)|].0 == Unlinking)
      ensures forall n :: n != path ==> Lookup(d.files, n) == Lookup(old(d.files), n)
      ensures body.Some? ==> raised.None?
      ensures body.None? && raised.None? ==> d.faults == old(d.faults) && path !in d.files
      ensures body.None? && raised.Some? ==> |d.faults| > |old(d.faults)| && raised.value == d.faults[|old(d.faults)|].1
    {
      var removed := d.Commit(Unlinking, d.files - {path});
      var cleanup := if removed.Failure? && body.None? then Some(removed.error) else None;
      var closing := d.Close(guard.value);
      guard := None;
      raised := if body.Some? then None else if cleanup.Some? then cleanup else if closing.Failure? then Some(closing.error) else None;
    }
  }
}
