/** The result-validation loop of `ara benchmark`, and the score it may store. */
module Benchmark {
  import opened Wrappers

  /** A field of one prompt result: missing, of the expected type, or anything else. */
  datatype Value = Missing | Text(text: string) | True | Junk

  /** A usage metric: a whole number, or anything else. */
  datatype Metric = Whole(n: int) | NotWhole

  /** The usage that Ollama reports with a completion: missing, not an object, or named metrics. */
  datatype Usage = NoUsage | JunkUsage | Usage(metrics: map<string, Metric>)

  /** One prompt result, or something that is not an object. */
  datatype Entry = NotAnObject | Entry(index: Option<int>, completion: Value, refused: Value, error: Value, usage: Usage)

  /** The daemon, or a native engine with what its memory authority was found to be after the runs. */
  datatype Mode = OllamaMode | NativeMode(authorityKept: bool)

  const METRIC_NAMES: set<string> := {
    "prompt_tokens", "completion_tokens", "total_duration_ns", "load_duration_ns", "prompt_eval_duration_ns",
    "eval_duration_ns"}

  /** Only known metrics, each a nonnegative whole number; none at all is fine. */
  predicate UsageValid(usage: Usage) {
    usage.Usage? && forall name :: name in usage.metrics ==>
      name in METRIC_NAMES && usage.metrics[name].Whole? && usage.metrics[name].n >= 0
  }

  /** The engine's answer to one run, with what ARA re-checks around it. */
  datatype Reply = Reply(isObject: bool, contextMatches: bool, policyMatches: bool, refused: bool, results: Option<seq<Entry>>, artifactSame: bool)

  datatype Kind = Completed | Refused | Errored

  function Present(v: Value): int {
    if v.Missing? then 0 else 1
  }

  /** Usage is looked at only on a completion of the daemon's. */
  predicate WellFormed(mode: Mode, e: Entry, n: nat) {
    && e.Entry? && e.index.Some? && 0 <= e.index.value < n
    && Present(e.completion) + Present(e.refused) + Present(e.error) == 1
    && (e.completion.Missing? || (e.completion.Text? && (mode.OllamaMode? ==> UsageValid(e.usage))))
    && (e.refused.Missing? || e.refused.True?)
    && (e.error.Missing? || e.error.Text?)
  }

  function KindOf(e: Entry): Kind
    requires e.Entry?
  {
    if !e.completion.Missing? then Completed else if !e.refused.Missing? then Refused else Errored
  }

  /** What the loop accepts: one well-formed entry per result and no index twice. */
  ghost predicate Accepts(mode: Mode, n: nat, results: seq<Entry>) {
    && |results| == n
    && (forall i :: 0 <= i < |results| ==> WellFormed(mode, results[i], n))
    && (forall i, j :: 0 <= i < j < |results| ==> results[i].index != results[j].index)
  }

  function Count(results: seq<Entry>, kind: Kind): nat {
    if results == [] then 0
    else
      var last := results[|results| - 1];
      Count(results[..|results| - 1], kind) + (if last.Entry? && KindOf(last) == kind then 1 else 0)
  }

  /** The completion for every prompt, with an empty text for a refused or failed one. */
  ghost predicate Collected(results: seq<Entry>, completions: seq<string>) {
    forall i :: 0 <= i < |results| && results[i].Entry? && results[i].index.Some? && 0 <= results[i].index.value < |completions| ==>
      completions[results[i].index.value] == if results[i].completion.Text? then results[i].completion.text else ""
  }

  datatype Checked = Invalid | Valid(completions: seq<string>, refused: nat, errored: nat)

  /** The loop after some entries: all of them well-formed, with their indexes seen once and their outcomes noted. */
  ghost predicate Progress(mode: Mode, done: seq<Entry>, n: nat, seen: set<int>, completions: seq<string>, refused: nat, errored: nat) {
    && |completions| == n && |seen| == |done|
    && (forall j :: 0 <= j < |done| ==> WellFormed(mode, done[j], n) && done[j].index.value in seen)
    && (forall j, m :: 0 <= j < m < |done| ==> done[j].index != done[m].index)
    && (forall k :: k in seen ==> 0 <= k < n && IndexAt(done, k))
    && Collected(done, completions)
    && refused == Count(done, Refused) && errored == Count(done, Errored)
  }

  ghost predicate IndexAt(results: seq<Entry>, k: int) {
    exists i :: 0 <= i < |results| && results[i].Entry? && results[i].index == Some(k)
  }

  lemma OneMoreEntry(
    mode: Mode, done: seq<Entry>, e: Entry, n: nat, seen: set<int>, completions: seq<string>, more: seq<string>, refused: nat, errored: nat)
    requires Progress(mode, done, n, seen, completions, refused, errored) && WellFormed(mode, e, n) && e.index.value !in seen
    requires more == if e.completion.Text? then completions[e.index.value := e.completion.text] else completions
    requires completions[e.index.value] == ""
    ensures Progress(mode, done + [e], n, seen + {e.index.value}, more,
                     refused + (if KindOf(e) == Refused then 1 else 0), errored + (if KindOf(e) == Errored then 1 else 0))
  {
    hide IndexAt;
    var all := done + [e];
    assert all[..|all| - 1] == done;
    forall k | k in seen + {e.index.value} ensures IndexAt(all, k) {
      IndexStays(done, e, k);
    }
  }

  lemma IndexStays(done: seq<Entry>, e: Entry, k: int)
    requires e.Entry? && (IndexAt(done, k) || e.index == Some(k))
    ensures IndexAt(done + [e], k)
  {
    var all := done + [e];
    if e.index == Some(k) {
      assert all[|done|] == e;
    } else {
      var i :| 0 <= i < |done| && done[i].Entry? && done[i].index == Some(k);
      assert all[i] == done[i];
    }
  }

  /** A prompt that no entry has named yet still has an empty text. */
  ghost predicate Untouched(seen: set<int>, completions: seq<string>) {
    forall k :: 0 <= k < |completions| && k !in seen ==> completions[k] == ""
  }

  /** The loop over one run's results. What it accepts is a permutation of all prompt indexes. */
  method Validate(mode: Mode, n: nat, results: seq<Entry>) returns (checked: Checked)
    ensures checked.Valid? <==> Accepts(mode, n, results)
    ensures checked.Valid? ==> |checked.completions| == n && Collected(results, checked.completions)
    ensures checked.Valid? ==> checked.refused == Count(results, Refused) && checked.errored == Count(results, Errored)
    ensures checked.Valid? ==> forall k :: 0 <= k < n ==> IndexAt(results, k)
  {
    hide Progress, Count, Collected;
    if |results| != n { return Invalid; }
    var completions := seq(n, _ => "");
    var seen: set<int> := {};
    var refused, errored := 0, 0;
    var i := 0;
    NothingYet(mode, n, completions);
    while i < n
      invariant 0 <= i <= n && |completions| == n && Untouched(seen, completions)
      invariant Progress(mode, results[..i], n, seen, completions, refused, errored)
    {
      var e := results[i];
      ProgressSoFar(mode, results, i, n, seen, completions, refused, errored);
      if e.NotAnObject? || e.index.None? || !(0 <= e.index.value < n) || e.index.value in seen { return Invalid; }
      if Present(e.completion) + Present(e.refused) + Present(e.error) != 1 { return Invalid; }
      ghost var earlier, refusedBefore, erroredBefore := completions, refused, errored;
      if !e.completion.Missing? {
        if !e.completion.Text? { return Invalid; }
        if mode.OllamaMode? && !UsageValid(e.usage) { return Invalid; }
        completions := completions[e.index.value := e.completion.text];
      } else if !e.refused.Missing? {
        if !e.refused.True? { return Invalid; }
        refused := refused + 1;
      } else {
        if !e.error.Text? { return Invalid; }
        errored := errored + 1;
      }
      OneMoreEntry(mode, results[..i], e, n, seen, earlier, completions, refusedBefore, erroredBefore);
      seen := seen + {e.index.value};
      assert results[..i] + [e] == results[..i + 1];
      i := i + 1;
    }
    assert results[..n] == results;
    ProgressEnds(mode, results, n, seen, completions, refused, errored);
    checked := Valid(completions, refused, errored);
  }

  lemma NothingYet(mode: Mode, n: nat, completions: seq<string>)
    requires completions == seq(n, _ => "")
    ensures Progress(mode, [], n, {}, completions, 0, 0) && Untouched({}, completions)
  {
  }

  /** An index that was seen belongs to an earlier entry, so a second one is no acceptable result. */
  lemma ProgressSoFar(mode: Mode, results: seq<Entry>, i: nat, n: nat, seen: set<int>, completions: seq<string>, refused: nat, errored: nat)
    requires i < |results| && Progress(mode, results[..i], n, seen, completions, refused, errored)
    ensures results[i].Entry? && results[i].index.Some? && results[i].index.value in seen ==> !Accepts(mode, n, results)
  {
    if results[i].Entry? && results[i].index.Some? && results[i].index.value in seen {
      assert IndexAt(results[..i], results[i].index.value);
      var j :| 0 <= j < |results[..i]| && results[..i][j].Entry? && results[..i][j].index == Some(results[i].index.value);
      assert results[j].index == results[i].index;
    }
  }

  lemma ProgressEnds(mode: Mode, results: seq<Entry>, n: nat, seen: set<int>, completions: seq<string>, refused: nat, errored: nat)
    requires |results| == n && Progress(mode, results, n, seen, completions, refused, errored)
    ensures Accepts(mode, n, results) && Collected(results, completions)
    ensures refused == Count(results, Refused) && errored == Count(results, Errored)
    ensures forall k :: 0 <= k < n ==> IndexAt(results, k)
  {
    AllSeen(seen, n);
  }

  function UpTo(n: nat): (all: set<int>)
    ensures |all| == n && forall k :: k in all <==> 0 <= k < n
  {
    if n == 0 then {} else UpTo(n - 1) + {n - 1}
  }

  /** As many distinct indexes below `n` as there are leave none out. */
  lemma AllSeen(seen: set<int>, n: nat)
    requires |seen| == n && forall k :: k in seen ==> 0 <= k < n
    ensures forall k :: 0 <= k < n ==> k in seen
  {
    var all := UpTo(n);
    assert seen <= all;
    assert |all - seen| == |all| - |seen|;
    assert all - seen == {};
    assert forall k :: k in all ==> k in seen || k in all - seen;
  }

  /** Every accepted result is exactly one of completed, refused and failed. */
  lemma {:induction false} KindsAddUp(results: seq<Entry>)
    requires forall i :: 0 <= i < |results| ==> results[i].Entry?
    ensures Count(results, Completed) + Count(results, Refused) + Count(results, Errored) == |results|
  {
    if results != [] {
      KindsAddUp(results[..|results| - 1]);
    }
  }

  // ---------- scores ----------

  function Sum(xs: seq<real>): real {
    if xs == [] then 0.0 else Sum(xs[..|xs| - 1]) + xs[|xs| - 1]
  }

  /** A score per item and completion, between 0 and 1. */
  ghost predicate IsJudge(judge: (nat, string) -> real) {
    forall i, text :: 0.0 <= judge(i, text) <= 1.0
  }

  /** `score_probe_set`: the mean of the item scores, and 0 for no items. */
  function ScoreProbeSet(judge: (nat, string) -> real, completions: seq<string>): real {
    var scores := seq(|completions|, i requires 0 <= i < |completions| => judge(i, completions[i]));
    if scores == [] then 0.0 else Sum(scores) / |scores| as real
  }

  lemma {:induction false} SumBounds(xs: seq<real>, lo: real, hi: real)
    requires forall i :: 0 <= i < |xs| ==> lo <= xs[i] <= hi
    ensures lo * |xs| as real <= Sum(xs) <= hi * |xs| as real
  {
    if xs != [] {
      SumBounds(xs[..|xs| - 1], lo, hi);
      assert |xs| as real == |xs[..|xs| - 1]| as real + 1.0;
    }
  }

  /** A mean lies between any bounds of its values. */
  lemma MeanBounds(xs: seq<real>, lo: real, hi: real)
    requires xs != [] && forall i :: 0 <= i < |xs| ==> lo <= xs[i] <= hi
    ensures lo <= Sum(xs) / |xs| as real <= hi
  {
    SumBounds(xs, lo, hi);
    var n := |xs| as real;
    assert (Sum(xs) / n) * n == Sum(xs);
  }

  /** Every item counts once and equally: one more item adds its own score to the total over one more item. */
  lemma OneMoreItemScored(judge: (nat, string) -> real, completions: seq<string>, next: string)
    ensures ScoreProbeSet(judge, []) == 0.0
    ensures ScoreProbeSet(judge, completions + [next]) * (|completions| + 1) as real
            == ScoreProbeSet(judge, completions) * |completions| as real + judge(|completions|, next)
  {
    var n, all := |completions|, completions + [next];
    var scores := seq(n, i requires 0 <= i < n => judge(i, completions[i]));
    var more := seq(n + 1, i requires 0 <= i < n + 1 => judge(i, all[i]));
    assert more[..|more| - 1] == scores && more[|more| - 1] == judge(n, next);
    assert Sum(more) == Sum(scores) + judge(n, next);
    assert Sum(more) / (n + 1) as real * (n + 1) as real == Sum(more);
    if n > 0 {
      assert Sum(scores) / n as real * n as real == Sum(scores);
    }
  }

  lemma ProbeScoreBounds(judge: (nat, string) -> real, completions: seq<string>)
    requires IsJudge(judge)
    ensures 0.0 <= ScoreProbeSet(judge, completions) <= 1.0
  {
    if completions != [] {
      MeanBounds(seq(|completions|, i requires 0 <= i < |completions| => judge(i, completions[i])), 0.0, 1.0);
    }
  }

  // ---------- all runs ----------

  datatype Stored = NotStored | Stored(score: real, lo: real, hi: real, refused: nat, errored: nat, total: nat)

  /** Results of one kind over a number of runs. */
  function CountAll(replies: seq<Reply>, kind: Kind): nat {
    if replies == [] then 0
    else
      var last := replies[|replies| - 1];
      CountAll(replies[..|replies| - 1], kind) + (if last.results.Some? then Count(last.results.value, kind) else 0)
  }

  ghost predicate RunAccepted(mode: Mode, reply: Reply, n: nat) {
    && reply.isObject && reply.contextMatches && (mode.OllamaMode? ==> reply.policyMatches) && !reply.refused && reply.artifactSame
    && reply.results.Some? && Accepts(mode, n, reply.results.value)
  }

  /** The score of one run: every accepted completion at its own prompt, and an empty text for the others. */
  ghost predicate IsRunScore(judge: (nat, string) -> real, n: nat, reply: Reply, score: real)
    requires reply.results.Some?
  {
    exists completions: seq<string> ::
      |completions| == n && Collected(reply.results.value, completions) && score == ScoreProbeSet(judge, completions)
  }

  lemma HasCompletions(judge: (nat, string) -> real, n: nat, reply: Reply, completions: seq<string>)
    requires reply.results.Some? && |completions| == n && Collected(reply.results.value, completions)
    ensures IsRunScore(judge, n, reply, ScoreProbeSet(judge, completions))
  {
  }

  lemma NothingCounted()
    ensures forall kind :: CountAll([], kind) == 0
  {
  }

  lemma CountOneMore(mode: Mode, n: nat, replies: seq<Reply>, i: nat)
    requires i < |replies| && RunAccepted(mode, replies[i], n)
    ensures forall kind :: CountAll(replies[..i + 1], kind) == CountAll(replies[..i], kind) + Count(replies[i].results.value, kind)
    ensures var r := replies[i].results.value; Count(r, Completed) + Count(r, Refused) + Count(r, Errored) == n
    ensures n * (i + 1) == n * i + n
  {
    assert replies[..i + 1][..i] == replies[..i];
    KindsAddUp(replies[i].results.value);
  }

  method Extremes(xs: seq<real>) returns (lo: real, hi: real)
    requires xs != []
    ensures lo in xs && hi in xs && forall i :: 0 <= i < |xs| ==> lo <= xs[i] <= hi
  {
    lo, hi := xs[0], xs[0];
    var i := 1;
    while i < |xs|
      invariant 1 <= i <= |xs| && lo in xs && hi in xs
      invariant forall j :: 0 <= j < i ==> lo <= xs[j] <= hi
    {
      if xs[i] < lo { lo := xs[i]; }
      if xs[i] > hi { hi := xs[i]; }
      i := i + 1;
    }
  }

  /** The runs of one benchmark: a score is stored exactly when every run was accepted, a native engine's memory authority
      was still the same after them and, unless there was nothing to ask, at least one prompt was completed; and it is
      the mean of the run scores. */
  method RunAll(mode: Mode, n: nat, replies: seq<Reply>, judge: (nat, string) -> real) returns (stored: Stored, runs: seq<real>)
    requires replies != [] && IsJudge(judge)
    ensures stored.Stored? <==> (forall i :: 0 <= i < |replies| ==> RunAccepted(mode, replies[i], n))
                                && (mode.NativeMode? ==> mode.authorityKept) && (n > 0 ==> CountAll(replies, Completed) > 0)
    ensures stored.Stored? ==>
              && stored.total == n * |replies|
              && stored.refused == CountAll(replies, Refused) && stored.errored == CountAll(replies, Errored)
              && CountAll(replies, Completed) + stored.refused + stored.errored == stored.total
              && 0.0 <= stored.lo <= stored.score <= stored.hi <= 1.0
    ensures stored.Stored? ==>
              && |runs| == |replies| && stored.score == Sum(runs) / |runs| as real && stored.lo in runs && stored.hi in runs
              && forall i :: 0 <= i < |replies| ==> RunAccepted(mode, replies[i], n) && IsRunScore(judge, n, replies[i], runs[i])
  {
    hide Accepts, Collected, IndexAt, CountAll, ScoreProbeSet, Sum, IsJudge, IsRunScore;
    runs := [];
    var refused, errored := 0, 0;
    var i := 0;
    NothingCounted();
    while i < |replies|
      invariant 0 <= i <= |replies| && |runs| == i
      invariant forall j :: 0 <= j < i ==> RunAccepted(mode, replies[j], n)
      invariant forall j :: 0 <= j < i ==> 0.0 <= runs[j] <= 1.0 && IsRunScore(judge, n, replies[j], runs[j])
      invariant refused == CountAll(replies[..i], Refused) && errored == CountAll(replies[..i], Errored)
      invariant CountAll(replies[..i], Completed) + refused + errored == n * i
    {
      var reply := replies[i];
      if !reply.isObject || !reply.contextMatches || (mode.OllamaMode? && !reply.policyMatches) || reply.refused || reply.results.None? { return NotStored, runs; }
      var checked := Validate(mode, n, reply.results.value);
      if checked.Invalid? || !reply.artifactSame { return NotStored, runs; }
      CountOneMore(mode, n, replies, i);
      ProbeScoreBounds(judge, checked.completions);
      refused, errored := refused + checked.refused, errored + checked.errored;
      var score := ScoreProbeSet(judge, checked.completions);
      assert IsRunScore(judge, n, reply, score) by { HasCompletions(judge, n, reply, checked.completions); }
      runs := runs + [score];
      i := i + 1;
    }
    assert replies[..i] == replies;
    if mode.NativeMode? && !mode.authorityKept { return NotStored, runs; }
    if n > 0 && refused + errored == n * |replies| { return NotStored, runs; }
    MeanBounds(runs, 0.0, 1.0);
    var lo, hi := Extremes(runs);
    MeanBounds(runs, lo, hi);
    stored := Stored(Sum(runs) / |replies| as real, lo, hi, refused, errored, n * |replies|);
  }
}
