/** The probe contexts of the residency ramp, and what stopping at the first failure loses. */
module RampSchedule {
  import opened Wrappers
  import opened Evidence
  import opened AdmissionProofs

  const FLOOR := 2048

  function Pow2(k: nat): (p: nat)
    ensures p >= 1
  {
    if k == 0 then 1 else 2 * Pow2(k - 1)
  }

  /** `n`, `2n`, `4n`, ... strictly below `max`, then `max`. */
  function RungsFrom(n: nat, max: int): (rungs: seq<int>)
    requires n >= 1
    ensures |rungs| >= 1
    decreases max - n
  {
    if n < max then [n] + RungsFrom(2 * n, max) else [max]
  }

  function Rungs(max: int): (rungs: seq<int>)
    ensures |rungs| >= 1
  {
    RungsFrom(FLOOR, max)
  }

  ghost predicate Ascending(s: seq<int>) {
    forall i, j :: 0 <= i < j < |s| ==> s[i] < s[j]
  }

  ghost predicate AtMostDoubling(s: seq<int>) {
    forall i, j :: 0 <= i < j < |s| && j == i + 1 ==> s[j] <= 2 * s[i]
  }

  function SetOf(s: seq<int>): set<int> {
    set x | x in s
  }

  /** `_ollama_ramp_contexts`: a set filled by doubling, completed with `max`, then sorted. */
  method RampContexts(max: int) returns (rungs: seq<int>)
    ensures rungs == Rungs(max)
  {
    var found: set<int> := {};
    var n := FLOOR;
    while n < max
      invariant n >= 1
      invariant forall x :: x in found ==> x < n && x < max
      invariant SetOf(Rungs(max)) == found + SetOf(RungsFrom(n, max))
      decreases max - n
    {
      assert RungsFrom(n, max) == [n] + RungsFrom(2 * n, max);
      found := found + {n};
      n := n * 2;
    }
    found := found + {max};
    assert RungsFrom(n, max) == [max];
    rungs := Sorted(found);
    RungsShape(FLOOR, max);
    AscendingIsUnique(rungs, Rungs(max));
  }

  /** Python's `sorted` on a set of integers, by repeatedly taking the least element. */
  method Sorted(s: set<int>) returns (r: seq<int>)
    ensures Ascending(r) && SetOf(r) == s
  {
    hide Ascending, SetOf, Below;
    r := [];
    var left := s;
    NothingSorted(s);
    while left != {}
      invariant Ascending(r) && Below(r, left) && SetOf(r) + left == s
      decreases |left|
    {
      var least := Least(left);
      AppendLargest(r, left, least);
      r := r + [least];
      left := left - {least};
    }
  }

  ghost predicate Below(r: seq<int>, left: set<int>) {
    forall x, y :: x in r && y in left ==> x < y
  }

  lemma NothingSorted(s: set<int>)
    ensures Ascending([]) && Below([], s) && SetOf([]) == {}
  {
  }

  lemma AppendLargest(r: seq<int>, left: set<int>, x: int)
    requires Ascending(r) && Below(r, left) && x in left && forall y :: y in left ==> x <= y
    ensures Ascending(r + [x]) && Below(r + [x], left - {x}) && SetOf(r + [x]) == SetOf(r) + {x}
  {
    assert forall i :: 0 <= i < |r| ==> r[i] in r;
    assert forall y :: y in r + [x] <==> y in r || y == x;
  }

  /** A set of integers that is not empty has a member to start from. */
  lemma SomeMember(s: set<int>)
    ensures s == {} || exists x :: x in s
  {
    if forall x :: x !in s {
      assert s == {};
    }
  }

  method Least(s: set<int>) returns (m: int)
    requires s != {}
    ensures m in s && forall x :: x in s ==> m <= x
  {
    SomeMember(s);
    m :| m in s;
    var left := s - {m};
    while left != {}
      invariant left <= s && m in s
      invariant forall x :: x in s && x !in left ==> m <= x
      decreases |left|
    {
      SomeMember(left);
      var x :| x in left;
      left := left - {x};
      m := if x < m then x else m;
    }
  }

  /** Two ascending sequences with the same elements are the same sequence. */
  lemma {:induction false} AscendingIsUnique(a: seq<int>, b: seq<int>)
    requires Ascending(a) && Ascending(b) && SetOf(a) == SetOf(b)
    ensures a == b
  {
    if b != [] {
      assert b[0] in SetOf(a);
    }
    if a != [] {
      assert a[0] in SetOf(b);
      assert a[0] == b[0];
      forall x ensures x in SetOf(a[1..]) <==> x in SetOf(b[1..]) {
        assert x in SetOf(a) <==> x == a[0] || x in a[1..];
        assert x in SetOf(b) <==> x == b[0] || x in b[1..];
        assert a[0] !in a[1..] && b[0] !in b[1..];
      }
      AscendingIsUnique(a[1..], b[1..]);
    }
  }

  /** Rungs ascend, at most double from one to the next, and end at the maximum. */
  lemma {:induction false} RungsShape(n: nat, max: int)
    requires n >= 1
    ensures var r := RungsFrom(n, max);
            && Ascending(r)
            && r[|r| - 1] == max
            && AtMostDoubling(r)
            && (forall i :: 0 <= i < |r| ==> r[i] >= n || r[i] == max)
            && r[0] == Min(n, max)
    decreases max - n
  {
    if n < max {
      RungsShape(2 * n, max);
    }
  }

  /** Before the last, the rung at index `i` is the first one doubled `i` times. */
  lemma {:induction false} RungsArePowers(n: nat, max: int, i: nat)
    requires n >= 1 && i < |RungsFrom(n, max)| - 1
    ensures RungsFrom(n, max)[i] == n * Pow2(i)
    decreases i
  {
    if i > 0 {
      RungsArePowers(2 * n, max, i - 1);
      assert 2 * n * Pow2(i - 1) == n * (2 * Pow2(i - 1));
    }
  }

  /** The rung count is logarithmic: doubling from the floor once per rung before the last stays below the maximum. */
  lemma RungCountIsLogarithmic(max: int)
    ensures |Rungs(max)| >= 2 ==> FLOOR * Pow2(|Rungs(max)| - 2) < max <= FLOOR * Pow2(|Rungs(max)| - 1)
    ensures |Rungs(max)| == 1 <==> max <= FLOOR
  {
    RungsShape(FLOOR, max);
    var r := Rungs(max);
    if |r| >= 2 {
      RungsArePowers(FLOOR, max, |r| - 2);
    }
  }

  // ---------- stopping at the first refusal ----------

  /** The last rung before the first one refused, as the ramp computes it. */
  function FirstStop(rungs: seq<int>, admit: int -> bool): Option<int> {
    if rungs == [] || !admit(rungs[0]) then None
    else if FirstStop(rungs[1..], admit).None? then Some(rungs[0])
    else FirstStop(rungs[1..], admit)
  }

  /** `best` is the largest admitted rung of all, or `None` when none is admitted. */
  ghost predicate IsLargestAdmitted(rungs: seq<int>, admit: int -> bool, best: Option<int>) {
    match best
    case None => forall r :: r in rungs ==> !admit(r)
    case Some(b) => b in rungs && admit(b) && forall r :: r in rungs && admit(r) ==> r <= b
  }

  lemma {:induction false} StoppingEarlyLosesNothing(rungs: seq<int>, admit: int -> bool)
    requires Ascending(rungs)
    requires forall x, y :: x in rungs && y in rungs && x <= y && admit(y) ==> admit(x)
    ensures IsLargestAdmitted(rungs, admit, FirstStop(rungs, admit))
  {
    if rungs != [] {
      StoppingEarlyLosesNothing(rungs[1..], admit);
    }
  }

  /** On one fixed memory snapshot the early stop finds the same ceiling as testing every rung, and when the
      largest admissible context (capped at the model's maximum) reaches the floor, the ceiling exceeds half of it. */
  lemma CeilingExceedsHalfOfLargest(s: MemorySnapshot, size: Option<int>, info: ModelInfo, max: int)
    ensures var admit := c => Admits(s, size, c, info);
            var best := FirstStop(Rungs(max), admit);
            var largest := Min(LargestAdmissible(s, size, info), max);
            && IsLargestAdmitted(Rungs(max), admit, best)
            && (largest >= FLOOR ==> best.Some? && best.value <= largest < 2 * best.value)
            && (best.Some? ==> best.value <= largest)
            && (largest == max >= 1 ==> best == Some(max))
  {
    var admit := c => Admits(s, size, c, info);
    var largest := LargestAdmissible(s, size, info);
    forall c ensures admit(c) <==> 1 <= c <= largest {
      AdmittedExactlyUpToLargest(s, size, c, info);
    }
    CeilingOfThreshold(admit, largest, max);
  }

  /** The same for any admission that accepts exactly the contexts from 1 to a threshold. */
  lemma CeilingOfThreshold(admit: int -> bool, threshold: int, max: int)
    requires forall c :: admit(c) <==> 1 <= c <= threshold
    ensures var best := FirstStop(Rungs(max), admit);
            var largest := Min(threshold, max);
            && IsLargestAdmitted(Rungs(max), admit, best)
            && (largest >= FLOOR ==> best.Some? && best.value <= largest < 2 * best.value)
            && (best.Some? ==> best.value <= largest)
            && (largest == max >= 1 ==> best == Some(max))
  {
    hide RungsFrom, FirstStop, Ascending, AtMostDoubling;
    var r := Rungs(max);
    var best := FirstStop(r, admit);
    var largest := Min(threshold, max);
    RungsShape(FLOOR, max);
    RungsInRange(r, max);
    StoppingEarlyLosesNothing(r, admit);
    if largest >= FLOOR {
      RungBelow(r, largest);
      var x :| x in r && x <= largest < 2 * x;
      assert admit(x);
    }
  }

  lemma RungsInRange(r: seq<int>, max: int)
    requires r == Rungs(max)
    ensures max in r && forall x :: x in r ==> x <= max && (x >= FLOOR || x == max)
  {
    RungsShape(FLOOR, max);
  }

  /** Every value between the first and the last rung lies below twice some rung that does not exceed it. */
  lemma {:induction false} RungBelow(r: seq<int>, t: int)
    requires |r| >= 1 && r[0] <= t <= r[|r| - 1]
    requires AtMostDoubling(r)
    requires Ascending(r) && r[0] >= 1
    ensures exists x :: x in r && x <= t < 2 * x
  {
    if |r| == 1 || t < r[1] {
      assert r[0] in r;
    } else {
      RungBelow(r[1..], t);
      var x :| x in r[1..] && x <= t < 2 * x;
      assert x in r;
    }
  }
}
