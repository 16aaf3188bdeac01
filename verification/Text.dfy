/** Strings ordered as Python orders them, ASCII case folding, and splitting on one separator. */
module Text {

  /** Python's `a < b` on strings: lexicographic by code point. */
  predicate Precedes(a: string, b: string) {
    if b == [] then false
    else if a == [] then true
    else if a[0] != b[0] then a[0] < b[0]
    else Precedes(a[1..], b[1..])
  }

  lemma {:induction false} PrecedesTransitive(a: string, b: string, c: string)
    requires Precedes(a, b) && Precedes(b, c)
    ensures Precedes(a, c)
  {
    if a != [] && a[0] == b[0] && b[0] == c[0] {
      PrecedesTransitive(a[1..], b[1..], c[1..]);
    }
  }

  lemma {:induction false} PrecedesTotal(a: string, b: string)
    ensures (if Precedes(a, b) then 1 else 0) + (if Precedes(b, a) then 1 else 0) + (if a == b then 1 else 0) == 1
  {
    if a != [] && b != [] && a[0] == b[0] {
      PrecedesTotal(a[1..], b[1..]);
      assert a == [a[0]] + a[1..] && b == [b[0]] + b[1..];
    }
  }

  function LowerChar(c: char): char {
    if 'A' <= c <= 'Z' then (c as int + 32) as char else c
  }

  function Lower(s: string): (r: string)
    ensures |r| == |s|
    ensures forall i :: 0 <= i < |s| ==> r[i] == LowerChar(s[i])
  {
    if s == [] then [] else [LowerChar(s[0])] + Lower(s[1..])
  }

  /** ASCII whitespace as Python's `strip`, `split` and `int` see it; the four separators 28 to 31 are among it. */
  predicate IsSpace(c: char) {
    9 <= c as int <= 13 || 28 <= c as int <= 32
  }

  /** Decimal digits of a natural number. */
  function Digits(n: nat): (s: string)
    ensures s != [] && forall c :: c in s ==> '0' <= c <= '9'
  {
    if n < 10 then [('0' as int + n) as char] else Digits(n / 10) + [('0' as int + n % 10) as char]
  }

  /** Python's `s.split(sep)` for a one-character separator. */
  function Split(s: string, sep: char): (parts: seq<string>)
    ensures |parts| >= 1
    ensures forall p :: p in parts ==> sep !in p
  {
    if s == [] then [[]]
    else
      var rest := Split(s[1..], sep);
      if s[0] == sep then [[]] + rest else [[s[0]] + rest[0]] + rest[1..]
  }

  /** Python's `sep.join(parts)` for a one-character separator. */
  function Join(parts: seq<string>, sep: char): string {
    if parts == [] then []
    else if |parts| == 1 then parts[0]
    else parts[0] + [sep] + Join(parts[1..], sep)
  }

  lemma {:induction false} JoinSplit(s: string, sep: char)
    ensures Join(Split(s, sep), sep) == s
  {
    if s != [] {
      var rest := Split(s[1..], sep);
      JoinSplit(s[1..], sep);
      if s[0] == sep {
        assert ([[]] + rest)[1..] == rest;
        calc {
          Join([[]] + rest, sep);
          [] + [sep] + Join(rest, sep);
          s;
        }
      } else {
        JoinPrefix([s[0]], rest, sep);
      }
    }
  }

  lemma JoinPrefix(prefix: string, parts: seq<string>, sep: char)
    requires |parts| >= 1
    ensures Join([prefix + parts[0]] + parts[1..], sep) == prefix + Join(parts, sep)
  {
    var glued := [prefix + parts[0]] + parts[1..];
    if |parts| > 1 {
      assert glued[1..] == parts[1..];
      assert prefix + (parts[0] + [sep] + Join(parts[1..], sep)) == (prefix + parts[0]) + [sep] + Join(parts[1..], sep);
    }
  }

  lemma {:induction false} SplitJoin(parts: seq<string>, sep: char)
    requires |parts| >= 1
    requires forall p :: p in parts ==> sep !in p
    ensures Split(Join(parts, sep), sep) == parts
  {
    if |parts| == 1 {
      SplitOne(parts[0], sep);
    } else {
      SplitJoin(parts[1..], sep);
      SplitHead(parts[0], Join(parts[1..], sep), sep);
      assert parts[0] + [sep] + Join(parts[1..], sep) == parts[0] + ([sep] + Join(parts[1..], sep));
      assert parts == [parts[0]] + parts[1..];
    }
  }

  lemma {:induction false} SplitOne(p: string, sep: char)
    requires sep !in p
    ensures Split(p, sep) == [p]
  {
    if p != [] {
      SplitOne(p[1..], sep);
      assert [p[0]] + p[1..] == p;
    }
  }

  lemma {:induction false} SplitHead(head: string, rest: string, sep: char)
    requires sep !in head
    ensures Split(head + ([sep] + rest), sep) == [head] + Split(rest, sep)
  {
    var s := head + ([sep] + rest);
    if head == [] {
      assert s[0] == sep && s[1..] == rest;
    } else {
      assert s[0] == head[0] && s[1..] == head[1..] + ([sep] + rest);
      SplitHead(head[1..], rest, sep);
      assert [s[0]] + head[1..] == head;
    }
  }
}
