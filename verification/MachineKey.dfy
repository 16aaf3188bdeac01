/** Machine identities: the versioned key, and the rewriting of the older byte-exact form. */
module MachineKey {
  import opened Wrappers
  import opened Text

  const KEY_VERSION := "ara1"
  const GIB := 0x4000_0000

  // ---------- integers as text ----------

  /** Python's `str` of an integer. */
  function IntText(n: int): (s: string)
    ensures s != []
  {
    if n < 0 then "-" + Digits(-n) else Digits(n)
  }

  function TrimLeft(s: string): string {
    if s != [] && IsSpace(s[0]) then TrimLeft(s[1..]) else s
  }

  function TrimRight(s: string): string {
    if s != [] && IsSpace(s[|s| - 1]) then TrimRight(s[..|s| - 1]) else s
  }

  /** Digits with single underscores between them, as Python's `int` reads them. */
  function ParseDigits(s: string): Option<int> {
    if s == [] || !('0' <= s[|s| - 1] <= '9') then None
    else
      var last := s[|s| - 1] as int - '0' as int;
      var front := s[..|s| - 1];
      if front == [] then Some(last)
      else
        var higher := ParseDigits(if front[|front| - 1] == '_' then front[..|front| - 1] else front);
        if higher.None? then None else Some(higher.value * 10 + last)
  }

  /** Python's `int(text)` on ASCII text. */
  function ParseInt(text: string): Option<int> {
    var s := TrimRight(TrimLeft(text));
    if s == [] then None
    else if s[0] == '-' then
      var n := ParseDigits(s[1..]);
      if n.None? then None else Some(-n.value)
    else ParseDigits(if s[0] == '+' then s[1..] else s)
  }

  lemma {:induction false} ParseDigitsRoundTrip(n: nat)
    ensures ParseDigits(Digits(n)) == Some(n)
  {
    if n >= 10 {
      ParseDigitsRoundTrip(n / 10);
      var s := Digits(n);
      assert s[..|s| - 1] == Digits(n / 10);
      assert Digits(n / 10)[|Digits(n / 10)| - 1] in Digits(n / 10);
    }
  }

  /** Reading back a written integer gives that integer. */
  lemma ParseIntRoundTrip(n: int)
    ensures ParseInt(IntText(n)) == Some(n)
  {
    hide Digits, ParseDigits;
    var s := IntText(n);
    var digits := Digits(if n < 0 then -n else n);
    assert digits[0] in digits && digits[|digits| - 1] in digits;
    assert s[|s| - 1] == digits[|digits| - 1];
    ParseDigitsRoundTrip(if n < 0 then -n else n);
    if n < 0 {
      assert s[1..] == digits;
    }
  }

  lemma IntTextHasNoBar(n: int)
    ensures '|' !in IntText(n)
  {
  }

  // ---------- rounding to GiB ----------

  /** Python's `round` of a quotient by 2^30: to the nearest, ties to even. */
  function RoundHalfEven(n: int): int {
    var q, r := n / GIB, n % GIB;
    if 2 * r < GIB then q else if 2 * r > GIB then q + 1 else if q % 2 == 0 then q else q + 1
  }

  /** The rounded value is nearest, and even when two are equally near. */
  lemma RoundHalfEvenIsNearest(n: int, other: int)
    ensures Distance(n, RoundHalfEven(n) * GIB) <= Distance(n, other * GIB)
    ensures other != RoundHalfEven(n) && Distance(n, RoundHalfEven(n) * GIB) == Distance(n, other * GIB) ==>
              RoundHalfEven(n) % 2 == 0
  {
  }

  function Distance(a: int, b: int): int {
    if a <= b then b - a else a - b
  }

  // ---------- the key ----------

  function MachineKey(chip: string, accelerator: string, ram: int, os: string): string {
    Text.Join([KEY_VERSION, chip, accelerator, IntText(RoundHalfEven(ram)), os], '|')
  }

  /** `rekey_legacy_key`. */
  function RekeyLegacyKey(legacy: string): Option<string> {
    if KEY_VERSION + "|" <= legacy then None
    else
      var parts := Text.Split(legacy, '|');
      if |parts| != 4 || ParseInt(parts[2]).None? then None
      else Some(MachineKey(parts[0], parts[1], ParseInt(parts[2]).value, parts[3]))
  }

  /** A rewritten key is versioned, so rewriting stops there. */
  lemma RekeyIsIdempotent(legacy: string)
    requires RekeyLegacyKey(legacy).Some?
    ensures RekeyLegacyKey(RekeyLegacyKey(legacy).value).None?
  {
    var parts := Text.Split(legacy, '|');
    MachineKeyIsVersioned(parts[0], parts[1], ParseInt(parts[2]).value, parts[3]);
  }

  lemma MachineKeyIsVersioned(chip: string, accelerator: string, ram: int, os: string)
    ensures KEY_VERSION + "|" <= MachineKey(chip, accelerator, ram, os)
  {
    var parts := [KEY_VERSION, chip, accelerator, IntText(RoundHalfEven(ram)), os];
    assert Text.Join(parts, '|') == parts[0] + ['|'] + Text.Join(parts[1..], '|');
  }

  predicate BarFree(s: string) {
    '|' !in s
  }

  /** The byte-exact key that an older ARA wrote for a machine becomes that machine's present key, unless the chip is
      named like the version tag itself, in which case the key is left alone. */
  lemma LegacyKeyBecomesPresentKey(chip: string, accelerator: string, ram: int, os: string)
    requires BarFree(chip) && BarFree(accelerator) && BarFree(os)
    ensures RekeyLegacyKey(Text.Join([chip, accelerator, IntText(ram), os], '|'))
            == (if chip == KEY_VERSION then None else Some(MachineKey(chip, accelerator, ram, os)))
  {
    var parts := [chip, accelerator, IntText(ram), os];
    var legacy := Text.Join(parts, '|');
    IntTextHasNoBar(ram);
    Text.SplitJoin(parts, '|');
    ParseIntRoundTrip(ram);
    assert legacy == chip + ['|'] + Text.Join(parts[1..], '|');
    if chip != KEY_VERSION && KEY_VERSION + "|" <= legacy {
      FirstFieldIsFixed(legacy, chip, KEY_VERSION);
    }
  }

  /** Only one bar-free text ends at the first bar. */
  lemma FirstFieldIsFixed(s: string, a: string, b: string)
    requires BarFree(a) && BarFree(b) && a + "|" <= s && b + "|" <= s
    ensures a == b
  {
    assert s == a + (['|'] + s[|a| + 1..]);
    assert s == b + (['|'] + s[|b| + 1..]);
    Text.SplitHead(a, s[|a| + 1..], '|');
    Text.SplitHead(b, s[|b| + 1..], '|');
    assert Text.Split(s, '|')[0] == a && Text.Split(s, '|')[0] == b;
  }

  /** Two memory readings of one machine share the key exactly when they round to the same GiB. */
  lemma KeyIgnoresSmallDrift(chip: string, accelerator: string, ram: int, other: int, os: string)
    requires BarFree(chip) && BarFree(accelerator) && BarFree(os)
    ensures MachineKey(chip, accelerator, ram, os) == MachineKey(chip, accelerator, other, os)
            <==> RoundHalfEven(ram) == RoundHalfEven(other)
  {
    var x := [KEY_VERSION, chip, accelerator, IntText(RoundHalfEven(ram)), os];
    var y := [KEY_VERSION, chip, accelerator, IntText(RoundHalfEven(other)), os];
    IntTextHasNoBar(RoundHalfEven(ram));
    IntTextHasNoBar(RoundHalfEven(other));
    Text.SplitJoin(x, '|');
    Text.SplitJoin(y, '|');
    ParseIntRoundTrip(RoundHalfEven(ram));
    ParseIntRoundTrip(RoundHalfEven(other));
    if Text.Join(x, '|') == Text.Join(y, '|') {
      assert x[3] == y[3];
    }
  }

  /** A key gives back its parts in order: the tag, the chip, the accelerator, the memory in whole GiB, and the system. */
  lemma KeyFieldsReadBack(chip: string, accelerator: string, ram: int, os: string)
    requires BarFree(chip) && BarFree(accelerator) && BarFree(os)
    ensures var fields := Text.Split(MachineKey(chip, accelerator, ram, os), '|');
            && |fields| == 5 && fields[0] == "ara1" && fields[1] == chip && fields[2] == accelerator && fields[4] == os
            && ParseInt(fields[3]).Some? && 2 * Distance(ram, ParseInt(fields[3]).value * 0x4000_0000) <= 0x4000_0000
  {
    var parts := [KEY_VERSION, chip, accelerator, IntText(RoundHalfEven(ram)), os];
    IntTextHasNoBar(RoundHalfEven(ram));
    Text.SplitJoin(parts, '|');
    ParseIntRoundTrip(RoundHalfEven(ram));
  }

  /** Two machines share a key exactly when chip, accelerator, system and rounded memory are the same. */
  lemma KeysEqualExactly(chip: string, accelerator: string, ram: int, os: string, chip': string, accelerator': string, ram': int, os': string)
    requires BarFree(chip) && BarFree(accelerator) && BarFree(os) && BarFree(chip') && BarFree(accelerator') && BarFree(os')
    ensures MachineKey(chip, accelerator, ram, os) == MachineKey(chip', accelerator', ram', os')
            <==> chip == chip' && accelerator == accelerator' && os == os' && RoundHalfEven(ram) == RoundHalfEven(ram')
  {
    var x := [KEY_VERSION, chip, accelerator, IntText(RoundHalfEven(ram)), os];
    var y := [KEY_VERSION, chip', accelerator', IntText(RoundHalfEven(ram')), os'];
    IntTextHasNoBar(RoundHalfEven(ram));
    IntTextHasNoBar(RoundHalfEven(ram'));
    Text.SplitJoin(x, '|');
    Text.SplitJoin(y, '|');
    ParseIntRoundTrip(RoundHalfEven(ram));
    ParseIntRoundTrip(RoundHalfEven(ram'));
    if Text.Join(x, '|') == Text.Join(y, '|') {
      assert x[1] == y[1] && x[2] == y[2] && x[3] == y[3] && x[4] == y[4];
    }
  }
}
