/** Content-addressed names of ARA's derived models, and when a recorded probe is recognised again. */
module GovernedNames {
  import opened Wrappers
  import opened Evidence
  import opened Characterization
  import opened Events
  import opened Text
  import MachineKey

  const HASH_DIGITS := 24

  /** The shape of the truncated SHA-256 of policy, model, manifest and context. Nothing is said of collisions. */
  ghost predicate IsNameHash(hash: (string, ArtifactId, int) -> string) {
    forall m, a, c :: |hash(m, a, c)| == HASH_DIGITS && AllHex(hash(m, a, c))
  }

  /** There is such a hash. */
  lemma SomeNameHash()
    ensures IsNameHash((m: string, a: ArtifactId, c: int) => "000000000000000000000000")
  {
  }

  predicate AllHex(s: string) {
    forall i :: 0 <= i < |s| ==> IsHex(s[i])
  }

  predicate IsSafe(c: char) {
    'a' <= c <= 'z' || '0' <= c <= '9' || c in "._-"
  }

  function Dashed(s: string): string {
    if s == [] then [] else [if IsSafe(s[0]) then s[0] else '-'] + Dashed(s[1..])
  }

  function StripLeft(s: string): string {
    if s != [] && s[0] in "-._" then StripLeft(s[1..]) else s
  }

  function StripRight(s: string): string {
    if s != [] && s[|s| - 1] in "-._" then StripRight(s[..|s| - 1]) else s
  }

  function Slug(model: string): string {
    var stripped := StripRight(StripLeft(Dashed(Text.Lower(model))));
    var named := if stripped == [] then "model" else stripped;
    if |named| <= 40 then named else named[..40]
  }

  /** `_governed_name` with a manifest and a context. */
  function GovernedName(hash: (string, ArtifactId, int) -> string, model: string, artifact: ArtifactId, context: nat): string {
    "ara-" + Slug(model) + "-ctx" + Digits(context) + "-" + hash(model, artifact, context)
  }

  function ProbeName(hash: (string, ArtifactId, int) -> string, model: string, artifact: ArtifactId, context: nat): string {
    GovernedName(hash, model, artifact, context) + "-probe"
  }

  // ---------- recognising a derived name ----------

  function RemoveSuffix(s: string, suffix: string): string {
    if EndsWith(s, suffix) then s[..|s| - |suffix|] else s
  }

  /** Position of the last dash, or -1. */
  function LastDash(s: string): (i: int)
    ensures -1 <= i < |s|
    ensures i >= 0 ==> s[i] == '-'
    ensures forall k :: i < k < |s| ==> s[k] != '-'
  {
    if s == [] then -1 else if s[|s| - 1] == '-' then |s| - 1 else LastDash(s[..|s| - 1])
  }

  predicate Contains(s: string, part: string) {
    part <= s || (s != [] && Contains(s[1..], part))
  }

  /** `_is_ara_ollama_derived`. */
  predicate IsDerived(name: string) {
    var base := RemoveSuffix(RemoveSuffix(name, ":latest"), "-probe");
    var dash := LastDash(base);
    && dash >= 0
    && "ara-" <= base[..dash] && Contains(base[..dash], "-ctx")
    && |base[dash + 1..]| == HASH_DIGITS && AllHex(base[dash + 1..])
  }

  lemma NamePartsDecide(base: string, head: string, tail: string)
    requires base == head + "-" + tail && AllHex(tail)
    ensures LastDash(base) == |head| && base[..|head|] == head && base[|head| + 1..] == tail
  {
    assert forall k :: |head| < k < |base| ==> base[k] == tail[k - |head| - 1];
    assert base[|head|] == '-';
  }

  /** Both the governed and the probe name of every model are recognised as ARA's own, tagged or not. */
  lemma DerivedNamesAreRecognised(hash: (string, ArtifactId, int) -> string, model: string, artifact: ArtifactId, context: nat)
    requires IsNameHash(hash)
    ensures var name := GovernedName(hash, model, artifact, context);
            IsDerived(name) && IsDerived(name + "-probe") && IsDerived(name + ":latest") && IsDerived(name + "-probe" + ":latest")
  {
    hide Slug, Digits, Contains, IsDerived;
    var head := "ara-" + Slug(model) + "-ctx" + Digits(context);
    HeadShape(Slug(model), Digits(context));
    ShapedNameIsDerived(GovernedName(hash, model, artifact, context), head, hash(model, artifact, context));
  }

  lemma ShapedNameIsDerived(name: string, head: string, tail: string)
    requires name == head + "-" + tail && "ara-" <= head && Contains(head, "-ctx") && |tail| == HASH_DIGITS && AllHex(tail)
    ensures IsDerived(name) && IsDerived(name + "-probe") && IsDerived(name + ":latest") && IsDerived(name + "-probe" + ":latest")
  {
    hide Contains, LastDash, EndsWith, RemoveSuffix;
    NamePartsDecide(name, head, tail);
    Ending(head + "-", tail);
    EndsDiffer(name, tail, "-probe", 3);
    EndsDiffer(name, tail, ":latest", 0);
    Ending(name, "-probe");
    EndsDiffer(name + "-probe", "-probe", ":latest", 0);
    Unsuffixed(name, "-probe");
    Unsuffixed(name, ":latest");
    Unsuffixed(name + "-probe", ":latest");
    Kept(name, "-probe");
    Kept(name, ":latest");
    Kept(name + "-probe", ":latest");
  }

  lemma Kept(s: string, suffix: string)
    requires !EndsWith(s, suffix)
    ensures RemoveSuffix(s, suffix) == s
  {
  }

  lemma HeadShape(slug: string, digits: string)
    ensures var head := "ara-" + slug + "-ctx" + digits; "ara-" <= head && Contains(head, "-ctx")
  {
    ContainsMiddle("ara-" + slug, "-ctx", digits);
  }

  lemma {:induction false} ContainsMiddle(before: string, part: string, after: string)
    ensures Contains(before + part + after, part)
  {
    var s := before + part + after;
    if before != [] {
      ContainsMiddle(before[1..], part, after);
      assert s[1..] == before[1..] + part + after;
    }
  }

  lemma Unsuffixed(s: string, suffix: string)
    ensures RemoveSuffix(s + suffix, suffix) == s
  {
    assert (s + suffix)[|s|..] == suffix;
    assert (s + suffix)[..|s|] == s;
  }

  lemma Ending(s: string, suffix: string)
    ensures EndsWith(s + suffix, suffix)
  {
    assert (s + suffix)[|s|..] == suffix;
  }

  /** Two endings that differ `k` characters from the end exclude each other. */
  lemma EndsDiffer(name: string, tail: string, suffix: string, k: nat)
    requires EndsWith(name, tail) && k < |tail| && k < |suffix|
    requires tail[|tail| - 1 - k] != suffix[|suffix| - 1 - k]
    ensures !EndsWith(name, suffix)
  {
    assert name[|name| - |tail|..][|tail| - 1 - k] == name[|name| - 1 - k];
    if |suffix| <= |name| {
      assert name[|name| - |suffix|..][|suffix| - 1 - k] == name[|name| - 1 - k];
    }
  }

  /** Two derived names are equal exactly when their slugs, contexts and hashes are. In particular one model's names at
      different contexts always differ, whatever the hash. */
  lemma NamesEqualExactly(
    hash: (string, ArtifactId, int) -> string, model: string, artifact: ArtifactId, context: nat,
    otherModel: string, otherArtifact: ArtifactId, otherContext: nat)
    requires IsNameHash(hash)
    ensures GovernedName(hash, model, artifact, context) == GovernedName(hash, otherModel, otherArtifact, otherContext)
            <==> Slug(model) == Slug(otherModel) && context == otherContext
                 && hash(model, artifact, context) == hash(otherModel, otherArtifact, otherContext)
  {
    hide Slug, Digits;
    var (h, k) := (hash(model, artifact, context), hash(otherModel, otherArtifact, otherContext));
    var x, y := "ara-" + Slug(model) + "-ctx" + Digits(context), "ara-" + Slug(otherModel) + "-ctx" + Digits(otherContext);
    if x + "-" + h == y + "-" + k {
      SameEnding(x + "-", h, y + "-", k);
      SameEnding(x, "-", y, "-");
      DigitsAreDigits(context);
      DigitsAreDigits(otherContext);
      SameDigits("ara-" + Slug(model) + "-ct", Digits(context), "ara-" + Slug(otherModel) + "-ct", Digits(otherContext), x);
      MachineKey.ParseDigitsRoundTrip(context);
      MachineKey.ParseDigitsRoundTrip(otherContext);
      SameMiddle(Slug(model), Slug(otherModel));
    }
  }

  lemma SameEnding(a: string, s: string, b: string, t: string)
    requires a + s == b + t && |s| == |t|
    ensures a == b && s == t
  {
    assert a == (a + s)[..|a|] && b == (b + t)[..|b|];
    assert s == (a + s)[|a|..] && t == (b + t)[|b|..];
  }

  predicate AllDigits(s: string) {
    forall i :: 0 <= i < |s| ==> '0' <= s[i] <= '9'
  }

  lemma DigitsAreDigits(n: nat)
    ensures AllDigits(Digits(n))
  {
    forall i | 0 <= i < |Digits(n)| ensures '0' <= Digits(n)[i] <= '9' {
      assert Digits(n)[i] in Digits(n);
    }
  }

  /** A text that ends in an `x` and digits does so in one way only. */
  lemma SameDigits(a: string, s: string, b: string, t: string, text: string)
    requires text == a + "x" + s == b + "x" + t
    requires AllDigits(s) && AllDigits(t)
    ensures s == t && a == b
  {
    assert text[|a|] == 'x' && text[|b|] == 'x';
    assert forall i :: |a| < i < |text| ==> text[i] == s[i - |a| - 1];
    assert forall i :: |b| < i < |text| ==> text[i] == t[i - |b| - 1];
    SameEnding(a + "x", s, b + "x", t);
    SameEnding(a, "x", b, "x");
  }

  lemma SameMiddle(a: string, b: string)
    requires "ara-" + a + "-ct" == "ara-" + b + "-ct"
    ensures a == b
  {
    SameEnding("ara-" + a, "-ct", "ara-" + b, "-ct");
    assert a == ("ara-" + a)[4..] && b == ("ara-" + b)[4..];
  }

  // ---------- the recorded probe ----------

  /** `_ollama_recorded_probe_target`. */
  function RecordedProbeTarget(
    hash: (string, ArtifactId, int) -> string, config: Config, models: Option<seq<Model>>, model: string, base: ArtifactId): Option<Target>
  {
    if config.probe.None? || models.None? then None
    else
      var probe := config.probe.value;
      if !IsDerived(probe.name) || !probe.artifact.OllamaManifest? || probe.context <= 0
         || probe.name != ProbeName(hash, model, base, probe.context) || !IsDigest(probe.artifact.digest)
      then None
      else
        var found := FindModel(models.value, probe.name);
        if found.None? || found.value.digest != Some(probe.artifact.digest) then None
        else Some(Target(probe.name, Some(probe.artifact.digest)))
  }

  /** The stored probe is named after the model's maximum but stored with the last context tried, so it is recognised
      exactly when the two are equal and the very manifest is still installed. */
  lemma ProbeRecognisedOnlyAtMaximum(
    hash: (string, ArtifactId, int) -> string, config: Config, models: Option<seq<Model>>, model: string, base: ArtifactId,
    max: nat, last: nat, digest: string)
    requires IsNameHash(hash) && IsDigest(digest) && last > 0
    requires config.probe == Some(ProbeTarget(ProbeName(hash, model, base, max), OllamaManifest(digest), last))
    ensures var name := ProbeName(hash, model, base, max);
            RecordedProbeTarget(hash, config, models, model, base)
            == (if last == max && models.Some? && FindModel(models.value, name).Some?
                   && FindModel(models.value, name).value.digest == Some(digest)
                then Some(Target(name, Some(digest))) else None)
  {
    hide IsDerived, FindModel, GovernedName;
    DerivedNamesAreRecognised(hash, model, base, max);
    var x, y := GovernedName(hash, model, base, max), GovernedName(hash, model, base, last);
    if x + "-probe" == y + "-probe" {
      assert x == (x + "-probe")[..|x|] && y == (y + "-probe")[..|y|];
      NamesEqualExactly(hash, model, base, max, model, base, last);
    }
  }

  /** Nothing else is recognised: without its tag and its probe mark, such a name is an ARA prefix with a context mark, a dash,
      and 24 hexadecimal digits. */
  lemma OnlyDerivedNamesAreRecognised(name: string) returns (head: string, tail: string, mark: string, tag: string, at: nat)
    requires IsDerived(name)
    ensures name == head + "-" + tail + mark + tag && mark in {"", "-probe"} && tag in {"", ":latest"}
    ensures "ara-" <= head && at + 4 <= |head| && head[at..at + 4] == "-ctx" && |tail| == 24 && AllHex(tail)
  {
    var untagged := RemoveSuffix(name, ":latest");
    var base := RemoveSuffix(untagged, "-probe");
    var dash := LastDash(base);
    head, tail := base[..dash], base[dash + 1..];
    tag := if EndsWith(name, ":latest") then ":latest" else "";
    mark := if EndsWith(untagged, "-probe") then "-probe" else "";
    assert base == head + "-" + tail;
    assert untagged == base + mark;
    assert name == untagged + tag;
    at := ContainsAt(head, "-ctx");
  }

  lemma {:induction false} ContainsAt(s: string, part: string) returns (i: nat)
    requires Contains(s, part)
    ensures i + |part| <= |s| && s[i..i + |part|] == part
  {
    if part <= s {
      i := 0;
    } else {
      i := ContainsAt(s[1..], part);
      assert s[i + 1..i + 1 + |part|] == s[1..][i..i + |part|];
      i := i + 1;
    }
  }
}
