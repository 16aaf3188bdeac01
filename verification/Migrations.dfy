/** Opening the store: the chain of one-time migrations, each committed whole or not at all. */
module Migrations {
  import opened Wrappers
  import opened Characterization
  import opened Schema
  import opened Tables
  import Engines
  import Store

  const SCHEMA_VERSION := 8

  datatype CalTable = CalV4(v4: map<nat, Cal4>) | CalV5(v5: map<nat, Cal5>) | CalV6(v6: map<nat, Cal6>) | CalV8(v8: map<nat, Cal8>)

  datatype CharTable = CharV4(v4: map<nat, Char4>) | CharV5(v5: map<nat, Char5>) | CharV6(v6: map<nat, Char6>) | CharV7(v7: map<nat, Row>)

  datatype BenchTable = BenchV3(v3: map<nat, Bench3>) | BenchV4(v4: map<nat, Bench4>)

  datatype Content = Content(cal: CalTable, chr: CharTable, bench: BenchTable)

  /** What the migrations derive from a row by code that is not modelled here. */
  datatype Derivations = Derivations(
    configKey: (string, Option<Config>) -> string, evidenceKey: Bench3 -> string, fingerprint: Char6 -> EngineFingerprint)

  // ---------- keys and shapes ----------

  ghost predicate Distinct<A, K>(rows: map<nat, A>, key: A -> K) {
    forall i, j :: i in rows && j in rows && i != j ==> key(rows[i]) != key(rows[j])
  }

  ghost predicate CalKeyed(t: CalTable) {
    match t
    case CalV4(m) => Distinct(m, Cal4Key)
    case CalV5(m) => Distinct(m, Cal5Key)
    case CalV6(m) => Distinct(m, Cal6Key)
    case CalV8(m) => Distinct(m, Cal8Key)
  }

  ghost predicate CharKeyed(t: CharTable) {
    match t
    case CharV4(m) => Distinct(m, Char4Key)
    case CharV5(m) => Distinct(m, Char5Key)
    case CharV6(m) => Distinct(m, Char6Key)
    case CharV7(m) => Distinct(m, Store.KeyOf)
  }

  ghost predicate BenchKeyed(t: BenchTable) {
    match t
    case BenchV3(m) => Distinct(m, Bench3Key)
    case BenchV4(m) => Distinct(m, Bench4Key)
  }

  /** A table created by `CREATE TABLE IF NOT EXISTS` has the newest shape and is empty until the store is at version 8. */
  predicate CalShaped(v: nat, t: CalTable) {
    t == CalV8(map[]) || match v
      case 5 => t.CalV5?
      case 6 => t.CalV6? || t.CalV8?
      case 7 => t.CalV6? || t.CalV8?
      case _ => if v < 5 then t.CalV4? else t.CalV8?
  }

  predicate CharShaped(v: nat, t: CharTable) {
    t == CharV7(map[]) || match v
      case 5 => t.CharV5?
      case 6 => t.CharV6?
      case _ => if v < 5 then t.CharV4? else t.CharV7?
  }

  predicate BenchShaped(v: nat, t: BenchTable) {
    t == BenchV4(map[]) || if v < 4 then t.BenchV3? else t.BenchV4?
  }

  ghost predicate Sound(v: nat, c: Content) {
    && CalShaped(v, c.cal) && CharShaped(v, c.chr) && BenchShaped(v, c.bench)
    && CalKeyed(c.cal) && CharKeyed(c.chr) && BenchKeyed(c.bench)
  }

  // ---------- rebuilding one table ----------

  function Mapped<A, B>(rows: map<nat, A>, f: A -> B): map<nat, B> {
    map i | i in rows :: f(rows[i])
  }

  /** Every row is copied into a new table; a taken primary key raises. Only the order of rowids matters, so rows keep
      theirs. */
  method Rebuild<A, B, K(==)>(rows: map<nat, A>, f: A -> B, key: B -> K) returns (r: Outcome<map<nat, B>>)
    ensures r.Ok? <==> Distinct(Mapped(rows, f), key)
    ensures r.Ok? ==> r.value == Mapped(rows, f)
    ensures r.Raised? ==> r.error == IntegrityError
  {
    var built: map<nat, B> := map[];
    var taken: set<K> := {};
    var todo: set<nat> := rows.Keys;
    while todo != {}
      invariant todo <= rows.Keys
      invariant built.Keys == rows.Keys - todo
      invariant forall i :: i in built ==> built[i] == f(rows[i]) && key(built[i]) in taken
      invariant forall k :: k in taken ==> exists i :: i in built && key(built[i]) == k
      invariant Distinct(built, key)
      decreases |todo|
    {
      Inhabited(todo);
      var i: nat :| i in todo;
      var row := f(rows[i]);
      if key(row) in taken {
        var j :| j in built && key(built[j]) == key(row);
        assert Mapped(rows, f)[i] == row && Mapped(rows, f)[j] == built[j];
        return Raised(IntegrityError);
      }
      ghost var earlier := built;
      built, taken, todo := built[i := row], taken + {key(row)}, todo - {i};
      forall k | k in taken ensures exists j :: j in built && key(built[j]) == k {
        if k != key(row) {
          var j :| j in earlier && key(earlier[j]) == k;
          assert built[j] == earlier[j];
        } else {
          assert built[i] == row;
        }
      }
    }
    assert built == Mapped(rows, f);
    r := Ok(built);
  }

  // ---------- the steps ----------

  function WithoutDecimalWalls(rows: map<nat, Cal4>): map<nat, Cal4> {
    map i | i in rows && rows[i].engine != "wmx" :: rows[i]
  }

  function EngineRenamed(r: Bench3): Bench3 {
    r.(engineKey := Engines.CanonicalEngine(r.engineKey))
  }

  predicate NeedsTargets(c: Content) {
    c.cal.CalV4? || c.chr.CharV4?
  }

  predicate NeedsAuthority(c: Content) {
    c.cal.CalV5? || c.chr.CharV5?
  }

  /** Rows of a table that is not in the old shape are none, so rebuilding it makes an empty table. */
  function CalRows4(t: CalTable): map<nat, Cal4> { if t.CalV4? then t.v4 else map[] }

  function CharRows4(t: CharTable): map<nat, Char4> { if t.CharV4? then t.v4 else map[] }

  function CalRows5(t: CalTable): map<nat, Cal5> { if t.CalV5? then t.v5 else map[] }

  function CharRows5(t: CharTable): map<nat, Char5> { if t.CharV5? then t.v5 else map[] }

  /** Version 5 loses nothing exactly when this holds. */
  ghost predicate TargetsDistinct(d: Derivations, c: Content) {
    && Distinct(Mapped(CalRows4(c.cal), Cal4To5), Cal5Key)
    && Distinct(Mapped(CharRows4(c.chr), r => Char4To5(d.configKey, r)), Char5Key)
  }

  ghost predicate MergedCal(rule: Rule<(string, string), Cal4>, x: CalTable, y: CalTable) {
    if x.CalV4? then y.CalV4? && rule.Merged(x.v4, y.v4) else y == x
  }

  ghost predicate MergedChar(rule: Rule<(string, string, string), Char4>, x: CharTable, y: CharTable) {
    if x.CharV4? then y.CharV4? && rule.Merged(x.v4, y.v4) else y == x
  }

  ghost predicate MergedBench(rule: Rule<(string, string, string), Bench3>, x: BenchTable, y: BenchTable) {
    if x.BenchV3? then y.BenchV3? && rule.Merged(x.v3, y.v3) else y == x
  }

  /** What each migration does to the rows. */
  ghost predicate Step(d: Derivations, v: nat, c: Content, n: Content) {
    match v
    case 1 => n == c.(cal := if c.cal.CalV4? then CalV4(WithoutDecimalWalls(c.cal.v4)) else c.cal)
    case 2 => MergedCal(Cal4Machines(), c.cal, n.cal) && MergedChar(Char4Machines(), c.chr, n.chr)
              && MergedBench(Bench3Machines(), c.bench, n.bench)
    case 3 => MergedCal(Cal4Engines(), c.cal, n.cal) && MergedChar(Char4Engines(), c.chr, n.chr)
              && n.bench == if c.bench.BenchV3? then BenchV3(Mapped(c.bench.v3, EngineRenamed)) else c.bench
    case 4 => n == c.(bench := if c.bench.BenchV3? then BenchV4(Mapped(c.bench.v3, (r: Bench3) => Bench4(r, d.evidenceKey(r)))) else c.bench)
    case 5 => n == if NeedsTargets(c)
                   then Content(CalV5(Mapped(CalRows4(c.cal), Cal4To5)),
                                CharV5(Mapped(CharRows4(c.chr), (r: Char4) => Char4To5(d.configKey, r))), c.bench)
                   else c
    case 6 => n == if NeedsAuthority(c)
                   then Content(CalV8(Mapped(CalRows5(c.cal), Cal5To8)), CharV6(Mapped(CharRows5(c.chr), Char5To6)), c.bench)
                   else c
    case 7 => n == c.(chr := if c.chr.CharV6? then CharV7(Mapped(c.chr.v6, (r: Char6) => Char6To7(d.fingerprint, r))) else c.chr)
    case 8 => n == c.(cal := if c.cal.CalV6? then CalV8(Mapped(c.cal.v6, Cal6To8)) else c.cal)
    case _ => false
  }

  /** Versions 4, 6, 7 and 8 only add to the primary key, so they keep one row per row without a clash. */
  lemma WiderKeysStayDistinct<A(!new), B, K, L>(rows: map<nat, A>, f: A -> B, key: A -> K, wider: B -> L)
    requires Distinct(rows, key)
    requires forall a, b :: wider(f(a)) == wider(f(b)) ==> key(a) == key(b)
    ensures Distinct(Mapped(rows, f), wider)
  {
  }

  // ---------- what the steps keep ----------

  function CalRows(t: CalTable): set<nat> {
    match t case CalV4(m) => m.Keys case CalV5(m) => m.Keys case CalV6(m) => m.Keys case CalV8(m) => m.Keys
  }

  function CharRows(t: CharTable): set<nat> {
    match t case CharV4(m) => m.Keys case CharV5(m) => m.Keys case CharV6(m) => m.Keys case CharV7(m) => m.Keys
  }

  function BenchRows(t: BenchTable): set<nat> {
    match t case BenchV3(m) => m.Keys case BenchV4(m) => m.Keys
  }

  /** From version 4 on, every migration that commits keeps exactly one row for every row of every table. */
  lemma LaterStepsConserveRows(d: Derivations, v: nat, c: Content, n: Content)
    requires 4 <= v <= SCHEMA_VERSION && Sound(v - 1, c) && Step(d, v, c, n)
    ensures CalRows(n.cal) == CalRows(c.cal) && CharRows(n.chr) == CharRows(c.chr) && BenchRows(n.bench) == BenchRows(c.bench)
  {
  }

  /** After the engine names were made canonical, the calibrations of version 5 clash exactly when one machine has two
      rows of engines without a name. */
  lemma CalibrationsRebuildExactly(d: Derivations, c: Content, n: Content)
    requires Step(d, 3, c, n) && n.cal.CalV4? && CalKeyed(n.cal)
    ensures Distinct(Mapped(n.cal.v4, Cal4To5), Cal5Key)
            <==> forall i, j :: i in n.cal.v4 && j in n.cal.v4 && i != j
                                && Unnamed(n.cal.v4[i].engine) && Unnamed(n.cal.v4[j].engine)
                                ==> n.cal.v4[i].machineKey != n.cal.v4[j].machineKey
  {
    hide Cal4To5;
    var rows := n.cal.v4;
    forall i | i in rows ensures Engines.CanonicalName(rows[i].engine) == rows[i].engine {
      assert !Cal4Engines().Legacy(rows[i]);
    }
    forall i, j | i in rows && j in rows && i != j
      ensures Cal5Key(Mapped(rows, Cal4To5)[i]) == Cal5Key(Mapped(rows, Cal4To5)[j])
              <==> rows[i].machineKey == rows[j].machineKey && Unnamed(rows[i].engine) && Unnamed(rows[j].engine)
    {
      CalibrationsClashOnlyUnnamed(rows[i], rows[j]);
    }
  }

  /** In the present shape, a reusable row has a known method, a known engine build and a strong identity. */
  ghost predicate ReuseGrounded(t: CharTable) {
    t.CharV7? ==> Store.ReusableIsGrounded(t.v7.Values)
  }

  /** Migrations never make a row reusable: what they bring to the present shape is display-only. */
  lemma MigrationsKeepReuseGrounded(d: Derivations, v: nat, c: Content, n: Content)
    requires Step(d, v, c, n) && ReuseGrounded(c.chr)
    ensures ReuseGrounded(n.chr)
    ensures c.chr.CharV6? && n.chr.CharV7? ==> forall r :: r in n.chr.v7.Values ==> !r.reusable
  {
  }

  // ---------- one method per step ----------

  method MergeTable<K(==, !new), R(!new)>(rows: map<nat, R>, rule: Rule<K, R>, key: R -> K) returns (merged: map<nat, R>)
    requires rule.Lawful() && rule.keyOf == key && Distinct(rows, key)
    ensures rule.Merged(rows, merged) && Distinct(merged, key)
  {
    var t := new Table(rule);
    t.rows := rows;
    var _ := t.MergeRekey();
    merged := t.rows;
  }

  method RekeyMachines(d: Derivations, c: Content) returns (n: Content)
    requires Sound(1, c)
    ensures Sound(2, n) && Step(d, 2, c, n)
  {
    hide Rule.Merged, Rule.Lawful, Distinct;
    MachineRulesAreLawful();
    n := c;
    if c.cal.CalV4? {
      var merged := MergeTable(c.cal.v4, Cal4Machines(), Cal4Key);
      n := n.(cal := CalV4(merged));
    }
    if c.chr.CharV4? {
      var merged := MergeTable(c.chr.v4, Char4Machines(), Char4Key);
      n := n.(chr := CharV4(merged));
    }
    if c.bench.BenchV3? {
      var merged := MergeTable(c.bench.v3, Bench3Machines(), Bench3Key);
      n := n.(bench := BenchV3(merged));
    }
  }

  method CanonicalizeEngines(d: Derivations, c: Content) returns (n: Content)
    requires Sound(2, c)
    ensures Sound(3, n) && Step(d, 3, c, n)
  {
    hide Rule.Merged, Rule.Lawful, Distinct;
    EngineRulesAreLawful();
    n := c;
    if c.cal.CalV4? {
      var merged := MergeTable(c.cal.v4, Cal4Engines(), Cal4Key);
      n := n.(cal := CalV4(merged));
    }
    if c.chr.CharV4? {
      var merged := MergeTable(c.chr.v4, Char4Engines(), Char4Key);
      n := n.(chr := CharV4(merged));
    }
    if c.bench.BenchV3? {
      WiderKeysStayDistinct(c.bench.v3, EngineRenamed, Bench3Key, Bench3Key);
      n := n.(bench := BenchV3(Mapped(c.bench.v3, EngineRenamed)));
    }
  }

  method RebuildBenchmarks(d: Derivations, c: Content) returns (n: Content)
    requires Sound(3, c)
    ensures Sound(4, n) && Step(d, 4, c, n)
  {
    n := c;
    if c.bench.BenchV3? {
      var widen := (r: Bench3) => Bench4(r, d.evidenceKey(r));
      WiderKeysStayDistinct(c.bench.v3, widen, Bench3Key, Bench4Key);
      var rebuilt := Rebuild(c.bench.v3, widen, Bench4Key);
      n := n.(bench := BenchV4(rebuilt.value));
    }
  }

  method RebuildTargets(d: Derivations, c: Content) returns (r: Outcome<Content>)
    requires Sound(4, c)
    ensures r.Ok? ==> Sound(5, r.value) && Step(d, 5, c, r.value)
    ensures r.Raised? ==> r.error == IntegrityError && !TargetsDistinct(d, c)
    ensures NeedsTargets(c) ==> (r.Ok? <==> TargetsDistinct(d, c))
  {
    if !NeedsTargets(c) { return Ok(c); }
    var cal :- Rebuild(CalRows4(c.cal), Cal4To5, Cal5Key);
    var chr :- Rebuild(CharRows4(c.chr), (r: Char4) => Char4To5(d.configKey, r), Char5Key);
    r := Ok(Content(CalV5(cal), CharV5(chr), c.bench));
  }

  method RebuildAuthority(d: Derivations, c: Content) returns (n: Content)
    requires Sound(5, c)
    ensures Sound(6, n) && Step(d, 6, c, n)
  {
    if !NeedsAuthority(c) { return c; }
    WiderKeysStayDistinct(CalRows5(c.cal), Cal5To8, Cal5Key, Cal8Key);
    WiderKeysStayDistinct(CharRows5(c.chr), Char5To6, Char5Key, Char6Key);
    var cal := Rebuild(CalRows5(c.cal), Cal5To8, Cal8Key);
    var chr := Rebuild(CharRows5(c.chr), Char5To6, Char6Key);
    n := Content(CalV8(cal.value), CharV6(chr.value), c.bench);
  }

  method RebuildEvidence(d: Derivations, c: Content) returns (n: Content)
    requires Sound(6, c)
    ensures Sound(7, n) && Step(d, 7, c, n)
  {
    n := c;
    if c.chr.CharV6? {
      var f := (r: Char6) => Char6To7(d.fingerprint, r);
      WiderKeysStayDistinct(c.chr.v6, f, Char6Key, Store.KeyOf);
      var rebuilt := Rebuild(c.chr.v6, f, Store.KeyOf);
      n := n.(chr := CharV7(rebuilt.value));
    }
  }

  method RebuildFingerprints(d: Derivations, c: Content) returns (n: Content)
    requires Sound(7, c)
    ensures Sound(8, n) && Step(d, 8, c, n)
  {
    n := c;
    if c.cal.CalV6? {
      WiderKeysStayDistinct(c.cal.v6, Cal6To8, Cal6Key, Cal8Key);
      var rebuilt := Rebuild(c.cal.v6, Cal6To8, Cal8Key);
      n := n.(cal := CalV8(rebuilt.value));
    }
  }

  method Migrate(d: Derivations, to: nat, c: Content) returns (r: Outcome<Content>)
    requires 1 <= to <= SCHEMA_VERSION && Sound(to - 1, c)
    ensures r.Ok? ==> Sound(to, r.value) && Step(d, to, c, r.value)
    ensures r.Raised? ==> r.error == IntegrityError && to == 5 && !TargetsDistinct(d, c)
  {
    hide Sound, Step;
    var n;
    match to {
      case 1 => n := DropDecimalWalls(d, c);
      case 2 => n := RekeyMachines(d, c);
      case 3 => n := CanonicalizeEngines(d, c);
      case 4 => n := RebuildBenchmarks(d, c);
      case 5 =>
        r := RebuildTargets(d, c);
        return;
      case 6 => n := RebuildAuthority(d, c);
      case 7 => n := RebuildEvidence(d, c);
      case _ => n := RebuildFingerprints(d, c);
    }
    r := Ok(n);
  }

  method DropDecimalWalls(d: Derivations, c: Content) returns (n: Content)
    requires Sound(0, c)
    ensures Sound(1, n) && Step(d, 1, c, n)
  {
    n := c.(cal := if c.cal.CalV4? then CalV4(WithoutDecimalWalls(c.cal.v4)) else c.cal);
  }

  // ---------- the whole chain ----------

  /** Consecutive committed contents, from one version on. */
  ghost predicate Chain(d: Derivations, from: nat, log: seq<Content>) {
    log != [] && forall i, j :: 0 <= i < j < |log| && j == i + 1 ==> Step(d, from + j, log[i], log[j])
  }

  lemma StartChain(d: Derivations, from: nat, c: Content)
    ensures Chain(d, from, [c])
  {
  }

  lemma ChainGrows(d: Derivations, from: nat, log: seq<Content>, c: Content)
    requires Chain(d, from, log) && Step(d, from + |log|, log[|log| - 1], c)
    ensures Chain(d, from, log + [c])
  {
  }

  /** A rekeyed store is sound at version 1 as at version 2. */
  lemma RekeyedIsSound(d: Derivations, c: Content, n: Content)
    requires Sound(1, c) && Step(d, 2, c, n)
    ensures Sound(2, n) && Sound(1, n)
  {
    hide Rule.Survives;
  }

  /** An interrupted rekey is finished by the next one without a further change: the first has left no legacy key. */
  lemma InterruptedRekeyResumes(d: Derivations, c: Content, n: Content, m: Content)
    requires Sound(1, c) && Step(d, 2, c, n) && Step(d, 2, n, m)
    ensures m == n
  {
    hide Rule.Merged, Rule.Lawful;
    MachineRulesAreLawful();
    if c.cal.CalV4? { RepeatingChangesNothing(Cal4Machines(), c.cal.v4, n.cal.v4, m.cal.v4); }
    if c.chr.CharV4? { RepeatingChangesNothing(Char4Machines(), c.chr.v4, n.chr.v4, m.chr.v4); }
    if c.bench.BenchV3? { RepeatingChangesNothing(Bench3Machines(), c.bench.v3, n.bench.v3, m.bench.v3); }
  }

  /** Two runs of which the first stopped between the two commits of version 2 make one uninterrupted chain. */
  lemma InterruptedChainResumes(d: Derivations, from: nat, first: seq<Content>, content: Content, second: seq<Content>)
    requires Chain(d, from, first) && from + |first| - 1 == 1 && Sound(1, first[|first| - 1])
    requires Step(d, 2, first[|first| - 1], content)
    requires Chain(d, 1, second) && second[0] == content && |second| >= 2
    ensures Chain(d, from, first + second[1..])
  {
    hide Step, Sound;
    var last := first[|first| - 1];
    assert Step(d, 2, second[0], second[1]);
    InterruptedRekeyResumes(d, last, content, second[1]);
    var whole := first + second[1..];
    forall i, j | 0 <= i < j < |whole| && j == i + 1 ensures Step(d, from + j, whole[i], whole[j]) {
      if j < |first| {
        assert whole[i] == first[i] && whole[j] == first[j];
      } else if i == |first| - 1 {
        assert whole[i] == last && whole[j] == second[1];
      } else {
        assert whole[i] == second[i - |first| + 1] && whole[j] == second[j - |first| + 1];
      }
    }
  }

  /** A store stopped between the two commits of version 2: rekeyed, and still at version 1. */
  ghost predicate Halfway(d: Derivations, version: nat, committed: Content, content: Content) {
    version == 1 && Step(d, 2, committed, content)
  }

  class Database {
    var version: nat
    var content: Content

    ghost predicate Valid()
      reads this
    {
      Sound(version, content)
    }

    constructor (version: nat, content: Content)
      requires Sound(version, content)
      ensures Valid() && this.version == version && this.content == content
    {
      this.version, this.content := version, content;
    }

    /** Version 2 commits its rows first and its number after that, with a fault possible before and between. */
    method UpgradeKeys(d: Derivations) returns (r: Outcome<bool>)
      requires Valid() && version == 1
      modifies this
      ensures Valid()
      ensures r.Ok? ==> version == 2 && Step(d, 2, old(content), content)
      ensures r.Raised? ==> r.error == IoError && version == 1 && (content == old(content) || Step(d, 2, old(content), content))
    {
      hide Sound, Step;
      var working := RekeyMachines(d, content);
      var fault: bool := *;
      if fault { return Raised(IoError); }
      SoundAtOneToo(working);
      content := working;
      fault := *;
      if fault { return Raised(IoError); }
      version := 2;
      r := Ok(true);
    }

    /** Every other migration runs in one transaction: it commits whole, or a raise leaves the committed store as it was. */
    method Upgrade(d: Derivations, to: nat) returns (r: Outcome<bool>)
      requires Valid() && 1 <= to <= SCHEMA_VERSION && to <= version + 1
      modifies this
      ensures Valid()
      ensures old(version) >= to ==> r.Ok? && version == old(version) && content == old(content)
      ensures r.Ok? && old(version) < to ==> version == to && Step(d, to, old(content), content)
      ensures r.Raised? ==>
                && version == old(version) == to - 1
                && (content == old(content) || Halfway(d, version, old(content), content))
                && (r.error == IoError || (r.error == IntegrityError && to == 5 && content == old(content) && !TargetsDistinct(d, content)))
    {
      hide Sound, Step, TargetsDistinct;
      if version >= to { return Ok(true); }
      if to == 2 {
        r := UpgradeKeys(d);
        return;
      }
      var working :- Migrate(d, to, content);
      var fault: bool := *;
      if fault { return Raised(IoError); }
      version, content := to, working;
      r := Ok(true);
    }

    /** `connect`: the store reaches the newest version, or stops at the last version it committed, there possibly with
        its rows already rekeyed for version 2. Only version 5 can refuse the rows themselves. A store at the newest
        version is left as it is. */
    method Connect(d: Derivations) returns (r: Outcome<bool>, ghost log: seq<Content>)
      requires Valid()
      modifies this
      ensures Valid()
      ensures log != [] && log[0] == old(content) && version == old(version) + |log| - 1 && Chain(d, old(version), log)
      ensures content == log[|log| - 1] || (r.Raised? && Halfway(d, version, log[|log| - 1], content))
      ensures r.Ok? ==> version >= SCHEMA_VERSION
      ensures r.Raised? ==> version < SCHEMA_VERSION
                            && (r.error == IoError || (r.error == IntegrityError && version == 4 && !TargetsDistinct(d, content)))
      ensures old(version) >= SCHEMA_VERSION ==> r.Ok? && log == [old(content)]
    {
      hide Sound, Step, Chain, TargetsDistinct, Halfway;
      log := [content];
      StartChain(d, version, content);
      r, log := Advance(d, 1, version, log);
      if r.Raised? { return; }
      r, log := Advance(d, 2, old(version), log);
      if r.Raised? { return; }
      r, log := Advance(d, 3, old(version), log);
      if r.Raised? { return; }
      r, log := Advance(d, 4, old(version), log);
      if r.Raised? { return; }
      r, log := Advance(d, 5, old(version), log);
      if r.Raised? { return; }
      r, log := Advance(d, 6, old(version), log);
      if r.Raised? { return; }
      r, log := Advance(d, 7, old(version), log);
      if r.Raised? { return; }
      r, log := Advance(d, 8, old(version), log);
    }

    /** One `if user_version < to` of the chain. */
    method Advance(d: Derivations, to: nat, ghost from: nat, ghost log: seq<Content>) returns (r: Outcome<bool>, ghost more: seq<Content>)
      requires Valid() && 1 <= to <= SCHEMA_VERSION && to <= version + 1
      requires log != [] && log[|log| - 1] == content && version == from + |log| - 1 && Chain(d, from, log)
      modifies this
      ensures Valid()
      ensures more != [] && more[0] == log[0] && version == from + |more| - 1 && Chain(d, from, more)
      ensures content == more[|more| - 1] || (r.Raised? && Halfway(d, version, more[|more| - 1], content))
      ensures r.Ok? ==> version >= to
      ensures r.Raised? ==> version == to - 1
                            && (r.error == IoError || (r.error == IntegrityError && version == 4 && !TargetsDistinct(d, content)))
      ensures old(version) >= to ==> r.Ok? && more == log && version == old(version)
    {
      hide Sound, Step, Chain, TargetsDistinct, Halfway;
      more := log;
      r := Upgrade(d, to);
      if r.Ok? && old(version) < to {
        ChainGrows(d, from, log, content);
        more := log + [content];
      }
    }
  }

  lemma SoundAtOneToo(c: Content)
    requires Sound(2, c)
    ensures Sound(1, c)
  {
  }
}
