/** Keyed tables of the store: inserting, upserting, and rewriting keys in place where several old keys may merge. */
module Tables {
  import opened Wrappers
  import Text

  /** How one table is keyed: its key, the rewriting of a legacy key, a row under a new key, and its timestamp. */
  datatype Rule<!K(==, !new), !R(!new)> = Rule(keyOf: R -> K, rekey: K -> Option<K>, withKey: (R, K) -> R, stamp: R -> string) {

    predicate Legacy(r: R) {
      rekey(keyOf(r)).Some?
    }

    function NewKey(r: R): K {
      rekey(keyOf(r)).GetOr(keyOf(r))
    }

    /** Rewriting a key once is enough, and replaces nothing but the key. */
    ghost predicate Lawful() {
      && (forall k :: rekey(k).Some? ==> rekey(rekey(k).value).None?)
      && (forall r, k :: keyOf(withKey(r, k)) == k)
    }

    ghost predicate UniqueKeys(rows: map<nat, R>) {
      forall i, j :: i in rows && j in rows && i != j ==> keyOf(rows[i]) != keyOf(rows[j])
    }

    function Group(rows: map<nat, R>, k: K): set<nat> {
      set i | i in rows && NewKey(rows[i]) == k
    }

    function LegacyRows(rows: map<nat, R>): set<nat> {
      set i | i in rows && Legacy(rows[i])
    }

    /** `max(group, key=(timestamp or "", rowid))`. */
    predicate NoNewer(rows: map<nat, R>, i: nat, j: nat)
      requires i in rows && j in rows
    {
      var x, y := stamp(rows[i]), stamp(rows[j]);
      if x != y then Text.Precedes(y, x) else j <= i
    }

    ghost predicate IsNewest(rows: map<nat, R>, k: K, w: nat) {
      w in Group(rows, k) && forall j :: j in Group(rows, k) ==> NoNewer(rows, w, j)
    }

    /** Where an upsert puts a row: in place of the row with its key, or under an unused rowid. */
    ghost predicate Slot(rows: map<nat, R>, row: R, id: nat) {
      if id in rows then keyOf(rows[id]) == keyOf(row) else forall i :: i in rows ==> keyOf(rows[i]) != keyOf(row)
    }

    ghost predicate Stale(rows: map<nat, R>, k: K) {
      exists i :: i in Group(rows, k) && Legacy(rows[i])
    }

    /** What the row at `i` with key `k` is after a rekey: the newest of a group with a legacy key, under the new key
        and otherwise intact; or, without a legacy key, the very row that was there. */
    ghost predicate Survives(before: map<nat, R>, k: K, i: nat, r: R) {
      if Stale(before, k) then exists w :: IsNewest(before, k, w) && r == withKey(before[w], k)
      else i in before && r == before[i]
    }

    /** The result of a rekey of the whole table. */
    ghost predicate Merged(before: map<nat, R>, after: map<nat, R>) {
      && UniqueKeys(after)
      && (forall i :: i in after ==> !Legacy(after[i]) && Survives(before, keyOf(after[i]), i, after[i]))
      && (forall i :: i in before ==> Group(after, NewKey(before[i])) != {})
    }
  }

  class Table<!K(==, !new), !R(!new)> {
    var rows: map<nat, R>
    const rule: Rule<K, R>

    ghost predicate Valid()
      reads this
    {
      rule.Lawful() && rule.UniqueKeys(rows)
    }

    constructor (rule: Rule<K, R>)
      requires rule.Lawful()
      ensures Valid() && rows == map[] && this.rule == rule
    {
      this.rule := rule;
      rows := map[];
    }

    /** `INSERT`: one rowid past the greatest, unless the primary key is taken. */
    method Insert(row: R) returns (r: Outcome<nat>)
      requires Valid()
      modifies this
      ensures Valid()
      ensures r.Raised? <==> exists i :: i in old(rows) && rule.keyOf(old(rows)[i]) == rule.keyOf(row)
      ensures r.Raised? ==> rows == old(rows)
      ensures r.Ok? ==> r.value !in old(rows) && rows == old(rows)[r.value := row]
    {
      var next: nat := 1;
      var left: set<nat> := rows.Keys;
      while left != {}
        invariant rows == old(rows) && left <= rows.Keys
        invariant forall i :: i in rows && i !in left ==> i < next && rule.keyOf(rows[i]) != rule.keyOf(row)
        decreases |left|
      {
        Inhabited(left);
        var i: nat :| i in left;
        if rule.keyOf(rows[i]) == rule.keyOf(row) { return Raised(IntegrityError); }
        next := if i >= next then i + 1 else next;
        left := left - {i};
      }
      rows := rows[next := row];
      r := Ok(next);
    }

    /** `INSERT … ON CONFLICT DO UPDATE`. */
    method Upsert(row: R) returns (id: nat)
      requires Valid()
      modifies this
      ensures Valid() && rule.Slot(old(rows), row, id) && rows == old(rows)[id := row]
    {
      var inserted := Insert(row);
      if inserted.Ok? { return inserted.value; }
      ghost var holder :| holder in rows && rule.keyOf(rows[holder]) == rule.keyOf(row);
      var left: set<nat> := rows.Keys;
      assert holder in left;
      id :| id in left;
      while rule.keyOf(rows[id]) != rule.keyOf(row)
        invariant rows == old(rows) && left <= rows.Keys && id in left && holder in left
        decreases |left|
      {
        left := left - {id};
        assert holder in left;
        id :| id in left;
      }
      rows := rows[id := row];
    }

    /** The newest row of a group. */
    method Newest(k: K) returns (w: nat)
      requires Valid() && rule.Group(rows, k) != {}
      ensures rule.IsNewest(rows, k, w)
    {
      var group := rule.Group(rows, k);
      Inhabited(group);
      w :| w in group;
      var left := group - {w};
      OrderIsTotal(rule, rows, w, w);
      while left != {}
        invariant left <= group && w in group
        invariant forall j :: j in group && j !in left ==> rule.NoNewer(rows, w, j)
        decreases |left|
      {
        Inhabited(left);
        var i: nat :| i in left;
        OrderIsTotal(rule, rows, i, i);
        OrderIsTotal(rule, rows, i, w);
        if rule.NoNewer(rows, i, w) {
          forall j | j in group && j !in left ensures rule.NoNewer(rows, i, j) {
            OrderIsTransitive(rule, rows, i, w, j);
          }
          w := i;
        }
        left := left - {i};
      }
    }

    /** `_rekey_pk_table`, and with canonical engines `_canonicalize_engine_pk_table`: each group that holds a legacy
        key is cleared and its newest row inserted under the new key. The insert never meets a taken key. */
    method MergeRekey() returns (rekeyed: nat)
      requires Valid()
      modifies this
      ensures Valid() && rule.Merged(old(rows), rows)
      ensures rekeyed == |rule.LegacyRows(old(rows))|
    {
      hide Progress, Rule.UniqueKeys, Rule.Merged, Rule.Lawful, Done;
      ghost var before := rows;
      var todo := set i | i in rows :: rule.NewKey(rows[i]);
      rekeyed := 0;
      ProgressStarts(rule, before, todo);
      while todo != {}
        invariant Valid() && Progress(rule, before, rows, todo)
        invariant rekeyed == |Done(rule, before, todo)|
        decreases |todo|
      {
        Inhabited(todo);
        var k :| k in todo;
        var legacy := RekeyGroup(k, before, todo);
        DoneGrows(rule, before, todo, k);
        rekeyed := rekeyed + legacy;
        todo := todo - {k};
      }
      ProgressEnds(rule, before, rows);
    }

    /** One group of the loop. */
    method RekeyGroup(k: K, ghost before: map<nat, R>, ghost todo: set<K>) returns (legacy: nat)
      requires Valid() && k in todo && Progress(rule, before, rows, todo)
      modifies this
      ensures Valid() && Progress(rule, before, rows, todo - {k})
      ensures legacy == |rule.LegacyRows(before) * rule.Group(before, k)|
    {
      hide Progress, Rule.UniqueKeys, Rule.Survives, Rule.IsNewest, Rule.Lawful;
      var group := rule.Group(rows, k);
      GroupUntouched(rule, before, rows, todo, k);
      var stale := set i | i in group && rule.Legacy(rows[i]);
      legacy := |stale|;
      assert stale == rule.LegacyRows(before) * rule.Group(before, k);
      Inhabited(stale);
      if stale == {} {
        assert forall i :: i in group && rule.Legacy(rows[i]) ==> i in stale;
        SkippedGroup(rule, before, rows, todo, k);
        return;
      }
      var w := Newest(k);
      var winner := rule.withKey(rows[w], k);
      ghost var whole := rows;
      rows := map i | i in rows && i !in group :: rows[i];
      ClearedGroup(rule, before, whole, rows, todo, k);
      WinnerSurvives(rule, before, whole, todo, k, w, 0);
      var inserted := Insert(winner);
      assert inserted.Ok?;
      WinnerSurvives(rule, before, whole, todo, k, w, inserted.value);
      assert Replaced(rule, whole, rows, k, inserted.value, winner);
      ReplacedGroup(rule, before, whole, rows, todo, k, inserted.value, winner);
    }
  }

  lemma OrderIsTotal<K(!new), R(!new)>(rule: Rule<K, R>, rows: map<nat, R>, i: nat, j: nat)
    requires i in rows && j in rows
    ensures rule.NoNewer(rows, i, j) || rule.NoNewer(rows, j, i)
  {
    Text.PrecedesTotal(rule.stamp(rows[i]), rule.stamp(rows[j]));
  }

  lemma OrderIsTransitive<K(!new), R(!new)>(rule: Rule<K, R>, rows: map<nat, R>, i: nat, j: nat, k: nat)
    requires i in rows && j in rows && k in rows && rule.NoNewer(rows, i, j) && rule.NoNewer(rows, j, k)
    ensures rule.NoNewer(rows, i, k)
  {
    var x, y, z := rule.stamp(rows[i]), rule.stamp(rows[j]), rule.stamp(rows[k]);
    Text.PrecedesTotal(x, z);
    if x != y && y != z {
      Text.PrecedesTransitive(z, y, x);
    }
  }

  // ---------- the loop's invariant ----------

  /** Legacy rows whose group is done. */
  function Done<K(!new), R(!new)>(rule: Rule<K, R>, before: map<nat, R>, todo: set<K>): set<nat> {
    set i | i in before && rule.Legacy(before[i]) && rule.NewKey(before[i]) !in todo
  }

  /** Groups still to do are untouched; every other row is final, and no group has been lost. */
  ghost predicate Progress<K(!new), R(!new)>(rule: Rule<K, R>, before: map<nat, R>, rows: map<nat, R>, todo: set<K>) {
    && rule.UniqueKeys(before)
    && (forall i :: i in rows && rule.NewKey(rows[i]) in todo ==> i in before && rows[i] == before[i])
    && (forall i :: i in before && rule.NewKey(before[i]) in todo ==> i in rows && rows[i] == before[i])
    && (forall i :: i in rows && rule.NewKey(rows[i]) !in todo ==>
          !rule.Legacy(rows[i]) && rule.Survives(before, rule.keyOf(rows[i]), i, rows[i]))
    && (forall i :: i in before ==> rule.Group(rows, rule.NewKey(before[i])) != {})
  }

  lemma DoneGrows<K(!new), R(!new)>(rule: Rule<K, R>, before: map<nat, R>, todo: set<K>, k: K)
    requires k in todo
    ensures |Done(rule, before, todo - {k})| == |Done(rule, before, todo)| + |rule.LegacyRows(before) * rule.Group(before, k)|
  {
    var done, more := Done(rule, before, todo), rule.LegacyRows(before) * rule.Group(before, k);
    assert Done(rule, before, todo - {k}) == done + more && done !! more;
  }

  lemma GroupUntouched<K(!new), R(!new)>(rule: Rule<K, R>, before: map<nat, R>, rows: map<nat, R>, todo: set<K>, k: K)
    requires k in todo && Progress(rule, before, rows, todo)
    ensures rule.Group(rows, k) == rule.Group(before, k)
    ensures forall i :: i in rule.Group(rows, k) ==> rows[i] == before[i]
  {
  }

  lemma SkippedGroup<K(!new), R(!new)>(rule: Rule<K, R>, before: map<nat, R>, rows: map<nat, R>, todo: set<K>, k: K)
    requires k in todo && Progress(rule, before, rows, todo)
    requires forall i :: i in rule.Group(rows, k) ==> !rule.Legacy(rows[i])
    ensures Progress(rule, before, rows, todo - {k})
  {
    GroupUntouched(rule, before, rows, todo, k);
  }

  /** Once its group is cleared, no row holds the new key. */
  lemma ClearedGroup<K(!new), R(!new)>(
    rule: Rule<K, R>, before: map<nat, R>, whole: map<nat, R>, rows: map<nat, R>, todo: set<K>, k: K)
    requires rule.Lawful() && k in todo && Progress(rule, before, whole, todo)
    requires rows == map i | i in whole && i !in rule.Group(whole, k) :: whole[i]
    requires rule.Group(whole, k) != {} && rule.UniqueKeys(whole)
    ensures rule.UniqueKeys(rows) && forall i :: i in rows ==> rule.keyOf(rows[i]) != k
  {
    Inhabited(rule.Group(whole, k));
    var i :| i in rule.Group(whole, k);
    assert rule.rekey(k).None?;
  }

  /** The group of `k` is gone and `winner` is in its place; every other row is where it was. */
  ghost predicate Replaced<K(!new), R(!new)>(
    rule: Rule<K, R>, whole: map<nat, R>, rows: map<nat, R>, k: K, id: nat, winner: R)
  {
    && id in rows && rows[id] == winner && rule.NewKey(winner) == k
    && (forall i :: i in rows && i != id ==> i in whole && rows[i] == whole[i] && rule.NewKey(whole[i]) != k)
    && (forall i :: i in whole && rule.NewKey(whole[i]) != k ==> i in rows && i != id)
  }

  lemma ReplacedGroup<K(!new), R(!new)>(
    rule: Rule<K, R>, before: map<nat, R>, whole: map<nat, R>, rows: map<nat, R>, todo: set<K>, k: K, id: nat, winner: R)
    requires k in todo && Progress(rule, before, whole, todo)
    requires Replaced(rule, whole, rows, k, id, winner)
    requires !rule.Legacy(winner) && rule.Survives(before, rule.keyOf(winner), id, winner)
    ensures Progress(rule, before, rows, todo - {k})
  {
    hide Rule.UniqueKeys, Rule.Survives, Rule.Group;
    forall i | i in before ensures rule.Group(rows, rule.NewKey(before[i])) != {} {
      NoGroupLost(rule, whole, rows, k, id, winner, rule.NewKey(before[i]));
    }
  }

  lemma NoGroupLost<K(!new), R(!new)>(
    rule: Rule<K, R>, whole: map<nat, R>, rows: map<nat, R>, k: K, id: nat, winner: R, other: K)
    requires Replaced(rule, whole, rows, k, id, winner) && rule.Group(whole, other) != {}
    ensures rule.Group(rows, other) != {}
  {
    Inhabited(rule.Group(whole, other));
    var i :| i in rule.Group(whole, other);
    assert (if other == k then id else i) in rule.Group(rows, other);
  }

  /** The newest row of a stale group survives under the new key, whatever its rowid. */
  lemma WinnerSurvives<K(!new), R(!new)>(
    rule: Rule<K, R>, before: map<nat, R>, whole: map<nat, R>, todo: set<K>, k: K, w: nat, id: nat)
    requires rule.Lawful() && k in todo && Progress(rule, before, whole, todo)
    requires rule.IsNewest(whole, k, w) && exists i :: i in rule.Group(whole, k) && rule.Legacy(whole[i])
    ensures var winner := rule.withKey(whole[w], k);
            !rule.Legacy(winner) && rule.NewKey(winner) == rule.keyOf(winner) == k && rule.Survives(before, k, id, winner)
  {
    GroupUntouched(rule, before, whole, todo, k);
    assert rule.rekey(k).None?;
    assert rule.IsNewest(before, k, w);
    assert rule.Stale(before, k);
  }

  lemma ProgressEnds<K(!new), R(!new)>(rule: Rule<K, R>, before: map<nat, R>, rows: map<nat, R>)
    requires Progress(rule, before, rows, {}) && rule.UniqueKeys(rows)
    ensures rule.Merged(before, rows) && Done(rule, before, {}) == rule.LegacyRows(before)
  {
  }

  lemma ProgressStarts<K(!new), R(!new)>(rule: Rule<K, R>, rows: map<nat, R>, todo: set<K>)
    requires rule.UniqueKeys(rows) && todo == set i | i in rows :: rule.NewKey(rows[i])
    ensures Progress(rule, rows, rows, todo) && Done(rule, rows, todo) == {}
  {
    forall i | i in rows ensures rule.Group(rows, rule.NewKey(rows[i])) != {} && rule.NewKey(rows[i]) in todo {
      assert i in rule.Group(rows, rule.NewKey(rows[i]));
    }
  }

  // ---------- what a rekey means ----------

  /** One row per merged key: the row under a new key is unique, the newest of its group, and every group keeps one. */
  lemma OneNewestRowPerKey<K(!new), R(!new)>(rule: Rule<K, R>, before: map<nat, R>, after: map<nat, R>, k: K)
    requires rule.Lawful() && rule.Merged(before, after) && rule.UniqueKeys(before)
    ensures (exists i :: i in after && rule.keyOf(after[i]) == k) <==> rule.Group(before, k) != {}
    ensures rule.Stale(before, k) ==>
              exists i, w :: i in after && rule.IsNewest(before, k, w) && after[i] == rule.withKey(before[w], k)
                             && forall j :: j in after && rule.keyOf(after[j]) == k ==> j == i
    ensures !rule.Stale(before, k) ==> forall i :: i in rule.Group(before, k) ==> i in after && after[i] == before[i]
  {
    Inhabited(rule.Group(before, k));
    if i :| i in rule.Group(before, k) {
      Inhabited(rule.Group(after, k));
      var j :| j in rule.Group(after, k);
      assert rule.Survives(before, k, j, after[j]);
      if rule.Stale(before, k) {
        var w :| rule.IsNewest(before, k, w) && after[j] == rule.withKey(before[w], k);
      } else {
        forall i' | i' in rule.Group(before, k) ensures i' in after && after[i'] == before[i'] {
          assert rule.keyOf(before[i']) == k && rule.keyOf(before[j]) == k;
        }
      }
    }
    if j :| j in after && rule.keyOf(after[j]) == k {
      assert rule.Survives(before, k, j, after[j]);
      if rule.Stale(before, k) {
        var w :| rule.IsNewest(before, k, w) && after[j] == rule.withKey(before[w], k);
        assert w in rule.Group(before, k);
      } else {
        assert j in rule.Group(before, k);
      }
    }
  }

  lemma AfterIsClean<K(!new), R(!new)>(rule: Rule<K, R>, before: map<nat, R>, after: map<nat, R>)
    requires rule.Merged(before, after)
    ensures forall i :: i in after ==> !rule.Legacy(after[i])
    ensures rule.LegacyRows(after) == {} && forall k :: !rule.Stale(after, k)
  {
  }

  /** A table without legacy keys is left exactly as it is, and a merged table has none: repeating changes nothing. */
  lemma RepeatingChangesNothing<K(!new), R(!new)>(rule: Rule<K, R>, before: map<nat, R>, after: map<nat, R>, again: map<nat, R>)
    requires rule.Lawful() && rule.UniqueKeys(before) && rule.Merged(before, after) && rule.Merged(after, again)
    ensures again == after && rule.LegacyRows(after) == {}
  {
    hide Rule.IsNewest;
    AfterIsClean(rule, before, after);
    forall i | i in again ensures i in after && again[i] == after[i] {
      assert rule.Survives(after, rule.keyOf(again[i]), i, again[i]);
    }
    forall i | i in after ensures i in again {
      OneNewestRowPerKey(rule, after, again, rule.keyOf(after[i]));
      assert i in rule.Group(after, rule.keyOf(after[i]));
    }
  }

  /** The two ways of skipping a group agree: no legacy key in it, or exactly one row that is already canonical. */
  lemma SkipGuardsCoincide<K(!new), R(!new)>(rule: Rule<K, R>, rows: map<nat, R>, k: K)
    requires rule.UniqueKeys(rows) && rule.Group(rows, k) != {}
    ensures !rule.Stale(rows, k) <==> exists i :: rule.Group(rows, k) == {i} && !rule.Legacy(rows[i])
  {
    Inhabited(rule.Group(rows, k));
    if !rule.Stale(rows, k) {
      var i :| i in rule.Group(rows, k);
      forall j | j in rule.Group(rows, k) ensures j == i {
        assert rule.keyOf(rows[i]) == rule.keyOf(rows[j]) == k;
      }
      assert rule.Group(rows, k) == {i};
    }
  }
}
