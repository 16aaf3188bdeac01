/** The characterizations table in its present shape, and the two lookups of reusable evidence. */
module Store {
  import opened Wrappers
  import opened Characterization
  import opened Tables
  import MachineKey
  import Engines
  import Text

  /** The primary key. */
  datatype Key = Key(
    machineKey: string, runtime: string, backend: string, artifact: ArtifactId, configKey: string, authorityKey: string,
    methodology: MethodologyKey, fingerprint: EngineFingerprint)

  function KeyOf(r: Row): Key {
    Key(r.machineKey, r.runtime, r.backend, r.artifact, r.configKey, r.authorityKey, r.methodologyKey, r.fingerprint)
  }

  function WithKey(r: Row, k: Key): Row {
    r.(machineKey := k.machineKey, runtime := k.runtime, backend := k.backend, artifact := k.artifact, configKey := k.configKey,
       authorityKey := k.authorityKey, methodologyKey := k.methodology, fingerprint := k.fingerprint)
  }

  function Rekeyed(k: Key): Option<Key> {
    if MachineKey.RekeyLegacyKey(k.machineKey).Some?
    then Some(k.(machineKey := MachineKey.RekeyLegacyKey(k.machineKey).value)) else None
  }

  /** How the table is keyed, and how a rekey rewrites its machine identities. */
  function RowRule(): Rule<Key, Row> {
    Rule(KeyOf, Rekeyed, WithKey, (r: Row) => r.measuredAt.GetOr(""))
  }

  lemma RowRuleIsLawful()
    ensures RowRule().Lawful()
  {
    hide MachineKey.RekeyLegacyKey;
    forall key: string | MachineKey.RekeyLegacyKey(key).Some?
      ensures MachineKey.RekeyLegacyKey(MachineKey.RekeyLegacyKey(key).value).None?
    {
      MachineKey.RekeyIsIdempotent(key);
    }
  }

  // ---------- the invariant ----------

  /** Known method, known engine build, strong artifact identity. */
  predicate Grounded(r: Row) {
    r.methodologyKey != LegacyMethodology && r.fingerprint != LegacyEngine && StrongConfidence(r.confidence)
  }

  /** The store invariant from version 7 on. */
  ghost predicate ReusableIsGrounded(rows: set<Row>) {
    forall r :: r in rows && r.reusable ==> Grounded(r)
  }

  /** A row that `save_characterization` writes is reusable exactly when it is grounded. */
  lemma SavesAreGrounded(s: Saving)
    ensures SavedRow(s).reusable == Grounded(SavedRow(s))
  {
  }

  /** `save_characterization`: the row takes the place of the one with its primary key, or a new place. */
  method Save(t: Table<Key, Row>, s: Saving) returns (id: nat)
    requires t.Valid() && t.rule == RowRule()
    modifies t
    ensures t.Valid() && RowRule().Slot(old(t.rows), SavedRow(s), id) && t.rows == old(t.rows)[id := SavedRow(s)]
  {
    id := t.Upsert(SavedRow(s));
  }

  /** What an upsert leaves: the new row, and every other row that was there under another key. */
  lemma UpsertReplacesOnlyItsKey(rows: map<nat, Row>, row: Row, id: nat, r: Row)
    requires RowRule().UniqueKeys(rows) && RowRule().Slot(rows, row, id)
    ensures r in rows[id := row].Values <==> r == row || (r in rows.Values && KeyOf(r) != KeyOf(row))
    ensures RowRule().UniqueKeys(rows[id := row])
  {
    var after := rows[id := row];
    assert after[id] == row;
    if r in rows.Values && KeyOf(r) != KeyOf(row) {
      var i :| i in rows && rows[i] == r;
      assert after[i] == r;
    }
    if r in after.Values && r != row {
      var i :| i in after && after[i] == r;
      assert rows[i] == r && RowRule().keyOf(rows[i]) == KeyOf(r);
    }
  }

  // ---------- lookups ----------

  /** One target cell, with the optional exact identities of a lookup. */
  datatype Query = Query(
    machineKey: string, runtime: string, backend: string, artifact: ArtifactId, configKey: string,
    authorityKey: Option<string>, methodology: Option<MethodologyKey>, fingerprint: Option<EngineFingerprint>)

  predicate Matches(r: Row, q: Query) {
    && r.machineKey == q.machineKey && r.runtime == q.runtime && r.backend == q.backend
    && r.artifact == q.artifact && r.configKey == q.configKey
    && (q.authorityKey.Some? ==> r.authorityKey == q.authorityKey.value)
    && (q.methodology.Some? ==> r.methodologyKey == q.methodology.value)
    && (q.fingerprint.Some? ==> r.fingerprint == q.fingerprint.value)
  }

  /** `ORDER BY measured_at DESC, authority_key DESC`; a missing time sorts last. */
  predicate Newer(x: Row, y: Row) {
    if x.measuredAt != y.measuredAt
    then x.measuredAt.Some? && (y.measuredAt.None? || Text.Precedes(y.measuredAt.value, x.measuredAt.value))
    else Text.Precedes(y.authorityKey, x.authorityKey)
  }

  predicate Candidate(r: Row, q: Query) {
    Matches(r, q) && r.reusable
  }

  /** The exact lookup takes a newest candidate first and only then looks at its confidence. */
  ghost predicate IsExactAnswer(rows: set<Row>, q: Query, answer: Option<Row>) {
    if forall r :: r in rows ==> !Candidate(r, q) then answer.None?
    else exists r :: r in rows && IsNewest(rows, q, r) && answer == (if StrongConfidence(r.confidence) then Some(r) else None)
  }

  ghost predicate IsNewest(rows: set<Row>, q: Query, r: Row) {
    Candidate(r, q) && forall c :: c in rows && Candidate(c, q) ==> !Newer(c, r)
  }

  /** The simple lookup: every match that is marked reusable and grounded. */
  function Reusables(rows: set<Row>, q: Query): set<Row> {
    set r | r in rows && Candidate(r, q) && Grounded(r)
  }

  /** `get_reusable_characterization`; SQLite may return any of several equally new rows. */
  method GetReusable(t: Table<Key, Row>, q: Query) returns (answer: Option<Row>)
    ensures IsExactAnswer(t.rows.Values, q, answer)
  {
    hide Matches, Newer;
    var newest: Option<Row> := None;
    var left: set<nat> := t.rows.Keys;
    ghost var seen: set<Row> := {};
    while left != {}
      invariant left <= t.rows.Keys && seen <= t.rows.Values
      invariant forall i :: i in t.rows && i !in left ==> t.rows[i] in seen
      invariant if newest.None? then forall r :: r in seen ==> !Candidate(r, q)
                else newest.value in seen && IsNewest(seen, q, newest.value)
      decreases |left|
    {
      Inhabited(left);
      var i: nat :| i in left;
      var r, tie: bool := t.rows[i], *;
      NewerIsIrreflexive(r);
      if Candidate(r, q) {
        if newest.None? {
          newest := Some(r);
        } else {
          NewerIsAsymmetric(newest.value, r);
          if Newer(r, newest.value) || (tie && !Newer(newest.value, r)) {
            NewestSoFar(seen, q, newest.value, r);
            newest := Some(r);
          }
        }
      }
      seen, left := seen + {r}, left - {i};
    }
    assert seen == t.rows.Values;
    answer := if newest.Some? && StrongConfidence(newest.value.confidence) then newest else None;
  }

  // ---------- order ----------

  lemma NewerIsIrreflexive(x: Row)
    ensures !Newer(x, x)
  {
    Text.PrecedesTotal(x.authorityKey, x.authorityKey);
  }

  lemma NewerIsAsymmetric(x: Row, y: Row)
    ensures !(Newer(x, y) && Newer(y, x))
  {
    Text.PrecedesTotal(x.authorityKey, y.authorityKey);
    Text.PrecedesTotal(x.measuredAt.GetOr(""), y.measuredAt.GetOr(""));
  }

  lemma NotNewerIsTransitive(x: Row, y: Row, z: Row)
    requires !Newer(x, y) && !Newer(y, z)
    ensures !Newer(x, z)
  {
    var (a, b, c) := (x.measuredAt.GetOr(""), y.measuredAt.GetOr(""), z.measuredAt.GetOr(""));
    Text.PrecedesTotal(a, b);
    Text.PrecedesTotal(b, c);
    Text.PrecedesTotal(a, c);
    Text.PrecedesTotal(x.authorityKey, y.authorityKey);
    Text.PrecedesTotal(y.authorityKey, z.authorityKey);
    Text.PrecedesTotal(x.authorityKey, z.authorityKey);
    if Text.Precedes(a, b) && Text.Precedes(b, c) {
      Text.PrecedesTransitive(a, b, c);
    }
    if Text.Precedes(x.authorityKey, y.authorityKey) && Text.Precedes(y.authorityKey, z.authorityKey) {
      Text.PrecedesTransitive(x.authorityKey, y.authorityKey, z.authorityKey);
    }
  }

  lemma NewestSoFar(rows: set<Row>, q: Query, newest: Row, r: Row)
    requires IsNewest(rows, q, newest) && !Newer(newest, r)
    ensures forall c :: c in rows && Candidate(c, q) ==> !Newer(c, r)
  {
    forall c | c in rows && Candidate(c, q) ensures !Newer(c, r) {
      NotNewerIsTransitive(c, newest, r);
    }
  }

  // ---------- the two lookups ----------

  /** In a grounded store the exact lookup finds a row exactly when the simple one does, and what it finds is a newest
      row of the simple one. `History.LookupsAgreeInEveryStore` shows that every reachable store is grounded. */
  lemma LookupsAgree(rows: set<Row>, q: Query, answer: Option<Row>)
    requires ReusableIsGrounded(rows) && IsExactAnswer(rows, q, answer)
    ensures answer.Some? <==> Reusables(rows, q) != {}
    ensures answer.Some? ==> answer.value in Reusables(rows, q) && forall r :: r in Reusables(rows, q) ==> !Newer(r, answer.value)
  {
    hide Matches, Newer;
    Inhabited(Reusables(rows, q));
    if r :| r in Reusables(rows, q) {
      assert Candidate(r, q);
    }
    assert answer.Some? ==> answer.value in Reusables(rows, q);
  }

  /** Without the invariant they differ: a newer weak row marked reusable hides an older strong one. */
  lemma WeakRowHidesStrongOne(strong: Row, q: Query)
    requires Candidate(strong, q) && Grounded(strong) && strong.measuredAt.Some? && q.authorityKey.None?
    ensures exists weak: Row :: KeyOf(weak) != KeyOf(strong) && IsExactAnswer({strong, weak}, q, None)
                                && Reusables({strong, weak}, q) == {strong}
  {
    var later := strong.measuredAt.value + "1";
    var weak := strong.(confidence := UnknownConfidence, measuredAt := Some(later), authorityKey := strong.authorityKey + "1");
    var rows := {strong, weak};
    LongerIsLater(strong.measuredAt.value, "1");
    NewerIsAsymmetric(strong, weak);
    NewerIsIrreflexive(weak);
    assert |weak.authorityKey| != |strong.authorityKey|;
    assert weak in rows && IsNewest(rows, q, weak);
    assert Reusables(rows, q) == {strong};
  }

  lemma {:induction false} LongerIsLater(s: string, t: string)
    requires t != []
    ensures Text.Precedes(s, s + t) && s + t != s
  {
    if s != [] {
      assert (s + t)[1..] == s[1..] + t;
      LongerIsLater(s[1..], t);
    }
    assert |s + t| > |s|;
  }

  // ---------- what keys and queries select ----------

  /** Rows share a primary key exactly when these eight columns agree. */
  lemma KeysAgreeExactly(r: Row, s: Row)
    ensures KeyOf(r) == KeyOf(s)
            <==> && r.machineKey == s.machineKey && r.runtime == s.runtime && r.backend == s.backend && r.artifact == s.artifact
                 && r.configKey == s.configKey && r.authorityKey == s.authorityKey && r.methodologyKey == s.methodologyKey
                 && r.fingerprint == s.fingerprint
  {
  }

  /** The lookup of a row's own cell with all of its exact identities. */
  function OwnQuery(r: Row): Query {
    Query(r.machineKey, r.runtime, r.backend, r.artifact, r.configKey, Some(r.authorityKey), Some(r.methodologyKey), Some(r.fingerprint))
  }

  /** A lookup with all identities matches exactly the rows of one primary key. */
  lemma ExactQueryIsAKey(r: Row, own: Row)
    ensures Matches(r, OwnQuery(own)) <==> KeyOf(r) == KeyOf(own)
  {
    KeysAgreeExactly(r, own);
  }

  /** An identity that a lookup leaves out may be any, and nothing else may. */
  lemma MissingIdentitiesMatchAny(r: Row, q: Query)
    ensures Matches(r, q.(authorityKey := None)) <==> Matches(r, q.(authorityKey := Some(r.authorityKey)))
    ensures Matches(r, q.(methodology := None)) <==> Matches(r, q.(methodology := Some(r.methodologyKey)))
    ensures Matches(r, q.(fingerprint := None)) <==> Matches(r, q.(fingerprint := Some(r.fingerprint)))
    ensures Matches(r, q) ==> Matches(r, OwnQuery(r).(authorityKey := q.authorityKey, methodology := q.methodology, fingerprint := q.fingerprint))
                              && OwnQuery(r).(authorityKey := q.authorityKey, methodology := q.methodology, fingerprint := q.fingerprint) == q
  {
  }

  /** What a save writes, column by column. */
  lemma SavedColumns(s: Saving)
    ensures var r := SavedRow(s);
            && r.machineKey == s.machineKey && r.logicalModel == s.model && r.configKey == s.configKey
            && r.authorityKey == s.authorityKey && r.methodologyKey == s.methodology && r.fingerprint == s.fingerprint
            && r.safeContext == s.safe && r.fittedContext == s.fitted && r.points == Some(s.points) && r.config == Some(s.config)
            && r.measuredAt == Some(s.measuredAt) && r.legacyEngine == Some(Engines.CanonicalName(s.engine))
            && r.artifact == s.artifact.GetOr(LegacyUnverified(s.model))
            && r.runtime == Engines.ForEngine(Some(s.engine)).0
            && (r.runtime != "ollama" ==> r.backend == Engines.ForEngine(Some(s.engine)).1)
            && (r.runtime == "ollama" ==>
                  match s.config.cell.placement
                  case Cpu => r.backend == "cpu"
                  case Unified => r.backend == "apple"
                  case Accelerator => r.backend == "cuda"
                  case PartialOffload => r.backend == "cuda"
                  case _ => r.backend == "unknown")
  {
    Engines.BackendsBelong("ollama");
  }

  /** The artifact identities that count as strong: a full manifest digest, a Hugging Face revision, or a local file's hash. */
  predicate StrongArtifact(a: ArtifactId) {
    a.HuggingFace? || a.LocalGguf? || (a.OllamaManifest? && |a.digest| == 64 && forall c :: c in Text.Lower(a.digest) ==> c in "0123456789abcdef")
  }

  lemma StrongExactly(a: ArtifactId)
    ensures StrongConfidence(Classify(a)) <==> StrongArtifact(a)
  {
    if a.OllamaManifest? {
      var s := Text.Lower(a.digest);
      assert forall c: char :: IsHex(c) <==> c in "0123456789abcdef";
      assert (forall c :: c in s ==> IsHex(c)) <==> (forall i :: 0 <= i < |s| ==> IsHex(s[i]));
    }
  }
}
