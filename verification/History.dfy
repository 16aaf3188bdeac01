/** Whole histories of one machine's store: migrations, characterizations, other saves, rekeys, daemon changes and
    governed requests in any order. */
module History {
  import opened Wrappers
  import opened Evidence
  import opened Characterization
  import opened Events
  import opened RampEvidence
  import opened ProbeLifecycle
  import opened ProbeRamp
  import opened Daemon
  import WatchedProbe
  import opened Characterize
  import opened GovernedRequest
  import opened GovernedNames
  import Agreement
  import Engines
  import Migrations
  import RampSchedule
  import Store
  import MachineKey
  import Tables

  // ---------- steps ----------

  /** One characterization that was recorded: what it worked on, the artifact table it started with, what its ramp observed,
      the probe it stored, all that it saw and asked, and the steps of its commit. */
  datatype Measurement = Measurement(
    c: Command, store: map<ArtifactId, OwnershipRow>, obs: seq<RungObservation>, probe: Option<ProbeTarget>, trace: seq<Event>,
    commit: seq<Event>)

  /** All that `CharacterizeOllama` guarantees of a row it records. */
  ghost predicate Genuine(x: Measurement) {
    && Ready(x.c) && |x.obs| <= |RampSchedule.Rungs(x.c.max)|
    && Explained(x.c, x.store, Ok(Recorded(RowOf(x))), x.trace, x.commit, x.obs, x.probe, Run(x.c.job, x.store, x.trace), false)
  }

  function RowOf(x: Measurement): Row
    requires Ready(x.c) && |x.obs| <= |RampSchedule.Rungs(x.c.max)|
  {
    RowFor(x.c, x.obs, x.probe)
  }

  /** A characterization that records a row is a genuine one. */
  method CharacterizeModel(w: World<Monitor>, c: Command) returns (r: Outcome<CharacterizeEnd>, ghost x: Measurement)
    requires WatchedProbe.Tracks(w, c.job) && Ready(c) && w.trace == [] && w.initial == Start(w.artifacts)
    modifies w
    ensures r.Ok? && r.value.Recorded? ==>
              Genuine(x) && x.c == c && x.store == old(w.artifacts) && x.trace == w.trace && r.value.row == RowOf(x)
  {
    hide Ready, Completed, Prepared, RowFor, RampRun;
    ghost var obs, probe, steps;
    r, obs, probe, steps := CharacterizeOllama(w, c);
    x := Measurement(c, old(w.artifacts), obs, probe, w.trace, steps);
    if r.Ok? && r.value.Recorded? {
      CompletedIsBounded(x, r.value);
    }
  }

  lemma CompletedIsBounded(x: Measurement, end: CharacterizeEnd)
    requires Run(x.c.job, x.store, x.trace).Watching?
    requires Completed(x.c, end, x.trace, x.commit, x.obs, x.probe, Run(x.c.job, x.store, x.trace).last)
    ensures |x.obs| <= |RampSchedule.Rungs(x.c.max)|
  {
  }

  /** The parts of that, one by one. */
  lemma GenuineMeans(x: Measurement)
    requires Genuine(x)
    ensures RuntimeFingerprint(x.c.a).Some? && ArtifactOf(x.c.m) == Some(x.c.job.baseArtifact) && x.c.job.baseModel == x.c.m.name
    ensures RampRun(RampSchedule.Rungs(x.c.max), x.c.subject, x.obs)
    ensures AllObserved(x.trace, x.c.job, x.c.a, RampSchedule.Rungs(x.c.max), x.obs)
    ensures var end := Run(x.c.job, x.store, x.trace); end.Watching? && end.saved && RecordsCreation(x.probe, x.c.job, end.last)
  {
    hide RampRun, AllObserved, Run, RampSchedule.Rungs, LastTried, RowFor, RuntimeFingerprint;
  }

  /** A governed request: the model and daemon it was assessed against, the requested context if any, and what was
      observed before its body ran. */
  datatype Attempt = Attempt(
    machineKey: string, m: Model, a: Authority, listed: seq<Row>, requested: Option<int>, hash: NameHash, before: seq<Event>)

  /** Anything the daemon does between these steps shows only in what they observe. */
  datatype Step =
    | Migrated(d: Migrations.Derivations, content: Migrations.Content)
    | HalfMigrated(d: Migrations.Derivations, content: Migrations.Content)
    | Characterized(x: Measurement, row: Row, id: nat)
    | SavedElsewhere(saving: Saving, id: nat)
    | Rekeyed(rows: map<nat, Row>)
    | Ran(attempt: Attempt)

  datatype State = State(version: nat, content: Migrations.Content)

  /** The characterizations in their present shape. */
  function Rows(s: State): map<nat, Row> {
    if s.content.chr.CharV7? then s.content.chr.v7 else map[]
  }

  function WithRows(s: State, rows: map<nat, Row>): State {
    s.(content := s.content.(chr := Migrations.CharV7(rows)))
  }

  /** `list_characterizations_for_display` for one machine and model on the Ollama runtime, in any order. */
  ghost predicate Lists(rows: set<Row>, machineKey: string, model: string, listed: seq<Row>) {
    forall r :: r in listed <==> r in rows && r.machineKey == machineKey && r.runtime == "ollama" && r.logicalModel == model
  }

  /** The request passed assessment, the context gate and the admission straight before its body. */
  ghost predicate MayRun(rows: set<Row>, t: Attempt) {
    var row := Assess(t.listed, t.m, t.a).reusable;
    && Lists(rows, t.machineKey, t.m.name, t.listed)
    && row.Some? && row.value.config.Some? && row.value.safeContext.Some?
    && GovernedContext(row.value.safeContext.value, t.requested).Some?
    && Admitted(t.hash, GovernedBy(t, row.value), t.before)
  }

  /** The digest is the one in the row's artifact identity. */
  function GovernedBy(t: Attempt, row: Row): Governed
    requires row.config.Some? && row.safeContext.Some? && GovernedContext(row.safeContext.value, t.requested).Some?
  {
    Governed(t.a, t.m, row.artifact, if row.artifact.OllamaManifest? then row.artifact.digest else "", row.config.value,
             GovernedContext(row.safeContext.value, t.requested).value)
  }

  ghost predicate Enabled(s: State, step: Step) {
    match step
    case Migrated(d, content) =>
      s.version < Migrations.SCHEMA_VERSION && Migrations.Step(d, s.version + 1, s.content, content)
      && Migrations.Sound(s.version + 1, content)
    case HalfMigrated(d, content) => Migrations.Halfway(d, s.version, s.content, content)
    case Characterized(x, row, id) =>
      s.version >= Migrations.SCHEMA_VERSION && Genuine(x) && row == RowOf(x) && Store.RowRule().Slot(Rows(s), row, id)
    case SavedElsewhere(saving, id) =>
      s.version >= Migrations.SCHEMA_VERSION && Engines.ForEngine(Some(saving.engine)).0 != "ollama"
      && Store.RowRule().Slot(Rows(s), SavedRow(saving), id)
    case Rekeyed(rows) => s.version >= Migrations.SCHEMA_VERSION && Store.RowRule().Merged(Rows(s), rows)
    case Ran(t) => s.version >= Migrations.SCHEMA_VERSION && MayRun(Rows(s).Values, t)
  }

  function Next(s: State, step: Step): State {
    match step
    case Migrated(_, content) => State(s.version + 1, content)
    case HalfMigrated(_, content) => s.(content := content)
    case Characterized(_, row, id) => WithRows(s, Rows(s)[id := row])
    case SavedElsewhere(saving, id) => WithRows(s, Rows(s)[id := SavedRow(saving)])
    case Rekeyed(rows) => WithRows(s, rows)
    case Ran(_) => s
  }

  function StateAfter(start: State, t: seq<Step>): State {
    if t == [] then start else Next(StateAfter(start, t[..|t| - 1]), t[|t| - 1])
  }

  /** A history that starts with any sound store of a version before 7; a new store is one. */
  ghost predicate Possible(start: State, t: seq<Step>) {
    if t == [] then start.version < 7 && Migrations.Sound(start.version, start.content)
    else Possible(start, t[..|t| - 1]) && Enabled(StateAfter(start, t[..|t| - 1]), t[|t| - 1])
  }

  // ---------- every reachable store ----------

  /** Sound, and whatever is reusable has a known method, a known engine build and a strong identity. */
  ghost predicate Healthy(s: State) {
    Migrations.Sound(s.version, s.content) && Store.ReusableIsGrounded(Rows(s).Values)
  }

  lemma {:induction false} EveryStoreIsHealthy(start: State, t: seq<Step>)
    requires Possible(start, t)
    ensures Healthy(StateAfter(start, t))
  {
    hide Healthy, Enabled, Next;
    if t == [] {
      OldStoresAreHealthy(start);
    } else {
      EveryStoreIsHealthy(start, t[..|t| - 1]);
      StepsKeepHealth(StateAfter(start, t[..|t| - 1]), t[|t| - 1]);
    }
  }

  lemma OldStoresAreHealthy(s: State)
    requires s.version < 7 && Migrations.Sound(s.version, s.content)
    ensures Healthy(s) && Rows(s) == map[]
  {
  }

  lemma StepsKeepHealth(s: State, step: Step)
    requires Healthy(s) && Enabled(s, step)
    ensures Healthy(Next(s, step))
  {
    hide Migrations.Step, Migrations.Sound, Genuine, MayRun, Store.ReusableIsGrounded, RowOf;
    match step
    case Migrated(d, content) =>
      MigrationKeepsHealth(d, s.version + 1, s.content, content);
    case HalfMigrated(d, content) =>
      MigrationKeepsHealth(d, 2, s.content, content);
      HalfwayIsSound(d, s.content, content);
    case Characterized(x, row, id) =>
      RecordsAreSaves(x);
      SaveKeepsHealth(s, row, id);
    case SavedElsewhere(saving, id) =>
      Store.SavesAreGrounded(saving);
      SaveKeepsHealth(s, SavedRow(saving), id);
    case Rekeyed(rows) =>
      RekeyKeepsHealth(s, rows);
    case Ran(_) =>
  }

  lemma MigrationKeepsHealth(d: Migrations.Derivations, v: nat, c: Migrations.Content, n: Migrations.Content)
    requires Migrations.Step(d, v, c, n) && Store.ReusableIsGrounded(Rows(State(v, c)).Values)
    ensures Store.ReusableIsGrounded(Rows(State(v, n)).Values)
  {
    hide Migrations.Step;
    Migrations.MigrationsKeepReuseGrounded(d, v, c, n);
  }

  lemma HalfwayIsSound(d: Migrations.Derivations, c: Migrations.Content, n: Migrations.Content)
    requires Migrations.Sound(1, c) && Migrations.Step(d, 2, c, n)
    ensures Migrations.Sound(1, n)
  {
    Migrations.RekeyedIsSound(d, c, n);
  }

  lemma RecordsAreSaves(x: Measurement)
    requires Genuine(x)
    ensures RowOf(x).reusable == Store.Grounded(RowOf(x))
  {
    hide PointsOf, BestOf, CharacterizationConfig, RampRun, AllObserved;
  }

  lemma SaveKeepsHealth(s: State, row: Row, id: nat)
    requires Healthy(s) && s.version >= Migrations.SCHEMA_VERSION
    requires row.reusable == Store.Grounded(row) && Store.RowRule().Slot(Rows(s), row, id)
    ensures Healthy(WithRows(s, Rows(s)[id := row]))
  {
    hide Store.Grounded, Store.KeyOf;
    forall r | r in Rows(s)[id := row].Values && r.reusable ensures Store.Grounded(r) {
      Store.UpsertReplacesOnlyItsKey(Rows(s), row, id, r);
    }
    Store.UpsertReplacesOnlyItsKey(Rows(s), row, id, row);
  }

  lemma RekeyKeepsHealth(s: State, rows: map<nat, Row>)
    requires Healthy(s) && s.version >= Migrations.SCHEMA_VERSION && Store.RowRule().Merged(Rows(s), rows)
    ensures Healthy(WithRows(s, rows))
  {
    hide Store.ReusableIsGrounded;
    MergedStaysGrounded(Rows(s), rows);
  }

  lemma MergedStaysGrounded(before: map<nat, Row>, after: map<nat, Row>)
    requires Store.RowRule().Merged(before, after) && Store.ReusableIsGrounded(before.Values)
    ensures Store.ReusableIsGrounded(after.Values)
  {
    hide Store.RowRule, Tables.Rule.Merged, Store.Grounded;
    forall r | r in after.Values && r.reusable ensures Store.Grounded(r) {
      var i :| i in after && after[i] == r;
      var o := RekeyIsMaintenance(before, after, i);
      assert before[o] in before.Values;
    }
  }

  /** In every store that a history reaches at version 7 or later, the exact lookup finds a row exactly when some match
      is reusable and grounded, and then a newest one of these. */
  lemma LookupsAgreeInEveryStore(start: State, t: seq<Step>, q: Store.Query, answer: Option<Row>)
    requires Possible(start, t) && StateAfter(start, t).version >= 7
    requires Store.IsExactAnswer(Rows(StateAfter(start, t)).Values, q, answer)
    ensures StateAfter(start, t).content.chr.CharV7?
    ensures var found := Store.Reusables(Rows(StateAfter(start, t)).Values, q);
            && (answer.Some? <==> found != {})
            && (answer.Some? ==> answer.value in found && forall r :: r in found ==> !Store.Newer(r, answer.value))
  {
    hide Store.IsExactAnswer, Store.Reusables, Possible, StateAfter;
    EveryStoreIsHealthy(start, t);
    Store.LookupsAgree(Rows(StateAfter(start, t)).Values, q, answer);
  }

  // ---------- rekeys ----------

  /** A row that is still reusable is an old row, perhaps under a rewritten machine key. */
  ghost predicate KeepsReusableRows(rows: set<Row>, after: set<Row>) {
    forall r :: r in after && r.reusable ==> exists o :: o in rows && r == o.(machineKey := r.machineKey)
  }

  /** What a rekey leaves are old rows, at most under a rewritten machine key; it makes no row reusable. */
  lemma RekeyIsMaintenance(before: map<nat, Row>, after: map<nat, Row>, i: nat) returns (o: nat)
    requires Store.RowRule().Merged(before, after) && i in after
    ensures o in before && after[i] == before[o].(machineKey := after[i].machineKey)
    ensures after[i].reusable == before[o].reusable && Store.Grounded(after[i]) == Store.Grounded(before[o])
  {
    hide MachineKey.RekeyLegacyKey;
    var rule := Store.RowRule();
    var k := rule.keyOf(after[i]);
    assert rule.Survives(before, k, i, after[i]);
    if rule.Stale(before, k) {
      o :| rule.IsNewest(before, k, o) && after[i] == rule.withKey(before[o], k);
      assert rule.NewKey(before[o]) == k;
    } else {
      o := i;
    }
  }

  /** `_rekey_pk_table` on the present table. */
  method RekeyRows(rows: map<nat, Row>) returns (after: map<nat, Row>, rekeyed: nat)
    requires Store.RowRule().UniqueKeys(rows)
    ensures Store.RowRule().Merged(rows, after) && rekeyed == |Store.RowRule().LegacyRows(rows)|
    ensures KeepsReusableRows(rows.Values, after.Values)
  {
    hide Store.RowRule, Tables.Rule.Merged;
    Store.RowRuleIsLawful();
    var t := new Tables.Table(Store.RowRule());
    t.rows := rows;
    rekeyed := t.MergeRekey();
    after := t.rows;
    forall r | r in after.Values && r.reusable ensures exists o :: o in rows.Values && r == o.(machineKey := r.machineKey) {
      var i :| i in after && after[i] == r;
      var o := RekeyIsMaintenance(rows, after, i);
      assert rows[o] in rows.Values;
    }
  }

  // ---------- where reusable rows come from ----------

  /** This row is the record of that measurement, perhaps under a rewritten machine key. */
  ghost predicate Records(r: Row, x: Measurement) {
    Genuine(x) && r == RowOf(x).(machineKey := r.machineKey)
  }

  ghost predicate HasOrigin(t: seq<Step>, r: Row) {
    exists i :: 0 <= i < |t| && t[i].Characterized? && Records(r, t[i].x)
  }

  /** The invariant of every history: a reusable Ollama row is the record of an earlier characterization. */
  lemma {:induction false} ReusableRowsHaveOrigins(start: State, t: seq<Step>, r: Row)
    requires Possible(start, t) && r in Rows(StateAfter(start, t)).Values && r.reusable && r.runtime == "ollama"
    ensures HasOrigin(t, r)
  {
    hide RowOf, Genuine, MayRun, Enabled, Next, Rows;
    if t == [] {
      OldStoresAreHealthy(start);
    } else {
      var front, last := t[..|t| - 1], |t| - 1;
      var earlier := StateAfter(start, front);
      if RecordedBy(earlier, t[last], r) {
        assert Records(r, t[last].x);
      } else {
        var o := Before(earlier, t[last], r);
        ReusableRowsHaveOrigins(start, front, o);
        var i :| 0 <= i < |front| && front[i].Characterized? && Records(o, front[i].x);
        assert t[i] == front[i] && Records(r, t[i].x);
      }
    }
  }

  ghost predicate RecordedBy(earlier: State, step: Step, r: Row) {
    step.Characterized? && Records(r, step.x)
  }

  /** The row that a step left behind under this content, unless the step recorded it anew. */
  lemma Before(earlier: State, step: Step, r: Row) returns (o: Row)
    requires Enabled(earlier, step) && !RecordedBy(earlier, step, r)
    requires r in Rows(Next(earlier, step)).Values && r.reusable && r.runtime == "ollama"
    ensures o in Rows(earlier).Values && o.reusable && o.runtime == "ollama" && r == o.(machineKey := r.machineKey)
  {
    hide Migrations.Step, Migrations.Sound, MayRun, RowOf, Genuine;
    o := r;
    match step
    case Migrated(d, content) => MigrationsBringNoReuse(d, earlier.version + 1, earlier.content, content, r);
    case HalfMigrated(d, content) => MigrationsBringNoReuse(d, 2, earlier.content, content, r);
    case Characterized(x, row, id) => UpsertAddsOnly(Rows(earlier), id, row, r);
    case SavedElsewhere(saving, id) => UpsertAddsOnly(Rows(earlier), id, SavedRow(saving), r);
    case Rekeyed(rows) =>
      var i :| i in rows && rows[i] == r;
      var k := RekeyIsMaintenance(Rows(earlier), rows, i);
      o := Rows(earlier)[k];
    case Ran(_) =>
  }

  lemma MigrationsBringNoReuse(d: Migrations.Derivations, v: nat, c: Migrations.Content, n: Migrations.Content, r: Row)
    requires Migrations.Step(d, v, c, n) && r in Rows(State(v, n)).Values && r.reusable
    ensures r in Rows(State(v, c)).Values
  {
  }

  lemma UpsertAddsOnly(rows: map<nat, Row>, id: nat, row: Row, r: Row)
    requires r in rows[id := row].Values
    ensures r == row || r in rows.Values
  {
  }

  // ---------- the central promise ----------

  /** An assessment hands back only a listed row that it found no fault with. */
  lemma AssessedRowIsListed(rows: seq<Row>, m: Model, a: Authority)
    requires Assess(rows, m, a).reusable.Some?
    ensures var row := Assess(rows, m, a).reusable.value; row in rows && Refusal(row, m, a).None?
  {
    hide Refusal, Preferred;
    var ofArtifact := OfArtifact(rows, ArtifactOf(m));
    var candidates := if ofArtifact != [] then ofArtifact else rows;
    Agreement.PreferredIsMaximal(candidates, a);
    Agreement.OfArtifactContents(rows, ArtifactOf(m), Preferred(candidates, a));
  }

  /** What a row without a fault shares with the model and daemon it was judged against. */
  lemma NoFaultMeans(row: Row, m: Model, a: Authority)
    requires Refusal(row, m, a).None?
    ensures ArtifactOf(m) == Some(row.artifact) && Some(row.fingerprint) == RuntimeFingerprint(a)
    ensures row.methodologyKey == OllamaMethodology && row.reusable
    ensures row.safeContext.Some? && row.safeContext.value > 0 && row.config.Some?
    ensures row.config.value.endpointAuthority == a.endpoint.url && row.config.value.serverInstance == a.serverInstance
    ensures row.config.value.configuredInputs == Some(DictOf(a.configuredInputs))
    ensures row.config.value.cell.placement in {Cpu, Unified, Accelerator, PartialOffload}
    ensures exists point: Cell :: WallEvidenceComplete(row.config.value.cell, point)
  {
  }

  /** The governed model under its manifest, or the probe that the ramp recorded under its own. */
  predicate IsGovernedRunner(p: Process, m: Model, probe: Option<ProbeTarget>) {
    || (SameName(p.name, m.name) && p.digest.Some? && p.digest == m.digest)
    || (probe.Some? && SameName(p.name, probe.value.name) && p.digest.Some? && probe.value.artifact == OllamaManifest(p.digest.value))
  }

  /** The recorded probe is the one that the ramp created last. */
  lemma RecordedProbeIsLastCreated(x: Measurement, digest: string) returns (c: nat, v: nat)
    requires Genuine(x) && x.probe.Some? && x.probe.value.artifact == OllamaManifest(digest)
    ensures x.probe.value.name == x.c.job.probe && LastCreatedAs(x.c.job, x.trace, c, v, digest)
    ensures x.trace[c].context == x.probe.value.context
  {
    hide Genuine, Run;
    GenuineMeans(x);
    c, v := LastCreation(x.c.job, x.store, x.trace);
  }

  /** The resident runner is the governed model under its manifest, or the probe that the measurement recorded, which is the
      last one that its ramp created. */
  ghost predicate GovernedRunner(p: Process, m: Model, x: Measurement) {
    && p.digest.Some?
    && (|| (SameName(p.name, m.name) && p.digest == m.digest)
        || (SameName(p.name, x.c.job.probe) && exists c, v :: LastCreatedAs(x.c.job, x.trace, c, v, p.digest.value)))
  }

  lemma RunnerIsGoverned(p: Process, m: Model, x: Measurement)
    requires Genuine(x) && IsGovernedRunner(p, m, x.probe)
    ensures GovernedRunner(p, m, x)
  {
    hide Genuine, SameName, LastCreatedAs;
    if !(SameName(p.name, m.name) && p.digest == m.digest) {
      var c, v := RecordedProbeIsLastCreated(x, p.digest.value);
    }
  }

  /** The rung at `j` in the trace saw this model under its manifest, created the probe from it, bound the manifest first
      listed after that durably to the run, and then read exactly that manifest resident at this context. */
  ghost predicate LoadedFrom(x: Measurement, j: int, m: Model, context: int, o: RungObservation) {
    && ProbedFrom(x.trace, j, x.c.job, x.c.a, context, o)
    && x.trace[j + 2].SawInventory? && m.digest.Some? && InventoryId(x.trace[j + 2].models, m.name) == ArtifactOf(m)
    && x.trace[j + 3] == Create(x.c.job.probe, m.name, context, true)
    && o.process.digest.Some? && CreatedAs(x.c.job, x.trace, j + 3, j + 4, o.process.digest.value)
    && x.trace[j + 5] == Own(OllamaManifest(o.process.digest.value), OwnershipFor(x.c.job, context))
    && SameName(o.process.name, x.c.job.probe) && o.process.effectiveContext == Some(context)
  }

  lemma ProbedIsLoaded(x: Measurement, m: Model, context: int, o: RungObservation) returns (j: nat)
    requires Probed(x.trace, x.c.job, x.c.a, context, o)
    requires x.c.job.baseModel == m.name && ArtifactOf(m) == Some(x.c.job.baseArtifact)
    ensures LoadedFrom(x, j, m, context, o)
  {
    hide LoadedSteps, OwnershipFor, CreatedAs, InventoryId;
    j :| ProbedFrom(x.trace, j, x.c.job, x.c.a, context, o);
    ProbedIsTheProbe(x.trace, j, x.c.job, x.c.a, context, o);
  }

  /** The request ran at this context, which is at most that of the rung `n` of a genuine measurement. That rung, at `j` in the
      trace, loaded a probe made from the very model of the request and was found to fit, on the same daemon. Straight before
      the request the runner `p` was the only resident, with the walls `s` holding every applicable margin. */
  ghost predicate RestsOn(attempt: Attempt, x: Measurement, n: nat, j: nat, context: int, p: Process, s: MemorySnapshot) {
    var rungs := RampSchedule.Rungs(x.c.max);
    var last := |attempt.before|;
    && Genuine(x) && n < |x.obs| <= |rungs| && context <= rungs[n]
    && (attempt.requested.Some? ==> context == attempt.requested.value)
    && FitsAt(x.obs[n], rungs[n]) && LoadedFrom(x, j, attempt.m, rungs[n], x.obs[n])
    && attempt.m.name == x.c.m.name && ArtifactOf(attempt.m) == ArtifactOf(x.c.m) == Some(x.c.job.baseArtifact)
    && RuntimeFingerprint(attempt.a) == RuntimeFingerprint(x.c.a)
    && attempt.a.endpoint.url == x.c.a.endpoint.url && attempt.a.serverInstance == x.c.a.serverInstance
    && DictOf(attempt.a.configuredInputs) == DictOf(x.c.a.configuredInputs)
    && last >= 2 && attempt.before[last - 2] == SawProcesses(Some([p])) && attempt.before[last - 1] == SawSnapshot(s)
    && GovernedRunner(p, attempt.m, x) && p.effectiveContext == Some(context)
    && ClassifyPlacement(s, p) == ClassifyPlacement(x.obs[n].after, x.obs[n].process)
    && KeepsMargins(s, CharacterizationPoint(x.obs[n].before, x.obs[n].after, x.obs[n].process, rungs[n]).cell, 0, 0)
  }

  /** The central promise. Every governed request in every history ran at a context no larger than a rung of an earlier,
      genuine characterization of the same model under the same manifest, for the same daemon endpoint, server instance,
      configured inputs and runtime build; that rung created its probe from this very manifest, loaded it, read it in full
      as the only resident, and was found to fit. Straight before the request's body exactly one runner was resident, the
      governed model or the recorded probe, at the request's context and in the placement that was measured, with every
      applicable margin intact. */
  lemma EveryGovernedRunWasProbed(start: State, t: seq<Step>, attempt: Attempt)
    returns (i: nat, n: nat, j: nat, context: int, p: Process, s: MemorySnapshot)
    requires Possible(start, t) && MayRun(Rows(StateAfter(start, t)).Values, attempt)
    ensures i < |t| && t[i].Characterized? && RestsOn(attempt, t[i].x, n, j, context, p, s)
  {
    hide RowOf, Genuine, Refusal, Admitted, Probed, FitsAt, CharacterizationPoint, ClassifyPlacement, WallEvidenceComplete,
         Possible, Assess, RuntimeFingerprint, DictOf, Records, RampSchedule.Rungs, KeepsMargins, Rows, StateAfter, TargetsNow,
         IsGovernedRunner, GovernedRunner, LoadedFrom;
    var row := Assess(attempt.listed, attempt.m, attempt.a).reusable.value;
    AssessedRowIsListed(attempt.listed, attempt.m, attempt.a);
    NoFaultMeans(row, attempt.m, attempt.a);
    ReusableRowsHaveOrigins(start, t, row);
    i :| 0 <= i < |t| && t[i].Characterized? && Records(row, t[i].x);
    n := RecordedRung(row, t[i].x);
    var g := GovernedBy(attempt, row);
    context := g.context;
    var point: Cell :| WallEvidenceComplete(row.config.value.cell, point);
    var models;
    p, s, models := AdmittedKeepsMargins(attempt.hash, g, attempt.before, point);
    TargetIsGoverned(attempt.hash, g, models, p);
    RunnerIsGoverned(p, attempt.m, t[i].x);
    j := ProbedIsLoaded(t[i].x, attempt.m, RampSchedule.Rungs(t[i].x.c.max)[n], t[i].x.obs[n]);
  }

  lemma TargetIsGoverned(hash: NameHash, g: Governed, models: Option<seq<Model>>, p: Process)
    requires IsTarget(p, TargetsNow(hash, g, models), Some(g.context)) && g.model.digest == Some(g.digest)
    ensures IsGovernedRunner(p, g.model, g.config.probe) && p.effectiveContext == Some(g.context)
  {
    hide IsDerived, ProbeName, FindModel;
  }

  /** The rung behind a recorded row. */
  lemma RecordedRung(row: Row, x: Measurement) returns (n: nat)
    requires Records(row, x) && row.safeContext.Some? && row.config.Some?
    ensures Genuine(x)
    ensures var rungs := RampSchedule.Rungs(x.c.max);
            && n < |x.obs| <= |rungs| && row.safeContext == Some(rungs[n]) && FitsAt(x.obs[n], rungs[n])
            && Probed(x.trace, x.c.job, x.c.a, rungs[n], x.obs[n])
            && row.config.value.cell == CharacterizationPoint(x.obs[n].before, x.obs[n].after, x.obs[n].process, rungs[n]).cell
            && row.config.value.cell.placement == ClassifyPlacement(x.obs[n].after, x.obs[n].process)
            && row.config.value.probe == x.probe && row.logicalModel == x.c.m.name == x.c.job.baseModel
            && row.artifact == x.c.job.baseArtifact && ArtifactOf(x.c.m) == Some(x.c.job.baseArtifact)
            && Some(row.fingerprint) == RuntimeFingerprint(x.c.a)
            && row.config.value.endpointAuthority == x.c.a.endpoint.url && row.config.value.serverInstance == x.c.a.serverInstance
            && row.config.value.configuredInputs == Some(DictOf(x.c.a.configuredInputs))
  {
    hide CharacterizationPoint, RuntimeFingerprint, Probed, PreflightAdmission, BestOf, PointsOf, BestPoint, DictOf, Genuine, Explained;
    GenuineMeans(x);
    var rungs := RampSchedule.Rungs(x.c.max);
    RampSchedule.RungsShape(RampSchedule.FLOOR, x.c.max);
    n := Agreement.BestObservationIsBest(rungs, x.c.subject, x.obs);
    var safe, point := Agreement.CeilingPoint(rungs, x.c.subject, x.obs);
    MeasuredIsProbed(x.trace, x.c.job, x.c.a, rungs, x.obs, n);
  }

  /** Every request step of a history passed its checks on the store of that moment, so the promise covers it. */
  lemma {:induction false} RequestsPassedTheirChecks(start: State, t: seq<Step>, k: nat)
    requires Possible(start, t) && k < |t| && t[k].Ran?
    ensures Possible(start, t[..k]) && MayRun(Rows(StateAfter(start, t[..k])).Values, t[k].attempt)
  {
    hide MayRun, StateAfter;
    var front := t[..|t| - 1];
    if k < |t| - 1 {
      RequestsPassedTheirChecks(start, front, k);
      assert front[..k] == t[..k];
    }
  }
}
