/** One whole history, step by step, that ends with a governed request: the central promise is not about nothing. */
module OneHistory {
  import opened Wrappers
  import opened Evidence
  import opened Characterization
  import opened Events
  import opened RampEvidence
  import opened ProbeLifecycle
  import opened ProbeRamp
  import opened Characterize
  import opened GovernedRequest
  import opened History
  import opened OneRun
  import Agreement
  import GovernedNames
  import Migrations
  import RampSchedule
  import Text

  // A machine without an accelerator, one small model, and its daemon.

  const DAEMON :=
    Authority(Endpoint(Some("http://127.0.0.1:11434"), Loopback), Some("0.9"), Some("first"), None, None, [], Some(1), Some("environment"), None)
  const BOX := Agreement.BEFORE_ANSWER
  const ON_PROCESSOR := Process("", None, Some(0x1_8000_0000), Some(0), Some(2048))

  /** The manifests of the model and of its probe, and the hash in the probe's name. */
  datatype Cast = Cast(digest: string, probeDigest: string, hash: NameHash)

  function Llama(x: Cast): Model {
    Model("llama", Some(x.digest), Some(0x1_0000_0000), Some("gguf"), ["completion"], LocalModel)
  }

  function Probe(x: Cast): Model {
    Llama(x).(name := GovernedNames.ProbeName(x.hash, "llama", OllamaManifest(x.digest), 2048), digest := Some(x.probeDigest))
  }

  function TheRun(x: Cast): Course {
    var probe := Probe(x);
    Course(Job(probe.name, "llama", OllamaManifest(x.digest), [2048], DAEMON.endpoint.url), DAEMON, 2048,
           Some([Llama(x)]), Some([Llama(x), probe]), x.probeDigest, BOX, BOX,
           ON_PROCESSOR.(name := probe.name, digest := Some(x.probeDigest)))
  }

  function TheCommand(x: Cast): Command {
    Command("machine", Llama(x), DAEMON, TheRun(x).job, 2048, Agreement.SMALL_MODEL, "2026-07-04", "config", "authority")
  }

  function Observations(x: Cast): seq<RungObservation> {
    [Measured(BOX, BOX, TheRun(x).runner)]
  }

  function Stored(x: Cast): Option<ProbeTarget> {
    Some(ProbeTarget(Probe(x).name, OllamaManifest(x.probeDigest), 2048))
  }

  function TheMeasurement(x: Cast, row: Row): Measurement {
    Measurement(TheCommand(x), map[], Observations(x), Stored(x), Trace(TheRun(x), row), Closing(TheRun(x), row))
  }

  ghost predicate IsTheRow(x: Cast, row: Row) {
    && Ready(TheCommand(x)) && |Observations(x)| <= |RampSchedule.Rungs(2048)|
    && row == RowFor(TheCommand(x), Observations(x), Stored(x))
  }

  /** Later the model is resident, on the processor alone, and the machine is as it was when it was measured. */
  function Now(x: Cast): Reading {
    Reading(DAEMON, Some([Llama(x)]), Some([ON_PROCESSOR.(name := "llama", digest := Some(x.digest))]), BOX)
  }

  function RequestFor(x: Cast, row: Row): Attempt {
    Attempt("machine", Llama(x), DAEMON, [row], None, x.hash, Now(x).Events())
  }

  // ---------- the characterization ----------

  lemma RunIsStraight(x: Cast)
    ensures Straight(TheRun(x)) && FindModel([Llama(x)], "llama") == Some(Llama(x))
  {
    hide FindModel, GovernedNames.Slug, Text.Digits;
    var probe := Probe(x);
    assert |probe.name| > 7 && probe.name[0] == 'a' && "llama"[0] == 'l';
    ListedApart(Llama(x), probe);
  }

  lemma FoundCeiling(x: Cast)
    ensures RampSchedule.Rungs(2048) == [2048] && BestOf([2048], Observations(x)) == Some(2048)
    ensures ClassifyPlacement(BOX, TheRun(x).runner) == Cpu && RampRun([2048], Agreement.SMALL_MODEL, Observations(x))
  {
    hide GovernedNames.ProbeName, PreflightAdmission;
    Agreement.LateAcceleratorFits("", "");
    assert FitsAt(Observations(x)[0], 2048);
  }

  lemma CommandIsReady(x: Cast)
    ensures Ready(TheCommand(x)) && |Observations(x)| <= |RampSchedule.Rungs(2048)|
  {
    hide GovernedNames.ProbeName, BestOf, RampRun;
    FoundCeiling(x);
  }

  lemma MeasurementIsGenuine(x: Cast, row: Row)
    requires IsTheRow(x, row)
    ensures Genuine(TheMeasurement(x, row)) && RowOf(TheMeasurement(x, row)) == row
  {
    hide GovernedNames.ProbeName, Run, RampRun, Probed, RowFor, Ready, InventoryId, OwnershipFor, BestOf, Trace, Closing, Straight, Observed;
    FoundCeiling(x);
    RunIsStraight(x);
    StraightRunIsAccepted(TheRun(x), map[], row);
    StraightRunIsObserved(TheRun(x), row);
    ClosingIsCommitted(x, row);
    assert LastTried([2048], Observations(x)) == Some(2048);
  }

  lemma ClosingIsCommitted(x: Cast, row: Row)
    ensures Committed(Recorded(row), Closing(TheRun(x), row), TheRun(x).job, DAEMON) && |Closing(TheRun(x), row)| == 3
  {
    hide FindModel, GovernedNames.ProbeName;
    RunIsStraight(x);
    assert Closing(TheRun(x), row)[1..] == [SawAuthority(DAEMON), Saved(row)];
  }

  // ---------- the request ----------

  lemma LlamaIsGoverned(x: Cast)
    ensures GovernedModel(Llama(x))
  {
    assert Text.Lower("gguf") == "gguf";
  }

  lemma RowIsSaved(x: Cast, row: Row)
    requires IsTheRow(x, row)
    ensures row.machineKey == "machine" && row.runtime == "ollama" && row.logicalModel == "llama"
    ensures row.safeContext == Some(2048) && row.config.Some?
  {
    hide CharacterizationConfig, PointsOf, BestOf, Classify, GovernedNames.ProbeName, RampRun;
    FoundCeiling(x);
  }

  lemma RowIsRecorded(x: Cast, row: Row)
    requires IsTheRow(x, row) && Genuine(TheMeasurement(x, row)) && row.safeContext.Some? && row.config.Some?
    ensures row.artifact == OllamaManifest(x.digest)
    ensures row.config.value.cell == CharacterizationPoint(BOX, BOX, TheRun(x).runner, 2048).cell
  {
    hide Genuine, RowFor, CharacterizationPoint, FitsAt, Probed, ClassifyPlacement, GovernedNames.ProbeName, BestOf, RampRun, Ready;
    FoundCeiling(x);
    assert Records(row, TheMeasurement(x, row));
    var n := RecordedRung(row, TheMeasurement(x, row));
  }

  lemma RowIsAccepted(x: Cast, row: Row)
    requires IsDigest(x.digest) && IsTheRow(x, row)
    ensures Refusal(row, Llama(x), DAEMON).None?
  {
    hide Refusal, IsDigest, BestOf, PointsOf, Agreement.RecordedRow, GovernedModel, RampRun, ClassifyPlacement, RankOf,
      GovernedNames.ProbeName;
    FoundCeiling(x);
    LlamaIsGoverned(x);
    Agreement.ProducedRowIsReusable(
      "machine", Llama(x), DAEMON, 2048, Agreement.SMALL_MODEL, Observations(x), Stored(x), "2026-07-04", "config", "authority");
  }

  lemma OnlyRowIsAssessed(row: Row, m: Model, a: Authority)
    requires ArtifactOf(m) == Some(row.artifact) && Refusal(row, m, a).None?
    ensures Assess([row], m, a).reusable == Some(row)
  {
    hide Refusal;
    assert OfArtifact([row], ArtifactOf(m)) == [row];
  }

  lemma RequestIsAdmitted(x: Cast, g: Governed)
    requires g.authority == DAEMON && g.model == Llama(x) && g.artifact == OllamaManifest(x.digest) && g.digest == x.digest
    requires g.context == 2048 && g.config.cell == CharacterizationPoint(BOX, BOX, TheRun(x).runner, 2048).cell
    ensures Admitted(x.hash, g, Now(x).Events())
  {
    hide GovernedNames.RecordedProbeTarget, FindModel, GovernedNames.ProbeName;
    RunIsStraight(x);
    assert Target("llama", Some(x.digest)) in TargetsNow(x.hash, g, Some([Llama(x)]));
    assert Now(x).Admissible(x.hash, g);
    assert Resident(x.hash, g, Now(x).Events(), Now(x));
  }

  lemma RequestMayRun(x: Cast, row: Row)
    requires IsDigest(x.digest) && IsTheRow(x, row) && Genuine(TheMeasurement(x, row))
    ensures MayRun({row}, RequestFor(x, row))
  {
    hide Refusal, Genuine, IsTheRow, Admitted, CharacterizationPoint, Assess, IsDigest, GovernedNames.ProbeName;
    RowIsSaved(x, row);
    RowIsRecorded(x, row);
    RowIsAccepted(x, row);
    OnlyRowIsAssessed(row, Llama(x), DAEMON);
    RequestIsAdmitted(x, GovernedBy(RequestFor(x, row), row));
  }

  // ---------- the history ----------

  const NEW_STORE := Migrations.Content(Migrations.CalV8(map[]), Migrations.CharV7(map[]), Migrations.BenchV4(map[]))

  lemma OneMoreStep(start: State, t: seq<History.Step>, step: History.Step)
    requires Possible(start, t) && Enabled(StateAfter(start, t), step)
    ensures Possible(start, t + [step]) && StateAfter(start, t + [step]) == Next(StateAfter(start, t), step)
  {
    hide Enabled, Next;
    assert (t + [step])[..|t + [step]| - 1] == t;
  }

  lemma NewStoreIsPossible()
    ensures Possible(History.State(0, NEW_STORE), []) && StateAfter(History.State(0, NEW_STORE), []) == History.State(0, NEW_STORE)
  {
  }

  lemma MigratesAsItIs(d: Migrations.Derivations, v: nat)
    requires v < Migrations.SCHEMA_VERSION
    ensures Enabled(History.State(v, NEW_STORE), Migrated(d, NEW_STORE))
  {
  }

  /** A new store goes through every migration as it is. */
  lemma {:induction false} NewStoreMigrates(d: Migrations.Derivations, v: nat) returns (t: seq<History.Step>)
    requires v <= Migrations.SCHEMA_VERSION
    ensures Possible(History.State(0, NEW_STORE), t) && StateAfter(History.State(0, NEW_STORE), t) == History.State(v, NEW_STORE)
  {
    hide Enabled, Possible, StateAfter;
    t := [];
    if v == 0 {
      NewStoreIsPossible();
    } else {
      t := NewStoreMigrates(d, v - 1);
      MigratesAsItIs(d, v - 1);
      OneMoreStep(History.State(0, NEW_STORE), t, Migrated(d, NEW_STORE));
      t := t + [Migrated(d, NEW_STORE)];
    }
  }

  lemma StepsAreEnabled(x: Measurement, row: Row, attempt: Attempt)
    requires Genuine(x) && row == RowOf(x) && MayRun({row}, attempt)
    ensures var s := History.State(8, NEW_STORE);
            Enabled(s, Characterized(x, row, 0)) && Enabled(WithRows(s, map[0 := row]), Ran(attempt))
  {
    hide Genuine, RowOf, MayRun;
    OneRow(row);
  }

  lemma OneRow(row: Row)
    ensures var rows: map<nat, Row> := map[0 := row]; rows.Values == {row}
  {
    var rows: map<nat, Row> := map[0 := row];
    assert rows[0] in rows.Values;
  }

  /** A new store goes through every migration; the model is characterized in a run that the probe monitor accepts to its last
      event; and a request governed by the recorded row runs. */
  lemma SomeRequestIsGoverned(x: Cast, d: Migrations.Derivations)
    returns (t: seq<History.Step>, row: Row)
    requires IsDigest(x.digest)
    ensures Possible(History.State(0, NEW_STORE), t + [Characterized(TheMeasurement(x, row), row, 0)] + [Ran(RequestFor(x, row))])
    ensures Genuine(TheMeasurement(x, row)) && MayRun({row}, RequestFor(x, row))
    ensures var end := Run(TheRun(x).job, map[], Trace(TheRun(x), row)); end.Watching? && end.saved && end.phase.Absent?
  {
    hide Genuine, RowOf, MayRun, Possible, StateAfter, IsDigest, Enabled, Run, Ready, RowFor, Straight, Trace, GovernedNames.ProbeName;
    CommandIsReady(x);
    row := RowFor(TheCommand(x), Observations(x), Stored(x));
    RunIsStraight(x);
    StraightRunIsAccepted(TheRun(x), map[], row);
    MeasurementIsGenuine(x, row);
    RequestMayRun(x, row);
    var start := History.State(0, NEW_STORE);
    t := NewStoreMigrates(d, 8);
    StepsAreEnabled(TheMeasurement(x, row), row, RequestFor(x, row));
    OneMoreStep(start, t, Characterized(TheMeasurement(x, row), row, 0));
    OneMoreStep(start, t + [Characterized(TheMeasurement(x, row), row, 0)], Ran(RequestFor(x, row)));
  }
}
