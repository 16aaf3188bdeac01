/** Row shapes of the store from version 4 to 8, and how each migration turns one row into the next shape. */
module Schema {
  import opened Wrappers
  import opened Evidence
  import opened Characterization
  import opened MachineKey
  import opened Tables
  import Engines

  const CALIBRATION_CONFIG_KEY := "cal:v1:default"

  // ---------- calibrations ----------

  datatype CalibrationData = CalibrationData(
    fixedOverhead: Option<real>, wall: Option<real>, safeBudget: Option<real>, calibratedAt: Option<string>)

  /** The tables before version 5 declare their engine `NOT NULL`. */
  datatype Cal4 = Cal4(machineKey: string, engine: string, data: CalibrationData)

  datatype Cal5 = Cal5(
    machineKey: string, runtime: string, backend: string, configKey: string, legacyEngine: Option<string>, data: CalibrationData)

  const UNSCOPED_AUTHORITY := "authority:v1:unscoped"
  const LEGACY_UNIT_UNKNOWN_AUTHORITY := "authority:v1:legacy-unit-unknown"

  datatype Cal6 = Cal6(base: Cal5, authority: string)

  datatype Cal8 = Cal8(base: Cal6, fingerprint: EngineFingerprint)

  // ---------- characterizations ----------

  datatype Char4 = Char4(
    machineKey: string, engine: string, model: string, artifact: Option<ArtifactId>, safeContext: Option<int>,
    config: Option<Config>, points: Option<seq<Point>>, measuredAt: Option<string>)

  datatype Char5 = Char5(
    machineKey: string, runtime: string, backend: string, artifact: ArtifactId, configKey: string, model: string,
    legacyEngine: Option<string>, safeContext: Option<int>, config: Option<Config>, points: Option<seq<Point>>,
    confidence: Confidence, reusable: bool, measuredAt: Option<string>)

  datatype Char6 = Char6(base: Char5, authority: string)

  // ---------- benchmark results ----------

  datatype Bench3 = Bench3(machineKey: string, model: string, useCase: string, engineKey: Option<string>, measuredAt: string, payload: string)

  datatype Bench4 = Bench4(base: Bench3, evidenceKey: string)

  // ---------- primary keys ----------

  function Cal4Key(r: Cal4): (string, string) { (r.machineKey, r.engine) }

  function Cal5Key(r: Cal5): (string, string, string, string) { (r.machineKey, r.runtime, r.backend, r.configKey) }

  function Cal6Key(r: Cal6): ((string, string, string, string), string) { (Cal5Key(r.base), r.authority) }

  function Cal8Key(r: Cal8): (((string, string, string, string), string), EngineFingerprint) { (Cal6Key(r.base), r.fingerprint) }

  function Char4Key(r: Char4): (string, string, string) { (r.machineKey, r.engine, r.model) }

  function Char5Key(r: Char5): (string, string, string, ArtifactId, string) {
    (r.machineKey, r.runtime, r.backend, r.artifact, r.configKey)
  }

  function Char6Key(r: Char6): ((string, string, string, ArtifactId, string), string) { (Char5Key(r.base), r.authority) }

  function Bench3Key(r: Bench3): (string, string, string) { (r.machineKey, r.model, r.useCase) }

  function Bench4Key(r: Bench4): ((string, string, string), string) { (Bench3Key(r.base), r.evidenceKey) }

  // ---------- version 2: machine keys ----------

  function Cal4Machines(): Rule<(string, string), Cal4> {
    Rule(Cal4Key,
         (k: (string, string)) => if RekeyLegacyKey(k.0).Some? then Some((RekeyLegacyKey(k.0).value, k.1)) else None,
         (r: Cal4, k: (string, string)) => r.(machineKey := k.0, engine := k.1),
         (r: Cal4) => r.data.calibratedAt.GetOr(""))
  }

  function Char4Machines(): Rule<(string, string, string), Char4> {
    Rule(Char4Key,
         (k: (string, string, string)) =>
           if RekeyLegacyKey(k.0).Some? then Some((RekeyLegacyKey(k.0).value, k.1, k.2)) else None,
         (r: Char4, k: (string, string, string)) => r.(machineKey := k.0, engine := k.1, model := k.2),
         (r: Char4) => r.measuredAt.GetOr(""))
  }

  function Bench3Machines(): Rule<(string, string, string), Bench3> {
    Rule(Bench3Key,
         (k: (string, string, string)) =>
           if RekeyLegacyKey(k.0).Some? then Some((RekeyLegacyKey(k.0).value, k.1, k.2)) else None,
         (r: Bench3, k: (string, string, string)) => r.(machineKey := k.0, model := k.1, useCase := k.2),
         (r: Bench3) => r.measuredAt)
  }

  // ---------- version 3: engine names ----------

  function Cal4Engines(): Rule<(string, string), Cal4> {
    Cal4Machines().(
      rekey := (k: (string, string)) =>
        if Engines.CanonicalName(k.1) != k.1 then Some((k.0, Engines.CanonicalName(k.1))) else None)
  }

  function Char4Engines(): Rule<(string, string, string), Char4> {
    Char4Machines().(
      rekey := (k: (string, string, string)) =>
        if Engines.CanonicalName(k.1) != k.1 then Some((k.0, Engines.CanonicalName(k.1), k.2)) else None)
  }

  lemma MachineRulesAreLawful()
    ensures Cal4Machines().Lawful() && Char4Machines().Lawful() && Bench3Machines().Lawful()
  {
    hide RekeyLegacyKey;
    forall key: string | RekeyLegacyKey(key).Some? ensures RekeyLegacyKey(RekeyLegacyKey(key).value).None? {
      RekeyIsIdempotent(key);
    }
  }

  lemma EngineRulesAreLawful()
    ensures Cal4Engines().Lawful() && Char4Engines().Lawful()
  {
    hide Engines.CanonicalName;
    forall e: string ensures Engines.CanonicalName(Engines.CanonicalName(e)) == Engines.CanonicalName(e) {
      Engines.CanonicalIsIdempotent(e);
    }
  }

  // ---------- version 5: exact runtime targets ----------

  function Cal4To5(r: Cal4): Cal5 {
    var (runtime, backend) := Engines.ForEngine(Some(r.engine));
    Cal5(r.machineKey, runtime, backend, CALIBRATION_CONFIG_KEY, Engines.CanonicalEngine(Some(r.engine)), r.data)
  }

  /** `_characterization_identity`; the configuration key is a function of engine and configuration. */
  function Char4To5(configKey: (string, Option<Config>) -> string, r: Char4): Char5 {
    var (runtime, backend) := Engines.ForEngine(Some(r.engine));
    var stored := if r.artifact.Some? then r.artifact.value else LegacyUnverified(r.model);
    var confidence := Classify(stored);
    Char5(r.machineKey, runtime,
          if runtime == "ollama" && r.config.Some? then OllamaBackend(r.config.value.cell.placement) else backend,
          stored, configKey(r.engine, r.config), r.model, Engines.CanonicalEngine(Some(r.engine)), r.safeContext, r.config, r.points,
          confidence, StrongConfidence(confidence) && r.config.Some?, r.measuredAt)
  }

  /** An engine text without a name of its own: empty, or the placeholder that such engines are given. */
  predicate Unnamed(engine: string) {
    Engines.Unnamed(Some(engine))
  }

  /** Calibrations whose canonical names differ can only collide when both engines have no name of their own. */
  lemma CalibrationsClashOnlyUnnamed(a: Cal4, b: Cal4)
    requires Cal4Key(a) != Cal4Key(b)
    requires Engines.CanonicalName(a.engine) == a.engine && Engines.CanonicalName(b.engine) == b.engine
    ensures Cal5Key(Cal4To5(a)) == Cal5Key(Cal4To5(b))
            <==> a.machineKey == b.machineKey && Unnamed(a.engine) && Unnamed(b.engine)
  {
    Engines.TargetsAreInjective(Some(a.engine), Some(b.engine));
  }

  /** Such a pair. */
  lemma UnnamedCalibrationsCollide(machineKey: string, data: CalibrationData, other: CalibrationData)
    ensures var a, b := Cal4(machineKey, "", data), Cal4(machineKey, "unknown", other);
            Cal4Key(a) != Cal4Key(b) && Cal5Key(Cal4To5(a)) == Cal5Key(Cal4To5(b))
  {
    var a, b := Cal4(machineKey, "", data), Cal4(machineKey, "unknown", other);
    assert |a.engine| == 0 && |b.engine| == 7;
    Engines.TargetsAreInjective(Some(""), Some("unknown"));
  }

  /** Characterizations without an artifact identity collide in the same way only. */
  lemma UnidentifiedClashOnlyUnnamed(configKey: (string, Option<Config>) -> string, a: Char4, b: Char4)
    requires Char4Key(a) != Char4Key(b) && a.artifact.None? && b.artifact.None?
    requires Engines.CanonicalName(a.engine) == a.engine && Engines.CanonicalName(b.engine) == b.engine
    ensures Char5Key(Char4To5(configKey, a)) == Char5Key(Char4To5(configKey, b))
            <==> a.machineKey == b.machineKey && a.model == b.model && Unnamed(a.engine) && Unnamed(b.engine)
                 && configKey(a.engine, a.config) == configKey(b.engine, b.config)
  {
    Engines.TargetsAreInjective(Some(a.engine), Some(b.engine));
    Engines.OllamaRuntimeIsOllama(Some(a.engine));
    Engines.OllamaRuntimeIsOllama(Some(b.engine));
    Engines.UnnamedTarget(Some(a.engine));
    Engines.UnnamedTarget(Some(b.engine));
  }

  /** Two models measured from one artifact under one engine and configuration share a target: version 5 refuses them. */
  lemma SharedArtifactCollides(configKey: (string, Option<Config>) -> string, a: Char4, other: string)
    requires a.artifact.Some? && other != a.model
    ensures var b := a.(model := other);
            Char4Key(a) != Char4Key(b) && Char5Key(Char4To5(configKey, a)) == Char5Key(Char4To5(configKey, b))
  {
  }

  // ---------- version 6: measurement authority ----------

  predicate IsMlx(runtime: string, legacyEngine: Option<string>) {
    runtime == "mlx" || Engines.CanonicalEngine(legacyEngine) == Some("mlx")
  }

  function AuthorityOf(runtime: string, legacyEngine: Option<string>): string {
    if IsMlx(runtime, legacyEngine) then LEGACY_UNIT_UNKNOWN_AUTHORITY else UNSCOPED_AUTHORITY
  }

  function Cal5To8(r: Cal5): Cal8 {
    Cal8(Cal6(r, AuthorityOf(r.runtime, r.legacyEngine)), LegacyEngine)
  }

  function Char5To6(r: Char5): Char6 {
    var mlx := IsMlx(r.runtime, r.legacyEngine);
    Char6(if mlx then r.(reusable := false) else r, AuthorityOf(r.runtime, r.legacyEngine))
  }

  // ---------- version 7: direct contexts and methodology ----------

  /** The greatest valid context among the stored points. */
  function LegacyDirect(points: Option<seq<Point>>): Option<int> {
    if points.None? then None else GreatestContext(points.value)
  }

  function GreatestContext(points: seq<Point>): (best: Option<int>)
    ensures best.None? <==> forall p :: p in points ==> !(p.context.Int? && p.context.n > 0)
    ensures best.Some? ==> best.value > 0 && exists p :: p in points && p.context == Int(best.value)
    ensures best.Some? ==> forall p :: p in points && p.context.Int? ==> p.context.n <= best.value
  {
    if points == [] then None
    else
      var p, rest := points[|points| - 1], GreatestContext(points[..|points| - 1]);
      if p.context.Int? && p.context.n > 0 && (rest.None? || rest.value < p.context.n) then Some(p.context.n) else rest
  }

  /** Every row becomes display-only under an unknown method. */
  function Char6To7(fingerprintOf: Char6 -> EngineFingerprint, r: Char6): Row {
    var b := r.base;
    var direct := LegacyDirect(b.points);
    var fitted := if direct.None? || b.safeContext != direct then b.safeContext else None;
    Row(b.machineKey, b.runtime, b.backend, b.artifact, b.configKey, b.model, b.legacyEngine, direct, fitted, b.config, b.points,
        b.confidence, false, b.measuredAt, r.authority, LegacyMethodology, fingerprintOf(r))
  }

  /** The context that can be read back from the two stored columns. */
  function RecoveredContext(r: Row): Option<int> {
    if r.fittedContext.Some? then r.fittedContext else r.safeContext
  }

  /** Version 7 keeps the old safe context readable except when there was none although the points had one. */
  lemma ContextSurvivesExactly(fingerprintOf: Char6 -> EngineFingerprint, r: Char6)
    ensures RecoveredContext(Char6To7(fingerprintOf, r)) == r.base.safeContext
            <==> !(r.base.safeContext.None? && LegacyDirect(r.base.points).Some?)
  {
  }

  /** Two different old rows that version 7 makes the same. */
  lemma ContextLost(fingerprintOf: Char6 -> EngineFingerprint, r: Char6)
    requires LegacyDirect(r.base.points).Some? && r.base.safeContext.None?
    requires var other := r.(base := r.base.(safeContext := LegacyDirect(r.base.points)));
             fingerprintOf(other) == fingerprintOf(r)
    ensures var other := r.(base := r.base.(safeContext := LegacyDirect(r.base.points)));
            other != r && Char6To7(fingerprintOf, other) == Char6To7(fingerprintOf, r)
  {
  }

  // ---------- version 8: engine builds of calibrations ----------

  function Cal6To8(r: Cal6): Cal8 {
    Cal8(r, LegacyEngine)
  }
}
