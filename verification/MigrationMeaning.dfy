/** What each migration leaves of every old row, column by column. */
module MigrationMeaning {
  import opened Wrappers
  import opened Evidence
  import opened Characterization
  import opened Schema
  import opened Tables
  import opened Migrations
  import Engines
  import MachineKey
  import Store

  /** Version 1 deletes exactly the calibrations of the engine with decimal walls. */
  lemma FirstStepDropsDecimalWalls(d: Derivations, c: Content, n: Content)
    requires Step(d, 1, c, n)
    ensures n.chr == c.chr && n.bench == c.bench && n.cal.CalV4? == c.cal.CalV4? && (!c.cal.CalV4? ==> n.cal == c.cal)
    ensures c.cal.CalV4? ==>
              && (forall i :: i in n.cal.v4 <==> i in c.cal.v4 && c.cal.v4[i].engine != "wmx")
              && (forall i :: i in n.cal.v4 ==> n.cal.v4[i] == c.cal.v4[i])
  {
  }

  /** A machine key as version 2 leaves it: rewritten if it was of the old form. */
  predicate KeyAfter(before: string, after: string) {
    after == before || MachineKey.RekeyLegacyKey(before) == Some(after)
  }

  /** Version 2 leaves old rows, each at most under the rewritten form of its own machine key. */
  lemma SecondStepRewritesKeys(d: Derivations, c: Content, n: Content)
    requires Step(d, 2, c, n)
    ensures c.cal.CalV4? ==> n.cal.CalV4? && forall i :: i in n.cal.v4 ==>
              exists o :: o in c.cal.v4 && KeyAfter(c.cal.v4[o].machineKey, n.cal.v4[i].machineKey)
                          && n.cal.v4[i].engine == c.cal.v4[o].engine && n.cal.v4[i].data == c.cal.v4[o].data
    ensures c.chr.CharV4? ==> n.chr.CharV4? && forall i :: i in n.chr.v4 ==>
              exists o :: o in c.chr.v4 && KeyAfter(c.chr.v4[o].machineKey, n.chr.v4[i].machineKey)
                          && n.chr.v4[i] == c.chr.v4[o].(machineKey := n.chr.v4[i].machineKey)
    ensures c.bench.BenchV3? ==> n.bench.BenchV3? && forall i :: i in n.bench.v3 ==>
              exists o :: o in c.bench.v3 && KeyAfter(c.bench.v3[o].machineKey, n.bench.v3[i].machineKey)
                          && n.bench.v3[i] == c.bench.v3[o].(machineKey := n.bench.v3[i].machineKey)
  {
    hide MachineKey.RekeyLegacyKey;
    if c.cal.CalV4? {
      forall i | i in n.cal.v4
        ensures exists o :: o in c.cal.v4 && KeyAfter(c.cal.v4[o].machineKey, n.cal.v4[i].machineKey)
                            && n.cal.v4[i].engine == c.cal.v4[o].engine && n.cal.v4[i].data == c.cal.v4[o].data
      {
        var o := MergedFrom(Cal4Machines(), c.cal.v4, n.cal.v4, i);
      }
    }
    if c.chr.CharV4? {
      forall i | i in n.chr.v4
        ensures exists o :: o in c.chr.v4 && KeyAfter(c.chr.v4[o].machineKey, n.chr.v4[i].machineKey)
                            && n.chr.v4[i] == c.chr.v4[o].(machineKey := n.chr.v4[i].machineKey)
      {
        var o := MergedFrom(Char4Machines(), c.chr.v4, n.chr.v4, i);
      }
    }
    if c.bench.BenchV3? {
      forall i | i in n.bench.v3
        ensures exists o :: o in c.bench.v3 && KeyAfter(c.bench.v3[o].machineKey, n.bench.v3[i].machineKey)
                            && n.bench.v3[i] == c.bench.v3[o].(machineKey := n.bench.v3[i].machineKey)
      {
        var o := MergedFrom(Bench3Machines(), c.bench.v3, n.bench.v3, i);
      }
    }
  }

  /** Every row after a merge is an old row under its own new key. */
  lemma MergedFrom<K(!new), R(!new)>(rule: Rule<K, R>, before: map<nat, R>, after: map<nat, R>, i: nat) returns (o: nat)
    requires rule.Merged(before, after) && i in after
    ensures o in before && (after[i] == before[o] || (after[i] == rule.withKey(before[o], rule.NewKey(before[o]))
                                                      && rule.NewKey(before[o]) == rule.keyOf(after[i])))
  {
    var k := rule.keyOf(after[i]);
    assert rule.Survives(before, k, i, after[i]);
    if rule.Stale(before, k) {
      o :| rule.IsNewest(before, k, o) && after[i] == rule.withKey(before[o], k);
    } else {
      o := i;
    }
  }

  /** Version 3 leaves old rows, each at most under the canonical name of its own engine; benchmark results keep their rows. */
  lemma ThirdStepNamesEngines(d: Derivations, c: Content, n: Content)
    requires Step(d, 3, c, n)
    ensures c.cal.CalV4? ==> n.cal.CalV4? && forall i :: i in n.cal.v4 ==>
              exists o :: o in c.cal.v4 && n.cal.v4[i].engine in {c.cal.v4[o].engine, Engines.CanonicalName(c.cal.v4[o].engine)}
                          && n.cal.v4[i].machineKey == c.cal.v4[o].machineKey && n.cal.v4[i].data == c.cal.v4[o].data
    ensures c.chr.CharV4? ==> n.chr.CharV4? && forall i :: i in n.chr.v4 ==>
              exists o :: o in c.chr.v4 && n.chr.v4[i].engine in {c.chr.v4[o].engine, Engines.CanonicalName(c.chr.v4[o].engine)}
                          && n.chr.v4[i] == c.chr.v4[o].(engine := n.chr.v4[i].engine)
    ensures c.bench.BenchV3? ==> n.bench.BenchV3? && n.bench.v3.Keys == c.bench.v3.Keys && forall i :: i in n.bench.v3 ==>
              var (o, r) := (c.bench.v3[i], n.bench.v3[i]);
              && r == o.(engineKey := r.engineKey)
              && r.engineKey == (if o.engineKey.None? then None else Some(Engines.CanonicalName(o.engineKey.value)))
  {
    hide Engines.CanonicalName;
    if c.cal.CalV4? {
      forall i | i in n.cal.v4
        ensures exists o :: o in c.cal.v4 && n.cal.v4[i].engine in {c.cal.v4[o].engine, Engines.CanonicalName(c.cal.v4[o].engine)}
                            && n.cal.v4[i].machineKey == c.cal.v4[o].machineKey && n.cal.v4[i].data == c.cal.v4[o].data
      {
        var o := MergedFrom(Cal4Engines(), c.cal.v4, n.cal.v4, i);
      }
    }
    if c.chr.CharV4? {
      forall i | i in n.chr.v4
        ensures exists o :: o in c.chr.v4 && n.chr.v4[i].engine in {c.chr.v4[o].engine, Engines.CanonicalName(c.chr.v4[o].engine)}
                            && n.chr.v4[i] == c.chr.v4[o].(engine := n.chr.v4[i].engine)
      {
        var o := MergedFrom(Char4Engines(), c.chr.v4, n.chr.v4, i);
      }
    }
  }

  /** Version 4 keeps every benchmark result whole and adds its evidence key. */
  lemma FourthStepAddsEvidenceKeys(d: Derivations, c: Content, n: Content)
    requires Step(d, 4, c, n)
    ensures n.cal == c.cal && n.chr == c.chr
    ensures if c.bench.BenchV3?
            then n.bench.BenchV4? && n.bench.v4.Keys == c.bench.v3.Keys
                 && forall i :: i in n.bench.v4 ==> n.bench.v4[i].base == c.bench.v3[i] && n.bench.v4[i].evidenceKey == d.evidenceKey(c.bench.v3[i])
            else n.bench == c.bench
  {
  }

  /** A calibration under the target that its engine names. */
  predicate CalTargeted(o: Cal4, r: Cal5) {
    && r.machineKey == o.machineKey && r.data == o.data && (r.runtime, r.backend) == Engines.ForEngine(Some(o.engine))
    && r.configKey == "cal:v1:default" && r.legacyEngine == Some(Engines.CanonicalName(o.engine))
  }

  /** A characterization under the target that its engine, and on Ollama its placement, name. */
  predicate CharTargeted(d: Derivations, o: Char4, r: Char5) {
    && r.machineKey == o.machineKey && r.model == o.model && r.safeContext == o.safeContext && r.config == o.config
    && r.points == o.points && r.measuredAt == o.measuredAt && r.legacyEngine == Some(Engines.CanonicalName(o.engine))
    && r.runtime == Engines.ForEngine(Some(o.engine)).0 && r.configKey == d.configKey(o.engine, o.config)
    && r.artifact == o.artifact.GetOr(LegacyUnverified(o.model))
    && (StrongConfidence(r.confidence) <==> Store.StrongArtifact(r.artifact))
    && r.reusable == (Store.StrongArtifact(r.artifact) && o.config.Some?)
    && (if r.runtime == "ollama" && o.config.Some? then PlacedBackend(o.config.value.cell.placement, r.backend)
        else r.backend == Engines.ForEngine(Some(o.engine)).1)
  }

  predicate PlacedBackend(placement: Placement, backend: string) {
    match placement
    case Cpu => backend == "cpu"
    case Unified => backend == "apple"
    case Accelerator => backend == "cuda"
    case PartialOffload => backend == "cuda"
    case UnknownPlacement => backend == "unknown"
    case OtherPlacement(_) => backend == "unknown"
  }

  lemma TargetsAreNamed(d: Derivations, o: Char4)
    ensures CharTargeted(d, o, Char4To5(d.configKey, o))
  {
    hide Engines.CanonicalName, Classify, Store.StrongArtifact;
    Store.StrongExactly(o.artifact.GetOr(LegacyUnverified(o.model)));
    OllamaWithoutPlacement();
  }

  lemma OllamaWithoutPlacement()
    ensures Engines.ForEngine(Some("ollama")) == ("ollama", "unknown")
  {
  }

  /** Version 5 keeps machine, measurements and model of every row, names its target by its engine, and makes a characterization
      reusable exactly when its artifact identity is strong and it has a configuration. */
  lemma FifthStepNamesTargets(d: Derivations, c: Content, n: Content)
    requires Step(d, 5, c, n)
    ensures n.bench == c.bench
    ensures c.cal.CalV4? ==> n.cal.CalV5? && n.cal.v5.Keys == c.cal.v4.Keys
                             && forall i :: i in n.cal.v5 ==> CalTargeted(c.cal.v4[i], n.cal.v5[i])
    ensures c.chr.CharV4? ==> n.chr.CharV5? && n.chr.v5.Keys == c.chr.v4.Keys
                              && forall i :: i in n.chr.v5 ==> CharTargeted(d, c.chr.v4[i], n.chr.v5[i])
  {
    hide Engines.ForEngine, Engines.CanonicalName, Char4To5, CharTargeted;
    forall o: Char4 ensures CharTargeted(d, o, Char4To5(d.configKey, o)) {
      TargetsAreNamed(d, o);
    }
  }

  /** What a measurement of unknown units is marked with. */
  function ScopeOf(runtime: string, legacyEngine: Option<string>): string {
    if Mlx(runtime, legacyEngine) then "authority:v1:legacy-unit-unknown" else "authority:v1:unscoped"
  }

  /** Version 6 keeps every row whole, apart from withdrawing MLX characterizations, whose units are not known; its authority
      says so. */
  lemma SixthStepScopesAuthority(d: Derivations, c: Content, n: Content)
    requires Step(d, 6, c, n)
    ensures n.bench == c.bench
    ensures c.cal.CalV5? ==> n.cal.CalV8? && n.cal.v8.Keys == c.cal.v5.Keys && forall i :: i in n.cal.v8 ==>
              var (o, r) := (c.cal.v5[i], n.cal.v8[i]);
              r.base.base == o && r.fingerprint == LegacyEngine && r.base.authority == ScopeOf(o.runtime, o.legacyEngine)
    ensures c.chr.CharV5? ==> n.chr.CharV6? && n.chr.v6.Keys == c.chr.v5.Keys && forall i :: i in n.chr.v6 ==>
              var (o, r) := (c.chr.v5[i], n.chr.v6[i]);
              r.base == o.(reusable := o.reusable && !Mlx(o.runtime, o.legacyEngine)) && r.authority == ScopeOf(o.runtime, o.legacyEngine)
  {
    hide IsMlx, Mlx;
    forall runtime: string, engine: Option<string> ensures IsMlx(runtime, engine) <==> Mlx(runtime, engine) {
      MlxByName(runtime, engine);
    }
  }

  lemma MlxByName(runtime: string, engine: Option<string>)
    ensures IsMlx(runtime, engine) <==> Mlx(runtime, engine)
  {
    hide Engines.CanonicalName;
    if engine.Some? { Engines.CanonicalNames(engine.value); }
    Engines.TargetTexts();
  }

  predicate Mlx(runtime: string, legacyEngine: Option<string>) {
    runtime == "mlx" || (legacyEngine.Some? && legacyEngine.value in {"mlx", "wmx", "wmx-suite"})
  }

  /** Version 7 keeps every column but the contexts, and makes every characterization display-only under an unknown method. */
  lemma SeventhStepWithdraws(d: Derivations, c: Content, n: Content)
    requires Step(d, 7, c, n)
    ensures n.cal == c.cal && n.bench == c.bench
    ensures c.chr.CharV6? ==> n.chr.CharV7? && n.chr.v7.Keys == c.chr.v6.Keys && forall i :: i in n.chr.v7 ==>
              var (o, r) := (c.chr.v6[i].base, n.chr.v7[i]);
              && r.machineKey == o.machineKey && r.runtime == o.runtime && r.backend == o.backend && r.artifact == o.artifact
              && r.configKey == o.configKey && r.logicalModel == o.model && r.legacyEngine == o.legacyEngine && r.config == o.config
              && r.points == o.points && r.confidence == o.confidence && r.measuredAt == o.measuredAt
              && r.authorityKey == c.chr.v6[i].authority && r.fingerprint == d.fingerprint(c.chr.v6[i])
              && !r.reusable && r.methodologyKey == LegacyMethodology
              && r.safeContext == LegacyDirect(o.points)
              && r.fittedContext == (if r.safeContext.Some? && o.safeContext == r.safeContext then None else o.safeContext)
  {
    hide GreatestContext;
  }

  /** Version 8 keeps every calibration whole, under an unknown engine build. */
  lemma EighthStepKeepsCalibrations(d: Derivations, c: Content, n: Content)
    requires Step(d, 8, c, n)
    ensures n.chr == c.chr && n.bench == c.bench
    ensures c.cal.CalV6? ==> n.cal.CalV8? && n.cal.v8.Keys == c.cal.v6.Keys
                             && forall i :: i in n.cal.v8 ==> n.cal.v8[i].base == c.cal.v6[i] && n.cal.v8[i].fingerprint == LegacyEngine
  {
  }
}
