/** Canonical engine names and the runtime and backend each one stands for. */
module Engines {
  import opened Wrappers

  const ALIASES: map<string, string> :=
    map["wmx" := "mlx", "wcx" := "cuda", "wmx-suite" := "mlx", "wcx-suite" := "cuda"]

  const TARGETS: map<string, (string, string)> :=
    map["mlx" := ("mlx", "apple"), "cuda" := ("torch", "cuda"), "cpu" := ("llamacpp", "cpu"),
        "vulkan" := ("llamacpp", "vulkan"), "cuda-gguf" := ("llamacpp", "cuda"), "ollama" := ("ollama", "unknown")]

  function CanonicalName(name: string): string {
    if name in ALIASES then ALIASES[name] else name
  }

  function CanonicalEngine(engine: Option<string>): Option<string> {
    if engine.None? then None else Some(CanonicalName(engine.value))
  }

  /** Runtime and backend of an engine; unknown engines keep their own name as the runtime. */
  function ForEngine(engine: Option<string>): (string, string) {
    var canonical := CanonicalEngine(engine);
    if canonical.Some? && canonical.value in TARGETS then TARGETS[canonical.value]
    else (if canonical.None? || canonical.value == "" then "unknown" else canonical.value, "unknown")
  }

  /** Engines that have no name of their own to give to a target. */
  predicate Unnamed(engine: Option<string>) {
    engine.None? || engine.value == "" || engine.value == "unknown"
  }

  lemma CanonicalIsIdempotent(name: string)
    ensures CanonicalName(CanonicalName(name)) == CanonicalName(name)
    ensures CanonicalName(name) !in ALIASES
    ensures CanonicalName(name) == "" <==> name == ""
  {
    assert "mlx"[0] == 'm' && "cuda"[0] == 'c';
    assert "wmx"[0] == 'w' && "wcx"[0] == 'w' && "wmx-suite"[0] == 'w' && "wcx-suite"[0] == 'w';
    assert |"wmx"| == 3 && |"wcx"| == 3 && |"wmx-suite"| == 9 && |"wcx-suite"| == 9 && |""| == 0;
  }

  /** Two engines share a runtime and backend exactly when they are the same canonical engine, or both unnamed. */
  lemma TargetsAreInjective(a: Option<string>, b: Option<string>)
    ensures ForEngine(a) == ForEngine(b) <==>
            CanonicalEngine(a) == CanonicalEngine(b) || (Unnamed(a) && Unnamed(b))
  {
    if a.Some? { CanonicalIsIdempotent(a.value); KnownTarget(CanonicalName(a.value)); }
    if b.Some? { CanonicalIsIdempotent(b.value); KnownTarget(CanonicalName(b.value)); }
    UnnamedTarget(a);
    UnnamedTarget(b);
    if a.Some? && b.Some? {
      var (x, y) := (CanonicalName(a.value), CanonicalName(b.value));
      if x in TARGETS && y in TARGETS && x != y {
        DistinctTargets(x, y);
      }
    }
  }

  /** A known engine never has the target that an unknown engine would be given. */
  lemma KnownTarget(name: string)
    ensures name in TARGETS ==> TARGETS[name].1 != "unknown" || name == "ollama" == TARGETS[name].0
  {
    assert "unknown"[0] == 'u' && "apple"[0] == 'a' && "cuda"[0] == 'c' && "cpu"[0] == 'c' && "vulkan"[0] == 'v';
  }

  lemma DistinctTargets(x: string, y: string)
    requires x in TARGETS && y in TARGETS && x != y
    ensures TARGETS[x] != TARGETS[y]
  {
    assert "mlx"[0] == 'm' && "torch"[0] == 't' && "llamacpp"[0] == 'l' && "ollama"[0] == 'o';
    assert "cpu"[1] == 'p' && "cuda"[1] == 'u' && "vulkan"[0] == 'v' && "cuda"[0] == 'c' && "cpu"[0] == 'c';
  }

  lemma UnnamedTarget(engine: Option<string>)
    ensures Unnamed(engine) ==> ForEngine(engine) == ("unknown", "unknown")
    ensures Unnamed(engine) <==> Unnamed(CanonicalEngine(engine))
  {
    assert "mlx"[0] == 'm' && "cuda"[0] == 'c' && "unknown"[0] == 'u' && |""| == 0 && |"unknown"| == 7;
    assert "wmx"[0] == 'w' && "wcx"[0] == 'w' && "wmx-suite"[0] == 'w' && "wcx-suite"[0] == 'w';
    assert "cpu"[0] == 'c' && "vulkan"[0] == 'v' && "cuda-gguf"[0] == 'c' && "ollama"[0] == 'o';
  }

  /** Only the engine `ollama` runs on the Ollama runtime. */
  lemma OllamaRuntimeIsOllama(engine: Option<string>)
    ensures ForEngine(engine).0 == "ollama" <==> CanonicalEngine(engine) == Some("ollama")
  {
    assert "mlx"[0] == 'm' && "torch"[0] == 't' && "llamacpp"[0] == 'l' && "unknown"[0] == 'u' && "ollama"[0] == 'o';
  }

  /** The canonical name, for every engine text: two engines have older names, and every other one is its own. */
  lemma CanonicalNames(engine: string)
    ensures CanonicalName(engine) == if engine == "wmx" || engine == "wmx-suite" then "mlx"
                                     else if engine == "wcx" || engine == "wcx-suite" then "cuda" else engine
  {
  }

  /** Backends, for every engine text: each known backend belongs to exactly these engines. */
  lemma BackendsBelong(engine: string)
    ensures var (runtime, backend) := ForEngine(Some(engine));
            && (backend == "apple" <==> engine in {"mlx", "wmx", "wmx-suite"})
            && (backend == "cuda" <==> engine in {"cuda", "wcx", "wcx-suite", "cuda-gguf"})
            && (backend == "cpu" <==> engine == "cpu") && (backend == "vulkan" <==> engine == "vulkan")
            && backend in {"apple", "cuda", "cpu", "vulkan", "unknown"}
  {
    CanonicalNames(engine);
    TargetTexts();
  }

  /** Runtimes, for every engine text: the known engines run on four, and any other engine is its own runtime. */
  lemma RuntimesBelong(engine: string)
    ensures ForEngine(Some(engine)).0
            == if engine in {"mlx", "wmx", "wmx-suite"} then "mlx"
               else if engine in {"cuda", "wcx", "wcx-suite"} then "torch"
               else if engine in {"cpu", "vulkan", "cuda-gguf"} then "llamacpp"
               else if engine == "" then "unknown" else engine
  {
    CanonicalNames(engine);
    TargetTexts();
  }

  lemma TargetTexts()
    ensures "apple" != "cuda" && "apple" != "cpu" && "apple" != "vulkan" && "apple" != "unknown"
    ensures "cuda" != "cpu" && "cuda" != "vulkan" && "cuda" != "unknown" && "cpu" != "vulkan" && "cpu" != "unknown" && "vulkan" != "unknown"
    ensures "mlx" != "" && "cuda" != "" && "mlx" != "cuda" && "cuda-gguf" != "cuda" && "cuda-gguf" != "mlx"
  {
    assert "apple"[0] == 'a' && "cuda"[0] == 'c' && "cpu"[0] == 'c' && "vulkan"[0] == 'v' && "unknown"[0] == 'u' && "mlx"[0] == 'm';
    assert "cuda"[1] == 'u' && "cpu"[1] == 'p' && |"cuda-gguf"| == 9;
  }
}
