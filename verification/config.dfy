/**
 * The typed configuration (the dataclasses of vulnllm/config.py) and the last step of
 * resolve_config: pin the sampling parameters in deterministic mode, reject invalid
 * settings with a ValueError, and normalise the output formats.
 */
module Config {
  import opened Wrappers
  import opened ConfigMerge

  datatype ScanConfig = ScanConfig(mode: string, languages: seq<string>, multiPass: bool, maxFindings: int)

  datatype FilesConfig = FilesConfig(includeGlobs: seq<string>, excludeGlobs: seq<string>, followSymlinks: bool,
                                     maxFileBytes: int)

  datatype ChunkingConfig = ChunkingConfig(strategy: string, chunkTokens: int, overlap: int)

  datatype ProjectConfig = ProjectConfig(index: string)

  datatype PromptConfig = PromptConfig(profile: string, focus: seq<string>, promptFile: Option<string>)

  datatype InferenceConfig = InferenceConfig(
    model: Option<string>, context: int, threads: Option<int>, batch: Option<int>,
    temperature: real, topP: real, seed: int, metal: bool, gpuLayers: int, quant: string, maxTokens: int)

  datatype MultiPassConfig = MultiPassConfig(pass1Budget: string, pass2Target: string, pass2Topk: int)

  datatype OutputConfig = OutputConfig(formats: seq<string>, outDir: string, outPrefix: string, overwrite: bool,
                                       includeReasoning: bool)

  datatype LoggingConfig = LoggingConfig(
    progress: bool, quiet: bool, verbose: bool, logFile: Option<string>, logPrompts: bool,
    logModelOutputs: bool, promptOutputMd: Option<string>)

  datatype Config = Config(
    path: string, configPath: Option<string>, output: Option<string>, dryRun: bool, llmInferenceTest: bool,
    scan: ScanConfig, files: FilesConfig, chunking: ChunkingConfig, project: ProjectConfig,
    prompt: PromptConfig, inference: InferenceConfig, multipass: MultiPassConfig,
    outputCfg: OutputConfig, logging: LoggingConfig)

  const DefaultExcludes: seq<string> :=
    [".git/**", "build/**", "dist/**", "out/**", "node_modules/**", "third_party/**", "vendor/**"]

  /** Every field at its dataclass default. */
  const Defaults: Config := Config(
    ".", None, None, false, false,
    ScanConfig("balanced", ["c"], false, 0),
    FilesConfig([], DefaultExcludes, false, 2000000),
    ChunkingConfig("function", 1400, 200),
    ProjectConfig("basic"),
    PromptConfig("embedded-c", [], None),
    InferenceConfig(None, 8192, None, None, 0.1, 0.95, 0, true, 0, "q4_k_m", 1400),
    MultiPassConfig("fast", "flagged", 50),
    OutputConfig(["json"], "./vulnllm_reports", "scan", false, true),
    LoggingConfig(true, false, false, None, false, false, None))

  const Modes: set<string> := {"max-recall", "balanced", "deterministic"}

  const Formats: set<string> := {"json", "csv", "md"}

  const NegativeMaxFindings: string := "scan.max_findings must be >= 0"
  const MissingModel: string := "Missing required config: inference.model (set --model or TOML [inference].model)"
  const UnknownMode: string := "scan.mode must be max-recall|balanced|deterministic"

  /** Deterministic mode: temperature 0.0, and a top_p that is not positive becomes 1.0. */
  function Pinned(cfg: Config): (r: Config)
  {
    if cfg.scan.mode == "deterministic" then
      var topP := if cfg.inference.topP <= 0.0 then 1.0 else cfg.inference.topP;
      cfg.(inference := cfg.inference.(temperature := 0.0, topP := topP))
    else cfg
  }

  /** `not cfg.inference.model`: no model, or the empty name. */
  predicate NoModel(cfg: Config)
  {
    cfg.inference.model.None? || cfg.inference.model.value == ""
  }

  /** A format the loop accepts: "markdown" or one of json, csv, md. */
  predicate Supported(fmt: string)
  {
    fmt == "markdown" || fmt in Formats
  }

  /** The first format the loop rejects, if any. */
  function FirstUnsupported(formats: seq<string>): (r: Option<string>)
    ensures r.None? <==> forall i :: 0 <= i < |formats| ==> Supported(formats[i])
    ensures r.Some? ==> r.value in formats && !Supported(r.value)
  {
    if formats == [] then None
    else if !Supported(formats[0]) then Some(formats[0])
    else
      var rest := FirstUnsupported(formats[1..]);
      assert forall i :: 1 <= i < |formats| ==> formats[i] == formats[1..][i - 1];
      rest
  }

  /** The ValueError the checks raise, in the order resolve_config makes them; None when all pass. */
  function Check(cfg: Config): Option<ConfigError>
  {
    if cfg.scan.maxFindings < 0 then Some(ValueError(NegativeMaxFindings))
    else if NoModel(cfg) && !cfg.dryRun then Some(ValueError(MissingModel))
    else if cfg.scan.mode !in Modes then Some(ValueError(UnknownMode))
    else
      var bad := FirstUnsupported(cfg.outputCfg.formats);
      if bad.Some? then Some(ValueError("Unsupported output format: " + bad.value)) else None
  }

  /** `["md" if f == "markdown" else f for f in formats]` */
  function NormalizeFormats(formats: seq<string>): (r: seq<string>)
    ensures |r| == |formats|
    ensures forall i :: 0 <= i < |formats| ==> r[i] == if formats[i] == "markdown" then "md" else formats[i]
  {
    if formats == [] then [] else [if formats[0] == "markdown" then "md" else formats[0]] + NormalizeFormats(formats[1..])
  }

  /** What the tail of resolve_config returns for the configuration built from the merged dict. */
  function Resolve(cfg: Config): Result<Config, ConfigError>
  {
    var c := Pinned(cfg);
    var err := Check(c);
    if err.Some? then Err(err.value)
    else Ok(c.(outputCfg := c.outputCfg.(formats := NormalizeFormats(c.outputCfg.formats))))
  }

  /** The tail of resolve_config, step by step: field writes, the four checks, the format loop. */
  method ResolveTail(cfg0: Config) returns (r: Result<Config, ConfigError>)
    ensures r == Resolve(cfg0)
  {
    var cfg := cfg0;
    if cfg.scan.mode == "deterministic" {
      cfg := cfg.(inference := cfg.inference.(temperature := 0.0));
      if cfg.inference.topP <= 0.0 {
        cfg := cfg.(inference := cfg.inference.(topP := 1.0));
      }
    }
    assert cfg == Pinned(cfg0);
    if cfg.scan.maxFindings != 0 && cfg.scan.maxFindings < 0 {
      return Err(ValueError(NegativeMaxFindings));
    }
    if NoModel(cfg) && !cfg.dryRun {
      return Err(ValueError(MissingModel));
    }
    if cfg.scan.mode !in Modes {
      return Err(ValueError(UnknownMode));
    }
    var formats := cfg.outputCfg.formats;
    for i := 0 to |formats|
      invariant forall j :: 0 <= j < i ==> Supported(formats[j])
    {
      var fmt := formats[i];
      if fmt == "markdown" {
        continue;
      }
      if fmt !in Formats {
        assert FirstUnsupported(formats) == Some(fmt) by {
          FirstUnsupportedAt(formats, i);
        }
        return Err(ValueError("Unsupported output format: " + fmt));
      }
    }
    cfg := cfg.(outputCfg := cfg.outputCfg.(formats := NormalizeFormats(formats)));
    return Ok(cfg);
  }

  /** The first rejected format is the one at the first index that fails. */
  lemma {:induction false} FirstUnsupportedAt(formats: seq<string>, i: nat)
    requires i < |formats| && !Supported(formats[i])
    requires forall j :: 0 <= j < i ==> Supported(formats[j])
    ensures FirstUnsupported(formats) == Some(formats[i])
  {
    if i > 0 {
      FirstUnsupportedAt(formats[1..], i - 1);
    }
  }

  /** Resolution fails exactly when one of the four rules is broken. */
  lemma ResolveFailsIff(cfg: Config)
    ensures Resolve(cfg).Err? <==>
              cfg.scan.maxFindings < 0 || (NoModel(cfg) && !cfg.dryRun) || cfg.scan.mode !in Modes ||
              exists i :: 0 <= i < |cfg.outputCfg.formats| && !Supported(cfg.outputCfg.formats[i])
    ensures Resolve(cfg).Err? ==> Resolve(cfg).error.ValueError?
  {
  }

  /** The checks come in source order: the first broken rule names the error. */
  lemma ResolveErrorOrder(cfg: Config)
    ensures cfg.scan.maxFindings < 0 ==> Resolve(cfg) == Err(ValueError(NegativeMaxFindings))
    ensures cfg.scan.maxFindings >= 0 && NoModel(cfg) && !cfg.dryRun ==> Resolve(cfg) == Err(ValueError(MissingModel))
    ensures cfg.scan.maxFindings >= 0 && !(NoModel(cfg) && !cfg.dryRun) && cfg.scan.mode !in Modes ==>
              Resolve(cfg) == Err(ValueError(UnknownMode))
    ensures cfg.scan.maxFindings >= 0 && !(NoModel(cfg) && !cfg.dryRun) && cfg.scan.mode in Modes ==>
              forall i :: 0 <= i < |cfg.outputCfg.formats| && !Supported(cfg.outputCfg.formats[i]) &&
                          (forall j :: 0 <= j < i ==> Supported(cfg.outputCfg.formats[j])) ==>
                          Resolve(cfg) == Err(ValueError("Unsupported output format: " + cfg.outputCfg.formats[i]))
  {
    forall i | 0 <= i < |cfg.outputCfg.formats| && !Supported(cfg.outputCfg.formats[i]) &&
               (forall j :: 0 <= j < i ==> Supported(cfg.outputCfg.formats[j])) {
      FirstUnsupportedAt(cfg.outputCfg.formats, i);
    }
  }

  /** After resolution every format is json, csv or md, "markdown" became "md", and the order is kept. */
  lemma ResolvedFormats(cfg: Config)
    requires Resolve(cfg).Ok?
    ensures var fs := Resolve(cfg).value.outputCfg.formats;
            var given := cfg.outputCfg.formats;
            |fs| == |given| &&
            (forall i :: 0 <= i < |fs| ==> fs[i] in Formats) &&
            (forall i :: 0 <= i < |fs| ==> fs[i] == if given[i] == "markdown" then "md" else given[i])
  {
  }

  /** Deterministic mode pins temperature to 0.0 and leaves a positive top_p, 1.0 in place of a non-positive one. */
  lemma ResolvedDeterministic(cfg: Config)
    requires Resolve(cfg).Ok? && cfg.scan.mode == "deterministic"
    ensures var inf := Resolve(cfg).value.inference;
            inf.temperature == 0.0 && inf.topP > 0.0 &&
            inf.topP == (if cfg.inference.topP <= 0.0 then 1.0 else cfg.inference.topP)
  {
  }

  /** Outside deterministic mode resolution changes nothing but the format names. */
  lemma ResolvedOtherModes(cfg: Config)
    requires Resolve(cfg).Ok? && cfg.scan.mode != "deterministic"
    ensures Resolve(cfg).value == cfg.(outputCfg := cfg.outputCfg.(formats := NormalizeFormats(cfg.outputCfg.formats)))
  {
  }

  /** Resolving a resolved configuration changes nothing more. */
  lemma ResolveIdempotent(cfg: Config)
    requires Resolve(cfg).Ok?
    ensures Resolve(Resolve(cfg).value) == Resolve(cfg)
  {
    var c := Resolve(cfg).value;
    var fs := c.outputCfg.formats;
    assert forall i :: 0 <= i < |fs| ==> Supported(fs[i]) && fs[i] != "markdown";
    assert NormalizeFormats(fs) == fs;
  }

  /** The defaults pass once a model is named (or in a dry run), and come back as they were. */
  lemma DefaultsResolve(model: string)
    requires model != ""
    ensures var cfg := Defaults.(inference := Defaults.inference.(model := Some(model)));
            Resolve(cfg) == Ok(cfg)
    ensures Resolve(Defaults.(dryRun := true)) == Ok(Defaults.(dryRun := true))
    ensures Resolve(Defaults) == Err(ValueError(MissingModel))
  {
    assert NormalizeFormats(["json"]) == ["json"];
  }
}
