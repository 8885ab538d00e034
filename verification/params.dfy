/**
 * mode_params (vulnllm/inference/parameters.py): the sampling parameters a scan mode
 * selects for one inference call.
 */
module Params {
  import opened Config

  datatype GenerationParams = GenerationParams(temperature: real, topP: real, seed: int, maxTokens: int)

  function Max(a: int, b: int): int { if a < b then b else a }
  function MaxReal(a: real, b: real): real { if a < b then b else a }

  /**
   * Deterministic mode pins temperature 0 and top_p 1; max-recall raises max_tokens to at
   * least 2000 (deep) or 1400 (shallow) and temperature to at least 0.2; every other mode
   * passes the configured values through. The seed is always the configured one.
   */
  function ModeParams(cfg: Config, deep: bool): (r: GenerationParams)
    ensures r.seed == cfg.inference.seed
    ensures cfg.scan.mode == "deterministic" ==>
              r.temperature == 0.0 && r.topP == 1.0 && r.maxTokens == cfg.inference.maxTokens
    ensures cfg.scan.mode == "max-recall" ==>
              var floor := if deep then 2000 else 1400;
              r.topP == cfg.inference.topP &&
              r.maxTokens >= cfg.inference.maxTokens && r.maxTokens >= floor &&
              (r.maxTokens == cfg.inference.maxTokens || r.maxTokens == floor) &&
              r.temperature >= cfg.inference.temperature && r.temperature >= 0.2 &&
              (r.temperature == cfg.inference.temperature || r.temperature == 0.2)
    ensures cfg.scan.mode != "deterministic" && cfg.scan.mode != "max-recall" ==>
              r.temperature == cfg.inference.temperature && r.topP == cfg.inference.topP &&
              r.maxTokens == cfg.inference.maxTokens
  {
    if cfg.scan.mode == "deterministic" then
      GenerationParams(0.0, 1.0, cfg.inference.seed, cfg.inference.maxTokens)
    else if cfg.scan.mode == "max-recall" then
      var maxTokens := Max(cfg.inference.maxTokens, if deep then 2000 else 1400);
      GenerationParams(MaxReal(cfg.inference.temperature, 0.2), cfg.inference.topP, cfg.inference.seed, maxTokens)
    else
      GenerationParams(cfg.inference.temperature, cfg.inference.topP, cfg.inference.seed, cfg.inference.maxTokens)
  }

  /** `deep` changes nothing but max_tokens, and changes even that only in max-recall mode, never lowering it. */
  lemma DeepOnlyRaisesMaxTokens(cfg: Config)
    ensures var shallow := ModeParams(cfg, false);
            var deep := ModeParams(cfg, true);
            deep.(maxTokens := shallow.maxTokens) == shallow && deep.maxTokens >= shallow.maxTokens
    ensures cfg.scan.mode != "max-recall" ==> ModeParams(cfg, true) == ModeParams(cfg, false)
  {
  }

  /** After resolution deterministic scans sample with temperature 0 whatever was configured. */
  lemma ResolvedDeterministicSampling(cfg: Config, deep: bool)
    requires Resolve(cfg).Ok? && cfg.scan.mode == "deterministic"
    ensures ModeParams(Resolve(cfg).value, deep) ==
              GenerationParams(0.0, 1.0, cfg.inference.seed, cfg.inference.maxTokens)
  {
  }
}
