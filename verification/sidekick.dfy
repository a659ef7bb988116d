/** The request-building helpers of `SideKickCommon` (`core/language_models/model.py`). */
module SideKick {
  import opened Wrappers

  /** The `NameError` raised when the prompt markers are not loaded. */
  datatype StopError = PromptsNotLoaded

  /** A non-empty prompt marker (`HUMAN_PROMPT`, `AI_PROMPT`). */
  predicate Loaded(prompt: Option<string>) {
    prompt.Some? && prompt.value != ""
  }

  /** `_get_anthropic_stop(stop)`: the stop list with `HUMAN_PROMPT` appended, so that the
      model never invents a new human turn. `None` stands for an empty list. */
  function GetAnthropicStop(humanPrompt: Option<string>, aiPrompt: Option<string>,
                            stop: Option<seq<string>>): (r: Result<seq<string>, StopError>)
    ensures r.Failure? <==> !Loaded(humanPrompt) || !Loaded(aiPrompt)
    ensures r.Success? ==>
              && |r.value| == |stop.GetOr([])| + 1
              && r.value[..|r.value| - 1] == stop.GetOr([])
              && r.value[|r.value| - 1] == humanPrompt.value
  {
    if !Loaded(humanPrompt) || !Loaded(aiPrompt) then Failure(PromptsNotLoaded)
    else Success(stop.GetOr([]) + [humanPrompt.value])
  }

  /** No deduplication: the human marker gains exactly one occurrence, whatever was there. */
  lemma StopAddsOneMarker(humanPrompt: Option<string>, aiPrompt: Option<string>, stop: Option<seq<string>>)
    requires Loaded(humanPrompt) && Loaded(aiPrompt)
    ensures var r := GetAnthropicStop(humanPrompt, aiPrompt, stop);
            && r.Success?
            && multiset(r.value) == multiset(stop.GetOr([])) + multiset{humanPrompt.value}
            && multiset(r.value)[humanPrompt.value] == multiset(stop.GetOr([]))[humanPrompt.value] + 1
  {
    var r := GetAnthropicStop(humanPrompt, aiPrompt, stop);
    assert r.value == stop.GetOr([]) + [humanPrompt.value];
  }

  /** The opaque numeric values passed through to the request. */
  datatype Float = Float(repr: string)

  /** A request parameter value. */
  datatype Param = IntParam(i: int) | StrParam(s: string) | FloatParam(f: Float)

  /** The fields of `SideKickCommon` that `_default_params` reads, plus `model_kwargs`. */
  datatype Settings = Settings(
    model: string,
    maxTokensToSample: int,
    temperature: Option<Float>,
    topK: Option<int>,
    topP: Option<Float>,
    modelKwargs: map<string, Param>)

  /** The field defaults: model "sidekick", 256 tokens, everything else unset. */
  const DefaultSettings := Settings("sidekick", 256, None, None, None, map[])

  /** `_default_params`: the two mandatory keys, plus each optional one that is set. */
  function DefaultParams(s: Settings): (d: map<string, Param>)
    ensures d.Keys == {"max_tokens_to_sample", "model"}
                      + (if s.temperature.Some? then {"temperature"} else {})
                      + (if s.topK.Some? then {"top_k"} else {})
                      + (if s.topP.Some? then {"top_p"} else {})
    ensures d["max_tokens_to_sample"] == IntParam(s.maxTokensToSample) && d["model"] == StrParam(s.model)
    ensures s.temperature.Some? ==> d["temperature"] == FloatParam(s.temperature.value)
    ensures s.topK.Some? ==> d["top_k"] == IntParam(s.topK.value)
    ensures s.topP.Some? ==> d["top_p"] == FloatParam(s.topP.value)
  {
    var d0 := map["max_tokens_to_sample" := IntParam(s.maxTokensToSample), "model" := StrParam(s.model)];
    var d1 := if s.temperature.Some? then d0["temperature" := FloatParam(s.temperature.value)] else d0;
    var d2 := if s.topK.Some? then d1["top_k" := IntParam(s.topK.value)] else d1;
    if s.topP.Some? then d2["top_p" := FloatParam(s.topP.value)] else d2
  }

  /** `model_kwargs` never reaches the default parameters. */
  lemma ModelKwargsNotMerged(s: Settings, kwargs: map<string, Param>)
    ensures DefaultParams(s.(modelKwargs := kwargs)) == DefaultParams(s)
  {
  }

  /** With every field at its default, exactly the model name and the token limit are sent. */
  lemma DefaultsGiveTwoKeys()
    ensures DefaultParams(DefaultSettings)
         == map["max_tokens_to_sample" := IntParam(256), "model" := StrParam("sidekick")]
  {
  }
}
