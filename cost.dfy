/**
  The cost of a run: `calculateTranscriptCost` (minutes of audio times a
  per-minute price) and `calculateGPTCost` (thousands of prompt and
  completion tokens times their prices), with the input checks that
  throw before any price is read.

  Prices and costs are exact reals. The Polish variants (Kamil,
  Nagraniaa, Nagraniepraw) read prices from the `MODEL_INFO` table of a
  helper file that is not part of this model, so its lookups are
  parameters here; Notion-Voice-Notes has its own `rates` table.
*/
module Cost {
  import opened Wrappers
  import opened JsText

  /** What the trigger or the chat call handed in: `None` stands for a value
      that is missing or of the wrong type. */
  datatype Usage = Usage(promptTokens: int, completionTokens: int)

  /** `!usage || typeof usage !== "object" || !usage.prompt_tokens || !usage.completion_tokens` */
  predicate BadUsage(usage: Option<Usage>) {
    usage.None? || usage.value.promptTokens == 0 || usage.value.completionTokens == 0
  }

  /** `!model || typeof model !== "string"` */
  predicate BadModel(model: Option<string>) {
    model.None? || model.value == ""
  }

  /** `!duration || typeof duration !== "number"`: a duration of 0 counts as missing. */
  function KnownDuration(duration: Option<real>): Option<real> {
    if duration.Some? && duration.value != 0.0 then duration else None
  }

  /** A number as JavaScript computes it: `NaN` comes from multiplying by `undefined`. */
  datatype Number = Finite(value: real) | NaN

  /** A property path into a nested table: it throws when an object on the
      way is missing, and ends in `undefined` when only the last key is. */
  datatype Lookup<+T> = Throws | Undefined | Found(value: T)

  datatype Rates = Rates(prompt: real, completion: real)

  /**`MODEL_INFO[service][medium][model]` */
  type ChatPrices = (string, string, string) -> Lookup<Rates>

  /** `MODEL_INFO[service][medium][model][modelSize].completion` */
  type MinutePrices = (string, string, string, string) -> Lookup<real>

  // ------------------------------------------------------ the Polish variants

  const NoDuration := "Nie mo\U{017C}na okre\U{015B}li\U{0107} czasu trwania. Przerywam."
  const BadUsageMessage := "Nieprawid\U{0142}owy obiekt u\U{017C}ycia."
  const BadModelMessage := "Nieprawid\U{0142}owy model."
  const NoService := "Cannot read properties of undefined (reading 'toLowerCase')"

  /** `(service || "openai").toLowerCase()` */
  function TranscriptService(service: Option<string>): string {
    if service.None? || service.value == "" then "openai" else Lower(service.value)
  }

  /** `calculateTranscriptCost(duration, service, medium, model)`: the
      duration in seconds over 60 times the per-minute price, looked up
      under the "large" size for OpenAI and "default" otherwise. A lookup
      that throws is caught and costs 0. */
  function TranscriptCost(duration: Option<real>, service: Option<string>, medium: string, model: Option<string>,
                          failOnNoDuration: bool, prices: MinutePrices): (r: Result<Number>)
    ensures KnownDuration(duration).None? && failOnNoDuration ==> r == Err(NoDuration)
    ensures r.Err? <==> (KnownDuration(duration).None? && failOnNoDuration) || BadModel(model)
    ensures r.Ok? ==>
      var size := if TranscriptService(service) == "openai" then "large" else "default";
      match prices(TranscriptService(service), medium, model.value, size)
      case Throws => r.value == Finite(0.0)
      case Undefined => r.value == NaN
      case Found(rate) => r.value == Finite(KnownDuration(duration).GetOr(0.0) / 60.0 * rate)
  {
    var d := KnownDuration(duration);
    if d.None? && failOnNoDuration then Err(NoDuration)
    else if BadModel(model) then Err(BadModelMessage)
    else
      var s := TranscriptService(service);
      var size := if s == "openai" then "large" else "default";
      match prices(s, medium, model.value, size)
      case Throws => Ok(Finite(0.0))
      case Undefined => Ok(NaN)
      case Found(rate) => Ok(Finite(d.GetOr(0.0) / 60.0 * rate))
  }

  /** `calculateGPTCost(usage, service, medium, model, label)`: a model the
      table does not list, or a lookup that throws, costs 0. */
  function ChatCost(usage: Option<Usage>, service: Option<string>, medium: string, model: Option<string>,
                    prices: ChatPrices): (r: Result<real>)
    ensures BadUsage(usage) ==> r == Err(BadUsageMessage)
    ensures !BadUsage(usage) && BadModel(model) ==> r == Err(BadModelMessage)
    ensures r.Err? <==> BadUsage(usage) || BadModel(model) || service.None?
    ensures r.Ok? ==> (r.value == 0.0 <==>
      match prices(Lower(service.value), medium, Lower(model.value))
      case Found(rates) => Tokens(usage.value, rates) == 0.0
      case _ => true)
    ensures r.Ok? ==> (r.value ==
      match prices(Lower(service.value), medium, Lower(model.value))
      case Found(rates) => Tokens(usage.value, rates)
      case _ => 0.0)
  {
    if BadUsage(usage) then Err(BadUsageMessage)
    else if BadModel(model) then Err(BadModelMessage)
    else if service.None? then Err(NoService)
    else match prices(Lower(service.value), medium, Lower(model.value))
      case Found(rates) => Ok(Tokens(usage.value, rates))
      case _ => Ok(0.0)
  }

  /** `prompt_tokens / 1000 * prompt + completion_tokens / 1000 * completion` */
  function Tokens(u: Usage, rates: Rates): real {
    u.promptTokens as real / 1000.0 * rates.prompt + u.completionTokens as real / 1000.0 * rates.completion
  }

  /** The price of tokens adds up: two calls cost what one call with
      their summed usage costs. */
  lemma TokensAdd(u: Usage, v: Usage, rates: Rates)
    ensures Tokens(Usage(u.promptTokens + v.promptTokens, u.completionTokens + v.completionTokens), rates) ==
      Tokens(u, rates) + Tokens(v, rates)
  {
  }

  /** The transcription service is matched whatever case it is written in,
      and an unset or empty one is priced as OpenAI, at its "large" size. */
  lemma ServiceDefaultsToOpenAI(duration: Option<real>, service: Option<string>, medium: string, model: Option<string>,
                                failOnNoDuration: bool, prices: MinutePrices)
    ensures TranscriptCost(duration, service, medium, model, failOnNoDuration, prices) ==
      TranscriptCost(duration, Some(TranscriptService(service)), medium, model, failOnNoDuration, prices)
    ensures service.None? || service.value == "" ==>
      TranscriptCost(duration, service, medium, model, failOnNoDuration, prices) ==
      TranscriptCost(duration, Some("OpenAI"), medium, model, failOnNoDuration, prices)
  {
    var s := TranscriptService(service);
    if service.Some? && service.value != "" {
      LowerIdempotent(service.value);
    } else {
      OpenAIName();
    }
    assert TranscriptService(Some(s)) == s;
    SameServiceSameCost(duration, service, Some(s), medium, model, failOnNoDuration, prices);
    if service.None? || service.value == "" {
      OpenAIName();
      SameServiceSameCost(duration, service, Some("OpenAI"), medium, model, failOnNoDuration, prices);
    }
  }

  lemma OpenAIName()
    ensures TranscriptService(Some("OpenAI")) == "openai" && TranscriptService(Some("openai")) == "openai"
  {
    LowerOpenAI();
    LowerOpenai();
  }

  lemma LowerOpenai()
    ensures Lower("openai") == "openai"
  {
    assert Lower("i") == "i" + Lower([]);
    assert Lower("ai") == "a" + Lower("i");
    assert Lower("nai") == "n" + Lower("ai");
    assert Lower("enai") == "e" + Lower("nai");
    assert Lower("penai") == "p" + Lower("enai");
    assert Lower("openai") == "o" + Lower("penai");
  }

  lemma LowerOpenAI()
    ensures Lower("OpenAI") == "openai"
  {
    assert Lower("I") == "i" + Lower([]);
    assert Lower("AI") == "a" + Lower("I");
    assert Lower("nAI") == "n" + Lower("AI");
    assert Lower("enAI") == "e" + Lower("nAI");
    assert Lower("penAI") == "p" + Lower("enAI");
    assert Lower("OpenAI") == "o" + Lower("penAI");
  }

  lemma SameServiceSameCost(duration: Option<real>, service: Option<string>, other: Option<string>, medium: string,
                            model: Option<string>, failOnNoDuration: bool, prices: MinutePrices)
    requires TranscriptService(service) == TranscriptService(other)
    ensures TranscriptCost(duration, service, medium, model, failOnNoDuration, prices) ==
      TranscriptCost(duration, other, medium, model, failOnNoDuration, prices)
  {
    var a := TranscriptCost(duration, service, medium, model, failOnNoDuration, prices);
    var b := TranscriptCost(duration, other, medium, model, failOnNoDuration, prices);
    if !(KnownDuration(duration).None? && failOnNoDuration) && !BadModel(model) {
      assert a.Ok? && b.Ok?;
      assert a.value == b.value;
    }
  }

  // ------------------------------------------------------ Notion-Voice-Notes

  /** An entry of `rates`; the transcription models have no prompt price. */
  datatype Rate = Rate(prompt: Option<real>, completion: real)

  const VoiceNotesRates: map<string, Rate> := map[
    "gpt-3.5-turbo" := Rate(Some(0.001), 0.002),
    "gpt-3.5-turbo-16k" := Rate(Some(0.003), 0.004),
    "gpt-4" := Rate(Some(0.03), 0.06),
    "gpt-4-32k" := Rate(Some(0.06), 0.12),
    "gpt-4-1106-preview" := Rate(Some(0.01), 0.03),
    "gpt-3.5-turbo-1106" := Rate(Some(0.001), 0.002),
    "whisper" := Rate(None, 0.006),
    "nova-2" := Rate(None, 0.0043)
  ]

  /** The chat models `calculateGPTCost` can price, in the order it tests them. */
  const ChatModels := ["gpt-4-32k", "gpt-4-1106-preview", "gpt-3.5-turbo-1106", "gpt-4", "gpt-3.5-turbo-16k", "gpt-3.5-turbo"]

  /** The ternary chain that names the price of a model: the first of
      these substrings the model contains decides. */
  function ChatModel(model: string): (r: string)
    ensures r in ChatModels
    ensures Contains(model, "gpt-4-32") ==> r == "gpt-4-32k"
    ensures r == "gpt-3.5-turbo" <==>
      !Contains(model, "gpt-4-32") && !Contains(model, "gpt-4-1106-preview") && !Contains(model, "gpt-3.5-turbo-1106") &&
      !Contains(model, "gpt-4") && !Contains(model, "gpt-3.5-turbo-16k")
  {
    if Contains(model, "gpt-4-32") then "gpt-4-32k"
    else if Contains(model, "gpt-4-1106-preview") then "gpt-4-1106-preview"
    else if Contains(model, "gpt-3.5-turbo-1106") then "gpt-3.5-turbo-1106"
    else if Contains(model, "gpt-4") then "gpt-4"
    else if Contains(model, "gpt-3.5-turbo-16k") then "gpt-3.5-turbo-16k"
    else "gpt-3.5-turbo"
  }

  /** Every name the chain gives has a prompt and a completion price, so
      the "Non-supported model" error after it is never thrown. */
  lemma ChatModelPriced(model: string)
    ensures ChatModel(model) in VoiceNotesRates && VoiceNotesRates[ChatModel(model)].prompt.Some?
  {
  }

  const VoiceNotesBadUsage := "Invalid usage object (thrown from calculateGPTCost)."
  const VoiceNotesBadModel := "Invalid model string (thrown from calculateGPTCost)."
  const VoiceNotesBadTranscriptModel := "Invalid model string (thrown from calculateTranscriptCost)."
  const VoiceNotesNoDuration := "Duration of the audio file could not be determined. " +
    "Fail On No Duration flag is set to true; workflow is ending."
  const NoRate := "Cannot read properties of undefined (reading 'completion')"

  /** `calculateGPTCost(usage, model, label)` of Notion-Voice-Notes. */
  function VoiceNotesChatCost(usage: Option<Usage>, model: Option<string>): (r: Result<real>)
    ensures r.Err? <==> BadUsage(usage) || BadModel(model)
    ensures BadUsage(usage) ==> r == Err(VoiceNotesBadUsage)
    ensures r.Ok? ==> r.value == Tokens(usage.value, Rates(VoiceNotesRates[ChatModel(model.value)].prompt.value,
                                                        VoiceNotesRates[ChatModel(model.value)].completion))
  {
    if BadUsage(usage) then Err(VoiceNotesBadUsage)
    else if BadModel(model) then Err(VoiceNotesBadModel)
    else
      var m := ChatModel(model.value);
      ChatModelPriced(model.value);
      var rate := VoiceNotesRates[m];
      Ok(usage.value.promptTokens as real / 1000.0 * rate.prompt.value +
         usage.value.completionTokens as real / 1000.0 * rate.completion)
  }

  /** `calculateTranscriptCost(duration, model)` of Notion-Voice-Notes: the
      model is looked up as given, and one missing from `rates` throws. */
  function VoiceNotesTranscriptCost(duration: Option<real>, model: Option<string>, failOnNoDuration: bool): (r: Result<real>)
    ensures r.Err? <==> ((KnownDuration(duration).None? && failOnNoDuration) || BadModel(model) ||
      model.value !in VoiceNotesRates)
    ensures r.Ok? ==> r.value == KnownDuration(duration).GetOr(0.0) / 60.0 * VoiceNotesRates[model.value].completion
  {
    var d := KnownDuration(duration);
    if d.None? && failOnNoDuration then Err(VoiceNotesNoDuration)
    else if BadModel(model) then Err(VoiceNotesBadTranscriptModel)
    else if model.value !in VoiceNotesRates then Err(NoRate)
    else Ok(d.GetOr(0.0) / 60.0 * VoiceNotesRates[model.value].completion)
  }

  /** Audio is priced by the minute at its model's rate in the table: a
      minute costs the listed price, the costs of two durations add up, and
      an unknown duration costs nothing unless the run is set to stop on it. */
  lemma VoiceNotesMinutePrices(model: string, a: real, b: real, failOnNoDuration: bool)
    requires model in VoiceNotesRates
    ensures VoiceNotesTranscriptCost(Some(60.0), Some(model), failOnNoDuration) == Ok(VoiceNotesRates[model].completion)
    ensures a != 0.0 && b != 0.0 && a + b != 0.0 ==>
      VoiceNotesTranscriptCost(Some(a + b), Some(model), failOnNoDuration).value ==
      VoiceNotesTranscriptCost(Some(a), Some(model), failOnNoDuration).value +
      VoiceNotesTranscriptCost(Some(b), Some(model), failOnNoDuration).value
    ensures VoiceNotesTranscriptCost(None, Some(model), false) == Ok(0.0)
    ensures VoiceNotesTranscriptCost(None, Some(model), true) == Err(VoiceNotesNoDuration)
  {
    assert model != "";
  }
}
