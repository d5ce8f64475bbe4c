/**
  The run-level settings of the summary step: how many tokens go into each
  transcript chunk, which chunks are sent to the chat model, and the usage
  that is priced once every chunk has been answered.
*/
module RunSettings {
  import opened Wrappers
  import opened JsText
  import Cost
  import TokenChunker

  /** The smallest summary density the settings admit, in every variant. */
  const MinDensity := 500

  /** The largest `gestosc_podsumowania` the Polish variants admit. */
  function DensityMax(service: string): nat {
    if service == "Anthropic" then 50000 else 5000
  }

  /** A density the setting admits; a missing one is allowed. */
  predicate ValidDensity(density: Option<int>, max: nat) {
    density.Some? ==> MinDensity <= density.value <= max
  }

  /** `gestosc_podsumowania || (usluga_ai === "Anthropic" ? 5000 : 2750)`: an
      admitted density is never 0, so the `||` only fills in a missing one.
      Either way the budget lies within what the setting admits and leaves
      the chunker its 100-token search window. */
  function MaxTokens(density: Option<int>, service: string): (m: nat)
    requires ValidDensity(density, DensityMax(service))
    ensures density.Some? ==> m == density.value
    ensures density.None? ==> m == (if service == "Anthropic" then 5000 else 2750)
    ensures TokenChunker.SearchBudget < MinDensity <= m <= DensityMax(service)
  {
    match density
    case Some(d) => d
    case None => if service == "Anthropic" then 5000 else 2750
  }

  // ------------------------------------------------------ Notion-Voice-Notes

  /** The models whose context the density default is chosen by. */
  const SummaryModels := ["gpt-4-32k", "gpt-4", "gpt-3.5-turbo-16k", "gpt-3.5-turbo"]

  /** The ternary chain naming the model the default density is picked for. */
  function SummaryModel(model: string): (r: string)
    ensures r in SummaryModels
    ensures r == "gpt-3.5-turbo" <==>
      (!Contains(model, "gpt-4-32") && !Contains(model, "gpt-4") && !Contains(model, "gpt-3.5-turbo-16k"))
  {
    if Contains(model, "gpt-4-32") then "gpt-4-32k"
    else if Contains(model, "gpt-4") then "gpt-4"
    else if Contains(model, "gpt-3.5-turbo-16k") then "gpt-3.5-turbo-16k"
    else "gpt-3.5-turbo"
  }

  /** The largest `summary_density` the setting admits for `chat_model`. */
  function VoiceNotesDensityMax(model: string): nat {
    if Contains(model, "gpt-4") || Contains(model, "gpt-3.5-turbo-16k") || Contains(model, "gpt-3.5-turbo-1106")
    then 5000 else 2750
  }

  /** A string holding `a + b` holds `a`. */
  lemma {:induction false} ContainsPrefix(s: string, a: string, b: string)
    requires Contains(s, a + b)
    ensures Contains(s, a)
    decreases |s|
  {
    if StartsWith(s, a + b) {
      assert s[..|a|] == (a + b)[..|a|] == a;
    } else {
      ContainsPrefix(s[1..], a, b);
    }
  }

  /** Each model the 5000-token default is picked for is one the setting
      admits 5000 tokens for. */
  lemma LargeModelsAdmitLargeDensity(model: string)
    ensures SummaryModel(model) != "gpt-3.5-turbo" ==> VoiceNotesDensityMax(model) == 5000
  {
    if Contains(model, "gpt-4-32") {
      assert "gpt-4-32" == "gpt-4" + "-32";
      ContainsPrefix(model, "gpt-4", "-32");
    }
  }

  /** `summary_density ? summary_density : (5000 or 2750 by the model)`: the
      small default is kept for the plain gpt-3.5-turbo context only, and
      the default never exceeds what the setting would admit. */
  function VoiceNotesMaxTokens(density: Option<int>, model: string): (m: nat)
    requires ValidDensity(density, VoiceNotesDensityMax(model))
    ensures density.Some? ==> m == density.value
    ensures density.None? ==> (m == 2750 || m == 5000) && (m == 2750 <==> SummaryModel(model) == "gpt-3.5-turbo")
    ensures TokenChunker.SearchBudget < MinDensity <= m <= VoiceNotesDensityMax(model)
  {
    match density
    case Some(d) => d
    case None =>
      LargeModelsAdmitLargeDensity(model);
      if SummaryModel(model) == "gpt-3.5-turbo" then 2750 else 5000
  }

  // --------------------------------------------------- which chunks are sent

  /** `opcje_podsumowania` / `summary_options` as the step reads it. */
  datatype Options = Unset | Null | Chosen(names: seq<string>)

  /** The step asks for the title only. */
  predicate TitleOnly(options: Options) {
    !options.Chosen? || options.names == []
  }

  const NoOptionsLength := "Cannot read properties of undefined (reading 'length')"

  /** What `sendToChat` is given: every chunk, or only the first when no
      summary option is chosen (`None` is `transcript_chunks[0]` of an
      empty transcript, `undefined`). Notion-Voice-Notes tests the options
      with `=== null`, so unset options read `length` of `undefined`. */
  function ChatInput<T>(voiceNotes: bool, options: Options, chunks: seq<T>): (r: Result<seq<Option<T>>>)
    ensures r.Err? <==> voiceNotes && options.Unset?
    ensures r.Ok? && TitleOnly(options) ==>
      (|r.value| == 1 && (r.value[0].None? <==> chunks == []) && (chunks != [] ==> r.value[0].value == chunks[0]))
    ensures r.Ok? && !TitleOnly(options) ==>
      (|r.value| == |chunks| && forall k :: 0 <= k < |chunks| ==> r.value[k] == Some(chunks[k]))
  {
    if voiceNotes && options.Unset? then Err(NoOptionsLength)
    else if TitleOnly(options) then Ok([if chunks == [] then None else Some(chunks[0])])
    else Ok(seq(|chunks|, (k: int) requires 0 <= k < |chunks| => Some(chunks[k])))
  }

  /** For a non-empty transcript, the title is written from a non-empty
      opening stretch of it; with options chosen, the chunks sent are
      the whole transcript in order. */
  lemma SentChunksCover<T>(voiceNotes: bool, options: Options, tokens: seq<T>, isPeriod: T -> bool,
                           hasPeriod: bool, maxTokens: nat)
    requires maxTokens >= (if hasPeriod then TokenChunker.SearchBudget else 1)
    requires tokens != [] && !(voiceNotes && options.Unset?)
    ensures var chunks := TokenChunker.Chunks(tokens, isPeriod, hasPeriod, maxTokens, 0);
      var r := ChatInput(voiceNotes, options, chunks).value;
      (TitleOnly(options) ==> r[0].Some? && r[0].value != [] && r[0].value == tokens[..|r[0].value|]) &&
      (!TitleOnly(options) ==> TokenChunker.Concat(chunks) == tokens)
  {
    var chunks := TokenChunker.Chunks(tokens, isPeriod, hasPeriod, maxTokens, 0);
    TokenChunker.ChunksLossless(tokens, isPeriod, hasPeriod, maxTokens, 0);
    TokenChunker.ChunksBounded(tokens, isPeriod, hasPeriod, maxTokens, 0);
    assert chunks != [];
    assert chunks[0] in chunks;
    assert tokens[0..] == tokens;
    assert TokenChunker.Concat(chunks) == chunks[0] + TokenChunker.Concat(chunks[1..]);
  }

  // ---------------------------------------------------------- summed usage

  /** `summary.reduce((total, item) => total + item.usage.prompt_tokens, 0)`,
      and the same for the completion tokens. */
  function SummaryUsage(items: seq<Cost.Usage>): Cost.Usage {
    if items == [] then Cost.Usage(0, 0)
    else
      var u := SummaryUsage(items[..|items| - 1]);
      var last := items[|items| - 1];
      Cost.Usage(u.promptTokens + last.promptTokens, u.completionTokens + last.completionTokens)
  }

  /** What the chunks' calls would cost priced one by one. */
  function CallCosts(items: seq<Cost.Usage>, rates: Cost.Rates): real {
    if items == [] then 0.0 else CallCosts(items[..|items| - 1], rates) + Cost.Tokens(items[|items| - 1], rates)
  }

  /** Pricing the summed usage once costs what pricing every call would. */
  lemma {:induction false} SummaryCostAdds(items: seq<Cost.Usage>, rates: Cost.Rates)
    ensures Cost.Tokens(SummaryUsage(items), rates) == CallCosts(items, rates)
  {
    if items != [] {
      SummaryCostAdds(items[..|items| - 1], rates);
      Cost.TokensAdd(SummaryUsage(items[..|items| - 1]), items[|items| - 1], rates);
    }
  }
}
