/**
  One attempt of `chat`: the service's reply, the rewrapping of an
  Anthropic message into the OpenAI completion shape, and what
  `formatChat` then reads from the result.

  Kamil and Nagraniepraw rewrap the Anthropic message; Nagraniaa reads
  `response.choices[0]` of whatever the service returned.
*/
module Adapter {
  import opened Wrappers
  import opened Retry
  import Aggregator
  import ChatVariants
  import Prompt

  /** One block of an Anthropic message's `content`; `text` is `None` for a block without text. */
  datatype Block = Block(text: Option<string>)

  datatype AnthropicMessage = AnthropicMessage(id: string, model: string, content: seq<Block>,
                                               inputTokens: int, outputTokens: int)

  /** An OpenAI chat completion, reduced to what the pipeline reads:
      `choices[0].message.content` (`None` when it is null) and `usage`. */
  datatype Completion = Completion(id: string, model: string, content: Option<string>,
                                   promptTokens: int, completionTokens: int, totalTokens: int)

  /** What the service call of one attempt returned. `NoCall`: the service
      is neither "OpenAI" nor "Anthropic", so `response` stays `undefined`. */
  datatype Reply = OpenAIReply(completion: Completion) | AnthropicReply(message: AnthropicMessage) | NoCall

  const NoText := "Cannot read properties of undefined (reading 'text')"
  const NoChoice := "Cannot read properties of undefined (reading '0')"
  const NoChoices := "Cannot read properties of undefined (reading 'choices')"

  /** The OpenAI-shaped response built from an Anthropic message; it throws
      when the message has no content block. */
  function Adapt(m: AnthropicMessage): (r: Attempt<Completion>)
    ensures r.Failed? <==> m.content == []
    ensures r.Done? ==>
      r.value.id == m.id && r.value.model == m.model && r.value.content == m.content[0].text &&
      r.value.promptTokens == m.inputTokens && r.value.completionTokens == m.outputTokens &&
      r.value.totalTokens == r.value.promptTokens + r.value.completionTokens
  {
    if m.content == [] then Failed(ApiError(NoText, None))
    else Done(Completion(m.id, m.model, m.content[0].text, m.inputTokens, m.outputTokens,
                         m.inputTokens + m.outputTokens))
  }

  /** What the attempt returns once the service has replied: the completion,
      or `None` for `undefined`. `adapts`: the variant rewraps Anthropic
      messages; without it the attempt reads `response.choices[0]` at once. */
  function Respond(adapts: bool, reply: Reply): Attempt<Option<Completion>> {
    match reply
    case OpenAIReply(c) => Done(Some(c))
    case AnthropicReply(m) =>
      if !adapts then Failed(ApiError(NoChoice, None))
      else (match Adapt(m) case Done(c) => Done(Some(c)) case Failed(e) => Failed(e))
    case NoCall => if adapts then Done(None) else Failed(ApiError(NoChoices, None))
  }

  /** One attempt of `chat`. Kamil builds the system prompt inside the
      attempt, so a prompt that throws fails the attempt; `call` is what
      the service call gave, or the error it threw. */
  function ChatAttempt(adapts: bool, prompt: Result<seq<Prompt.Part>>, call: Attempt<Reply>): Attempt<Option<Completion>> {
    if prompt.Err? then Failed(ApiError(prompt.error, None))
    else match call
      case Failed(e) => Failed(e)
      case Done(reply) => Respond(adapts, reply)
  }

  /** `chat`'s attempts, the `n`-th service call giving `calls(n)`. */
  function ChatCall(adapts: bool, prompt: Result<seq<Prompt.Part>>, calls: nat -> Attempt<Reply>): nat -> Attempt<Option<Completion>> {
    (a: nat) => ChatAttempt(adapts, prompt, calls(a))
  }

  /** One chunk's call in Nagraniaa's and Nagraniepraw's `sendToChat`: the
      system message is built in the `map` before `chat` starts retrying,
      so a system message that throws rejects the chunk with no attempt
      made, and otherwise the attempts run with the prompt already built.
      Either failure is then rethrown under the action's `sendToChat`
      heading (`Retry.SendHeading`). */
  function PromptFirstChat(adapts: bool, prompt: Result<seq<Prompt.Part>>, calls: nat -> Attempt<Reply>)
    : (o: Outcome<Option<Completion>>)
    ensures o.attempts == 0 <==> prompt.Err?
    ensures prompt.Err? ==> o.result == Failed(ApiError(prompt.error, None))
    ensures prompt.Ok? ==> o == RetrySpec(ChatCall(adapts, prompt, calls), Always)
  {
    if prompt.Err? then Outcome(Failed(ApiError(prompt.error, None)), 0)
    else
      RetryOutcome(ChatCall(adapts, prompt, calls), Always);
      RetrySpec(ChatCall(adapts, prompt, calls), Always)
  }

  /** What `formatChat` reads from what `chat` resolved to. */
  function AsChatResult(r: Option<Completion>): Aggregator.ChatResult {
    match r
    case None => Aggregator.Undefined
    case Some(c) => Aggregator.ChatResult(Some(c.content), Some(c.totalTokens))
  }

  // ------------------------------------------------------------- properties

  /** `formatChat` reads a rewrapped message's first text block as the
      answer and the sum of its input and output tokens as its usage. */
  lemma AdaptedUsage(m: AnthropicMessage, parseChunk: Aggregator.ChunkParser)
    requires m.content != []
    ensures var r := AsChatResult(Some(Adapt(m).value));
      r == Aggregator.ChatResult(Some(m.content[0].text), Some(m.inputTokens + m.outputTokens)) &&
      (Aggregator.ReadChunk(r, parseChunk).Some? ==>
        Aggregator.ReadChunk(r, parseChunk).value.usage == m.inputTokens + m.outputTokens)
  {
  }

  /** A system prompt that throws fails every one of Kamil's four attempts. */
  lemma PromptErrorFailsEveryAttempt(adapts: bool, prompt: Result<seq<Prompt.Part>>, calls: nat -> Attempt<Reply>)
    requires prompt.Err?
    ensures RetrySpec(ChatCall(adapts, prompt, calls), Always) == Outcome(Failed(ApiError(prompt.error, None)), MaxAttempts)
  {
    var f := ChatCall(adapts, prompt, calls);
    forall a: nat ensures f(a) == Failed(ApiError(prompt.error, None)) {
      assert f(a) == ChatAttempt(adapts, prompt, calls(a));
    }
    RetryOutcome(f, Always);
  }

  /** Nagraniaa as written: with the Anthropic service every attempt reads
      `choices` of a message that has none, so the chunk's call fails after
      four attempts whatever the service answers, or before any attempt
      when the system message throws. */
  lemma RecordingAnthropicAlwaysFails(prompt: Result<seq<Prompt.Part>>, calls: nat -> Attempt<Reply>)
    requires forall a :: calls(a).Done? ==> calls(a).value.AnthropicReply?
    ensures var o := PromptFirstChat(false, prompt, calls);
      o.result.Failed? && o.attempts == (if prompt.Ok? then MaxAttempts else 0)
  {
    if prompt.Ok? {
      var f := ChatCall(false, prompt, calls);
      RetryOutcome(f, Always);
      RetrySucceeds(f, Always);
      assert forall a :: f(a).Failed?;
    }
  }

  /** Nagraniaa with the rewrapping the other variants do: an Anthropic
      answer with a content block succeeds at the first attempt. */
  lemma AdaptedAnthropicSucceeds(prompt: Result<seq<Prompt.Part>>, calls: nat -> Attempt<Reply>, m: AnthropicMessage)
    requires prompt.Ok? && calls(1) == Done(AnthropicReply(m)) && m.content != []
    ensures RetrySpec(ChatCall(true, prompt, calls), Always) == Outcome(Done(Some(Adapt(m).value)), 1)
  {
  }

  /** Kamil with a service that is neither OpenAI nor Anthropic: `chat`
      resolves to `undefined`, and `formatChat` then rejects, since its
      `catch` reads `result.usage` too. */
  lemma UnknownServiceRejectsSummary(prompt: Result<seq<Prompt.Part>>, calls: nat -> Attempt<Reply>,
                                     options: seq<string>, custom: string, parseChunk: Aggregator.ChunkParser)
    requires prompt.Ok? && calls(1) == Done(NoCall)
    ensures RetrySpec(ChatCall(true, prompt, calls), Always) == Outcome(Done(None), 1)
    ensures Aggregator.FormatChatSpec(ChatVariants.Kamil, options, custom, [AsChatResult(None)], parseChunk).Err?
  {
  }
}
