/**
  Calls with retries (`transcribe` and `chat`, both through `async-retry`
  with `retries: 3`) and their ordered fan-out (`transcribeFiles`,
  `sendToChat`: `Promise.all` over a `map`).

  An attempt either gives a value or throws. `transcribe` throws a
  transient error again, which makes the library try once more, and hands
  any other error to `bail`, which ends the call at once; `chat` never
  calls `bail`. Back-off timing, the rate limiter and the concurrency of
  the fan-out are not modelled: what is kept is which attempts run and
  what the call ends with.
*/
module Retry {
  import opened JsText
  import opened Wrappers

  /** `retries: 3`: a first attempt and at most three more. */
  const Retries := 3
  const MaxAttempts := Retries + 1

  /** A thrown error as the callbacks read it: `error.message` and `error.status`. */
  datatype ApiError = ApiError(message: string, status: Option<int>)

  datatype Attempt<+T> = Done(value: T) | Failed(error: ApiError)

  /** How a call with retries ends: what its last attempt gave, and how many attempts ran. */
  datatype Outcome<+T> = Outcome(result: Attempt<T>, attempts: nat)

  /** `transcribe`: the error is thrown again (and so retried) rather than
      passed to `bail`. A status of 0 is falsy, but it is below 500 anyway. */
  predicate Transient(e: ApiError) {
    var m := Lower(e.message);
    Contains(m, "econnreset") || Contains(m, "connection error") || (e.status.Some? && e.status.value >= 500)
  }

  /** `chat`: every error is retried. */
  predicate Always(e: ApiError) {
    true
  }

  /** The attempt ends the call: it succeeded, it bailed, or it was the last one. */
  predicate Stops<T>(a: Attempt<T>, retried: ApiError -> bool, attempt: nat) {
    a.Done? || !retried(a.error) || attempt >= MaxAttempts
  }

  function RetryFrom<T>(call: nat -> Attempt<T>, retried: ApiError -> bool, attempt: nat): (o: Outcome<T>)
    requires 1 <= attempt <= MaxAttempts
    ensures attempt <= o.attempts <= MaxAttempts
    decreases MaxAttempts - attempt
  {
    var a := call(attempt);
    if Stops(a, retried, attempt) then Outcome(a, attempt)
    else RetryFrom(call, retried, attempt + 1)
  }

  /** `retry(fn, { retries: 3 })`; `call(n)` is what attempt `n` gives. */
  function RetrySpec<T>(call: nat -> Attempt<T>, retried: ApiError -> bool): Outcome<T> {
    RetryFrom(call, retried, 1)
  }

  lemma {:induction false} RetryFromStops<T>(call: nat -> Attempt<T>, retried: ApiError -> bool, attempt: nat)
    requires 1 <= attempt <= MaxAttempts
    ensures var o := RetryFrom(call, retried, attempt);
      o.result == call(o.attempts) && Stops(call(o.attempts), retried, o.attempts) &&
      forall b :: attempt <= b < o.attempts ==> !Stops(call(b), retried, b)
    decreases MaxAttempts - attempt
  {
    if !Stops(call(attempt), retried, attempt) {
      RetryFromStops(call, retried, attempt + 1);
    }
  }

  /** The call runs between one and four attempts and ends with the first
      attempt that succeeds, bails or is the last; every earlier attempt
      threw an error that is retried. */
  lemma RetryOutcome<T>(call: nat -> Attempt<T>, retried: ApiError -> bool)
    ensures var o := RetrySpec(call, retried);
      1 <= o.attempts <= MaxAttempts &&
      o.result == call(o.attempts) && Stops(call(o.attempts), retried, o.attempts) &&
      forall b :: 1 <= b < o.attempts ==> call(b).Failed? && retried(call(b).error)
  {
    RetryFromStops(call, retried, 1);
  }

  /** The call succeeds exactly when some attempt succeeds after earlier
      attempts that all failed with retried errors. */
  lemma RetrySucceeds<T>(call: nat -> Attempt<T>, retried: ApiError -> bool)
    ensures RetrySpec(call, retried).result.Done? <==>
      exists a :: 1 <= a <= MaxAttempts && call(a).Done? &&
        (forall b :: 1 <= b < a ==> call(b).Failed? && retried(call(b).error))
  {
    RetryOutcome(call, retried);
    var o := RetrySpec(call, retried);
    if exists a :: 1 <= a <= MaxAttempts && call(a).Done? &&
        (forall b :: 1 <= b < a ==> call(b).Failed? && retried(call(b).error)) {
      var a :| 1 <= a <= MaxAttempts && call(a).Done? &&
        (forall b :: 1 <= b < a ==> call(b).Failed? && retried(call(b).error));
      if o.attempts < a {
        assert false;
      }
    }
  }

  /** `chat` gives up only after four failed attempts. */
  lemma ChatFailsOnlyAfterFourAttempts<T>(call: nat -> Attempt<T>)
    ensures var o := RetrySpec(call, Always);
      o.result.Failed? ==> o.attempts == MaxAttempts && forall b :: 1 <= b <= MaxAttempts ==> call(b).Failed?
  {
    RetryOutcome(call, Always);
  }

  /** `transcribe` makes no further attempt after an error that is not transient. */
  lemma TranscribeBails<T>(call: nat -> Attempt<T>, n: nat)
    requires 1 <= n <= MaxAttempts && call(n).Failed? && !Transient(call(n).error)
    ensures RetrySpec(call, Transient).attempts <= n
  {
    RetryOutcome(call, Transient);
  }

  /** One call with retries. With `opensStream` (`transcribe`), each attempt
      opens a read stream and its `finally` destroys it. */
  method WithRetry<T>(call: nat -> Attempt<T>, retried: ApiError -> bool, opensStream: bool)
    returns (o: Outcome<T>, streamsOpened: nat, streamsDestroyed: nat)
    ensures o == RetrySpec(call, retried)
    ensures streamsOpened == streamsDestroyed == (if opensStream then o.attempts else 0)
  {
    var attempt := 1;
    streamsOpened, streamsDestroyed := 0, 0;
    while true
      invariant 1 <= attempt <= MaxAttempts
      invariant RetryFrom(call, retried, attempt) == RetrySpec(call, retried)
      invariant streamsOpened == streamsDestroyed == (if opensStream then attempt - 1 else 0)
      decreases MaxAttempts - attempt
    {
      if opensStream {
        streamsOpened := streamsOpened + 1;
      }
      var a := call(attempt);
      if opensStream {
        streamsDestroyed := streamsDestroyed + 1;
      }
      if Stops(a, retried, attempt) {
        return Outcome(a, attempt), streamsOpened, streamsDestroyed;
      }
      attempt := attempt + 1;
    }
  }

  // ------------------------------------------------------------ the fan-out

  function Bind<F, T>(call: (F, nat) -> Attempt<T>, item: F): nat -> Attempt<T> {
    (a: nat) => call(item, a)
  }

  /** The call with retries made for one item. */
  function Run<F, T>(call: (F, nat) -> Attempt<T>, retried: ApiError -> bool, item: F): Outcome<T> {
    RetrySpec(Bind(call, item), retried)
  }

  /** `Promise.all(items.map(...))`: one call with retries per item, the
      values in the order of `items` whatever order the calls finish in;
      when calls fail, the error is the one that happens to come first. */
  method FanOut<F, T>(items: seq<F>, call: (F, nat) -> Attempt<T>, retried: ApiError -> bool, opensStream: bool)
    returns (r: Attempt<seq<T>>)
    ensures r.Done? <==> forall i :: 0 <= i < |items| ==> Run(call, retried, items[i]).result.Done?
    ensures r.Done? ==> (|r.value| == |items| &&
      forall i :: 0 <= i < |items| ==> r.value[i] == Run(call, retried, items[i]).result.value)
    ensures r.Failed? ==> exists i :: 0 <= i < |items| && Run(call, retried, items[i]).result == Failed(r.error)
  {
    var values: seq<T> := [];
    var failure: Option<ApiError> := None;
    for i := 0 to |items|
      invariant failure.None? ==> (|values| == i &&
        forall j :: 0 <= j < i ==> Run(call, retried, items[j]).result == Done(values[j]))
      invariant failure.Some? ==> exists j :: 0 <= j < i && Run(call, retried, items[j]).result == Failed(failure.value)
    {
      var o, _, _ := WithRetry(Bind(call, items[i]), retried, opensStream);
      if failure.None? {
        match o.result
        case Done(v) => values := values + [v];
        case Failed(e) => failure := Some(e);
      }
    }
    if failure.Some? {
      r := Failed(failure.value);
    } else {
      r := Done(values);
    }
  }

  /** `transcribeFiles`: every chunk file is transcribed with `transcribe`'s retries. */
  method TranscribeFiles<F, T>(files: seq<F>, transcribe: (F, nat) -> Attempt<T>) returns (r: Attempt<seq<T>>)
    ensures r.Done? <==> forall i :: 0 <= i < |files| ==> Run(transcribe, Transient, files[i]).result.Done?
    ensures r.Done? ==> (|r.value| == |files| &&
      forall i :: 0 <= i < |files| ==> r.value[i] == Run(transcribe, Transient, files[i]).result.value)
    ensures r.Failed? ==> exists i :: 0 <= i < |files| && Run(transcribe, Transient, files[i]).result == Failed(r.error)
  {
    r := FanOut(files, transcribe, Transient, true);
  }

  /** The actions whose `sendToChat` is modelled. */
  datatype Sender = KamilSends | NagraniaaSends | NagranieprawSends | VoiceNotesSends

  const SendFailed := "B\U{0142}\U{0105}d wysy\U{0142}ania do "
  const SendFailedLong := "Wyst\U{0105}pi\U{0142} b\U{0142}\U{0105}d podczas wysy\U{0142}ania transkrypcji do "
  const SendFailedEnglish := "An error occurred while sending the transcript to ChatGPT: "

  /** The heading `sendToChat`'s `catch` puts before the message of a failed
      call, or `None` when the failure passes through unwrapped.
      Notion-Voice-Notes returns `limiter.schedule(...)` without awaiting
      it, so the rejection reaches its caller past the `catch`, and its
      English heading is never used. */
  function SendHeading(sender: Sender, service: string): (h: Option<string>)
    ensures h.None? <==> sender.VoiceNotesSends?
    ensures (sender.KamilSends? || sender.NagraniaaSends?) ==> h == Some(SendFailed + service + ": ")
    ensures sender.NagranieprawSends? ==> h == Some(SendFailedLong + service + ": ")
  {
    match sender
    case KamilSends => Some(SendFailed + service + ": ")
    case NagraniaaSends => Some(SendFailed + service + ": ")
    case NagranieprawSends => Some(SendFailedLong + service + ": ")
    case VoiceNotesSends => None
  }

  /** What the caller of `sendToChat` sees of a failed call's error: a new
      error, without a status, whose message follows the heading, or the
      error itself when nothing wraps it. */
  function Reported(heading: Option<string>, e: ApiError): (r: ApiError)
    ensures heading.None? ==> r == e
    ensures heading.Some? ==> r.status.None?
    ensures heading.Some? ==> StartsWith(r.message, heading.value) && r.message[|heading.value|..] == e.message
  {
    match heading
    case None => e
    case Some(h) =>
      var m := h + e.message;
      assert m[..|h|] == h && m[|h|..] == e.message;
      ApiError(m, None)
  }

  /** Notion-Voice-Notes as written: a failed chat reaches the caller as it
      is, with its status and without the English heading. */
  lemma VoiceNotesCatchUnreached(service: string, e: ApiError)
    ensures Reported(SendHeading(VoiceNotesSends, service), e) == e
  {
  }

  /** Notion-Voice-Notes with the schedule awaited: the `catch` then sees the
      failure and reports it under the English heading, like the other actions. */
  lemma VoiceNotesAwaitedWraps(e: ApiError)
    ensures var r := Reported(Some(SendFailedEnglish), e);
      r.status.None? && StartsWith(r.message, SendFailedEnglish) &&
      r.message[|SendFailedEnglish|..] == e.message
  {
  }

  /** `sendToChat`: every chunk of the transcript is sent with `chat`'s
      retries; a failure is reported through `heading` as `Reported` says. */
  method SendToChat<S, T>(heading: Option<string>, chunks: seq<S>, chat: (S, nat) -> Attempt<T>)
    returns (r: Attempt<seq<T>>)
    ensures r.Done? <==> forall i :: 0 <= i < |chunks| ==> Run(chat, Always, chunks[i]).result.Done?
    ensures r.Done? ==> (|r.value| == |chunks| &&
      forall i :: 0 <= i < |chunks| ==> r.value[i] == Run(chat, Always, chunks[i]).result.value)
    ensures r.Failed? ==> exists i :: 0 <= i < |chunks| && Run(chat, Always, chunks[i]).result.Failed? &&
                            r.error == Reported(heading, Run(chat, Always, chunks[i]).result.error)
  {
    var all := FanOut(chunks, chat, Always, false);
    match all
    case Done(values) =>
      r := Done(values);
    case Failed(e) =>
      r := Failed(Reported(heading, e));
  }

  // ------------------------------------------------ what the caller reports

  // The headings are split after their first characters, where they differ.
  const TranscriptionFailed := "B\U{0142}\U{0105}d pod" + "czas transkrypcji."
  const ConnectionFailed := "B\U{0142}\U{0105}d po\U{0142}" + "\U{0105}czenia z OpenAI. Sprawd\U{017A} dane rozliczeniowe lub spr\U{00F3}buj p\U{00F3}\U{017A}niej."
  const BadFormat := "N" + "ieprawid\U{0142}owy format pliku. Spr\U{00F3}buj przekonwertowa\U{0107} do MP3."

  lemma HeadingsDiffer()
    ensures ConnectionFailed[7] != TranscriptionFailed[7]
    ensures ConnectionFailed[0] == TranscriptionFailed[0] != BadFormat[0]
  {
  }

  /** The message `chunkFileAndTranscribe` throws when `transcribeFiles`
      fails: a heading chosen by the error's message, then the message. */
  function TranscriptionError(message: string): (r: string)
    ensures EndsWith(r, message)
    ensures StartsWith(r, ConnectionFailed) <==> Contains(Lower(message), "connection error")
    ensures StartsWith(r, BadFormat) <==>
      !Contains(Lower(message), "connection error") && Contains(Lower(message), "invalid file format")
  {
    var heading := if Contains(Lower(message), "connection error") then ConnectionFailed
                   else if Contains(Lower(message), "invalid file format") then BadFormat
                   else TranscriptionFailed;
    var r := heading + "\n\nSzczeg\U{00F3}\U{0142}y: " + message;
    assert r[0] == heading[0] && r[7] == heading[7];
    HeadingsDiffer();
    assert r[..|heading|] == heading;
    assert r[|r| - |message|..] == message;
    r
  }
}
