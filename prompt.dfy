/**
  The prompts sent with every transcript chunk: the user prompt
  (`createPrompt`) and the system prompt (`createSystemPrompt`, called
  `createSystemMessage` in Nagraniaa).

  The system prompt is an object filled key by key: a base part, one
  instruction per selected summary option, a lock part and an example part
  whose example object names the title and every key an instruction asked
  for; its values are joined with blank lines. The parts' prose is not
  reproduced: each part is kept with what varies in it (the key, the length
  bound, the languages).
*/
module Prompt {
  import opened Wrappers
  import opened Aggregator
  import ChatVariants

  // ------------------------------------------------------------ the tables

  datatype Level = High | Medium | Low

  /** The length bound an instruction names at each level ("20-25%", "10", ...). */
  datatype Cap = Uncapped | Capped(high: string, medium: string, low: string)

  /** `Labelled`: the summary option that asks for the key;
      `OwnInstruction`: the user's own instruction, asked for when it is set
      and also among the selected options. */
  datatype Gate = Labelled(option: string) | OwnInstruction

  datatype Request = Request(key: Key, gate: Gate, cap: Cap)

  /** One entry of `lang.LANGUAGES`. */
  datatype Language = Language(value: string, name: string)

  /** The language some values of the answer are asked to be written in. */
  datatype Tongue = SameAsTranscript | In(language: Language)

  /** One value of the `prompt` object.
      `Base`: the language named in its prefix, if any.
      `Instruction`: `own` is the user's own instruction, "" for the others.
      `Example`: the keys of the example object, the language of the values
      and, in the variants that have one, the language of the title. */
  datatype Part =
    | Base(prefix: Option<Language>)
    | Instruction(key: Key, bound: Option<string>, own: string)
    | Lock
    | Example(keys: seq<Key>, values: Tongue, title: Option<Tongue>)

  /** What the variants' prompt builders differ in. */
  datatype PromptVariant = PromptVariant(
    high: string,          // the verbosity setting read as the high level
    medium: string,        // the verbosity setting read as the medium level
    optionsGuarded: bool,  // missing options give no instructions rather than a TypeError
    titleLanguage: bool,   // the title has a language setting of its own
    requests: seq<Request>)

  const NoLabel := "Cannot read properties of undefined (reading 'label')"
  const NoOptions := "Cannot read properties of undefined (reading 'includes')"

  const Percent := Capped("20-25%", "10-15%", "5-10%")
  const Ten := Capped("10", "5", "3")
  const Five := Capped("5", "3", "2")
  const Chaptered := Capped("10", "6", "3")

  function R(key: Key, option: string, cap: Cap): Request {
    Request(key, Labelled(option), cap)
  }

  const StandardRequests: seq<Request> :=
    [ R(Summary, "Podsumowanie", Percent),
      R(MainPoints, "G\U{0142}\U{00F3}wne punkty", Ten),
      R(ActionItems, "Elementy do wykonania", Five),
      R(FollowUp, "Pytania uzupe\U{0142}niaj\U{0105}ce", Five),
      R(Stories, "Historie", Five),
      R(References, "Odniesienia", Five),
      R(Arguments, "Argumenty", Five),
      R(RelatedTopics, "Powi\U{0105}zane tematy", Ten),
      R(Chapters, "Rozdzia\U{0142}y", Chaptered) ]

  const DiaryRequests: seq<Request> :=
    [ R(DayOverview, "Og\U{00F3}lny opis dnia", Uncapped),
      R(KeyEvents, "Kluczowe wydarzenia", Five),
      R(Achievements, "Osi\U{0105}gni\U{0119}cia", Five),
      R(Challenges, "Wyzwania", Five),
      R(Insights, "Wnioski", Five),
      R(ActionPlan, "Plan dzia\U{0142}ania", Five),
      R(PersonalGrowth, "Rozw\U{00F3}j osobisty", Uncapped),
      R(Reflection, "Refleksja", Uncapped),
      R(DayRating, "Ocena dnia (1-100)", Uncapped) ]

  const CommonRequests: seq<Request> :=
    [ R(AiRecommendations, "AI rekomendacje", Uncapped),
      R(ResourcesToCheck, "\U{0179}r\U{00F3}d\U{0142}a do przejrzenia", Uncapped),
      Request(CustomInstructions, OwnInstruction, Uncapped) ]

  /** Kamil and Nagraniepraw. */
  const Journal := PromptVariant("Wysoka", "\U{015A}rednia", false, true,
                                 StandardRequests + DiaryRequests + CommonRequests)

  const RecordingRequests: seq<Request> :=
    [ R(Summary, "Podsumowanie", Percent),
      R(MainPoints, "G\U{0142}\U{00F3}wne Punkty", Ten),
      R(ActionItems, "Elementy Do Wykonania", Five),
      R(FollowUp, "Pytania Uzupe\U{0142}niaj\U{0105}ce", Five),
      R(Stories, "Historie", Five),
      R(References, "Odniesienia", Five),
      R(Arguments, "Argumenty", Five),
      R(RelatedTopics, "Powi\U{0105}zane Tematy", Ten),
      R(Chapters, "Rozdzia\U{0142}y", Chaptered) ]

  /** Nagraniaa: instructions only when the options are an array. */
  const Recording := PromptVariant("Wysoka", "\U{015A}rednia", true, false, RecordingRequests)

  const VoiceNotesRequests: seq<Request> :=
    [ R(Summary, "Summary", Percent),
      R(MainPoints, "Main Points", Ten),
      R(ActionItems, "Action Items", Five),
      R(FollowUp, "Follow-up Questions", Five),
      R(Stories, "Stories", Five),
      R(References, "References", Five),
      R(Arguments, "Arguments", Five),
      R(RelatedTopics, "Related Topics", Ten),
      R(Sentiment, "Sentiment", Uncapped) ]

  /** Notion-Voice-Notes: instructions only when the options are set. */
  const VoiceNotes := PromptVariant("High", "Medium", true, false, VoiceNotesRequests)

  // ------------------------------------------------------- the specification

  function LevelOf(pv: PromptVariant, verbosity: string): Level {
    if verbosity == pv.high then High else if verbosity == pv.medium then Medium else Low
  }

  function Bound(cap: Cap, level: Level): Option<string> {
    match cap
    case Uncapped => None
    case Capped(h, m, l) => Some(match level case High => h case Medium => m case Low => l)
  }

  /** `lang.LANGUAGES.find((l) => l.value === code)`. */
  function Find(languages: seq<Language>, code: string): (r: Option<Language>)
    ensures r.Some? ==> r.value in languages && r.value.value == code
    ensures r.None? <==> forall l :: l in languages ==> l.value != code
    ensures r.Some? ==> exists i :: 0 <= i < |languages| && languages[i] == r.value &&
                          forall j :: 0 <= j < i ==> languages[j].value != code
  {
    if languages == [] then None
    else if languages[0].value == code then Some(languages[0])
    else Find(languages[1..], code)
  }

  predicate Selected(q: Request, options: seq<string>, own: string) {
    match q.gate
    case Labelled(option) => option in options
    case OwnInstruction => own != "" && own in options
  }

  function InstructionFor(q: Request, level: Level, own: string): Part {
    Instruction(q.key, Bound(q.cap, level), if q.gate.OwnInstruction? then own else "")
  }

  /** The instructions for `requests`, in table order. */
  function Instructions(requests: seq<Request>, options: seq<string>, level: Level, own: string): seq<Part> {
    if requests == [] then []
    else
      var q := requests[|requests| - 1];
      Instructions(requests[..|requests| - 1], options, level, own)
        + (if Selected(q, options, own) then [InstructionFor(q, level, own)] else [])
  }

  /** `key in prompt`. */
  predicate InPrompt(parts: seq<Part>, key: Key) {
    exists i :: 0 <= i < |parts| && parts[i].Instruction? && parts[i].key == key
  }

  /** The keys the example object adds after `title`, in table order. */
  function Mentioned(requests: seq<Request>, parts: seq<Part>): seq<Key> {
    if requests == [] then []
    else
      var q := requests[|requests| - 1];
      Mentioned(requests[..|requests| - 1], parts) + (if InPrompt(parts, q.key) then [q.key] else [])
  }

  /** `createSystemPrompt`: the values of `prompt` in insertion order.
      `options` is `None` when the summary options are missing; a language
      setting is "" when it is not set. */
  function SystemPromptSpec(pv: PromptVariant, options: Option<seq<string>>, verbosity: string,
                            summaryLanguage: string, titleLanguage: string, own: string,
                            languages: seq<Language>): Result<seq<Part>> {
    var summaryLang := if summaryLanguage != "" then Find(languages, summaryLanguage) else None;
    var titleLang := if pv.titleLanguage && titleLanguage != "" then Find(languages, titleLanguage) else None;
    if summaryLanguage != "" && summaryLang.None? then Err(NoLabel)
    else if pv.titleLanguage && titleLanguage != "" && titleLang.None? then Err(NoLabel)
    else if options.None? && !pv.optionsGuarded then Err(NoOptions)
    else
      var values := if summaryLang.Some? then In(summaryLang.value) else SameAsTranscript;
      var title := if !pv.titleLanguage then None
                   else if titleLang.Some? then Some(In(titleLang.value))
                   else Some(values);
      Ok(AssembledPrompt(summaryLang, pv.requests, options, LevelOf(pv, verbosity), own, values, title))
  }

  /** The prompt once the languages and options are accepted: the base part,
      the instructions, the lock part and the example. */
  function AssembledPrompt(summaryLang: Option<Language>, requests: seq<Request>, options: Option<seq<string>>,
                           level: Level, own: string, values: Tongue, title: Option<Tongue>): seq<Part> {
    var body := if options.None? then [] else Instructions(requests, options.value, level, own);
    var head := [Base(summaryLang)] + body + [Lock];
    head + [Example([Title] + Mentioned(requests, head), values, title)]
  }

  // ------------------------------------------------------------ the builder

  /** The instruction lines, one per selected request, in table order. */
  method InstructionParts(requests: seq<Request>, options: seq<string>, level: Level, own: string)
    returns (body: seq<Part>)
    ensures body == Instructions(requests, options, level, own)
  {
    body := [];
    for i := 0 to |requests|
      invariant body == Instructions(requests[..i], options, level, own)
    {
      assert requests[..i + 1][..i] == requests[..i];
      var q := requests[i];
      if Selected(q, options, own) {
        body := body + [InstructionFor(q, level, own)];
      }
    }
    assert requests[..|requests|] == requests;
  }

  /** The example object's keys: the title, then every key of the table the
      prompt asks for, in table order. */
  method ExampleKeys(requests: seq<Request>, prompt: seq<Part>) returns (example: seq<Key>)
    ensures example == [Title] + Mentioned(requests, prompt)
  {
    example := [Title];
    for i := 0 to |requests|
      invariant example == [Title] + Mentioned(requests[..i], prompt)
    {
      MentionedSnoc(requests, prompt, i);
      if InPrompt(prompt, requests[i].key) {
        example := example + [requests[i].key];
      }
    }
    assert requests[..|requests|] == requests;
  }

  /** One more request of the table adds its key when the prompt asks for it. */
  lemma MentionedSnoc(requests: seq<Request>, parts: seq<Part>, i: nat)
    requires i < |requests|
    ensures Mentioned(requests[..i + 1], parts)
         == Mentioned(requests[..i], parts) + (if InPrompt(parts, requests[i].key) then [requests[i].key] else [])
  {
    assert requests[..i + 1][..i] == requests[..i];
  }

  method CreateSystemPrompt(pv: PromptVariant, options: Option<seq<string>>, verbosity: string,
                            summaryLanguage: string, titleLanguage: string, own: string,
                            languages: seq<Language>) returns (r: Result<seq<Part>>)
    ensures r == SystemPromptSpec(pv, options, verbosity, summaryLanguage, titleLanguage, own, languages)
  {
    var summaryLang: Option<Language> := None;
    if summaryLanguage != "" {
      summaryLang := Find(languages, summaryLanguage);
      if summaryLang.None? {
        return Err(NoLabel);
      }
    }
    var titleLang: Option<Language> := None;
    if pv.titleLanguage && titleLanguage != "" {
      titleLang := Find(languages, titleLanguage);
      if titleLang.None? {
        return Err(NoLabel);
      }
    }
    var values := if summaryLang.Some? then In(summaryLang.value) else SameAsTranscript;
    var title := if !pv.titleLanguage then None
                 else if titleLang.Some? then Some(In(titleLang.value))
                 else Some(values);
    var prompt := [Base(summaryLang)];
    if options.None? {
      if !pv.optionsGuarded {
        return Err(NoOptions);
      }
      assert prompt == [Base(summaryLang)] + [];
    } else {
      var body := InstructionParts(pv.requests, options.value, LevelOf(pv, verbosity), own);
      prompt := prompt + body;
    }
    prompt := prompt + [Lock];
    var example := ExampleKeys(pv.requests, prompt);
    r := Ok(prompt + [Example(example, values, title)]);
  }

  /** `createPrompt(arr, date)`, with the template's own line breaks and indentation. */
  function UserPrompt(transcript: string, date: string): (r: string)
    ensures |r| > |transcript| && r[|r| - |transcript|..] == transcript
  {
    "\n        \n        Dzi\U{015B} jest " + date + ".\n        \n        Transkrypcja:\n        \n        " + transcript
  }

  // ------------------------------------------------------------- properties

  /** The transcript can be read back from the user prompt. */
  lemma UserPromptKeepsTranscript(a: string, b: string, date: string)
    requires UserPrompt(a, date) == UserPrompt(b, date)
    ensures a == b
  {
    var p := UserPrompt(a, date);
    assert |a| == |b|;
    assert a == p[|p| - |a|..] == b;
  }

  function KeysOf(parts: seq<Part>): seq<Key> {
    if parts == [] then []
    else KeysOf(parts[..|parts| - 1]) + (if parts[|parts| - 1].Instruction? then [parts[|parts| - 1].key] else [])
  }

  predicate DistinctRequests(requests: seq<Request>) {
    forall i, j :: 0 <= i < j < |requests| ==> requests[i].key != requests[j].key
  }

  lemma InPromptAppend(a: seq<Part>, b: seq<Part>, k: Key)
    ensures InPrompt(a + b, k) <==> InPrompt(a, k) || InPrompt(b, k)
  {
    if InPrompt(a + b, k) {
      var i :| 0 <= i < |a + b| && (a + b)[i].Instruction? && (a + b)[i].key == k;
      if i < |a| {
        assert a[i] == (a + b)[i];
      } else {
        assert b[i - |a|] == (a + b)[i];
      }
    }
    if InPrompt(a, k) {
      var i :| 0 <= i < |a| && a[i].Instruction? && a[i].key == k;
      assert (a + b)[i] == a[i];
    }
    if InPrompt(b, k) {
      var i :| 0 <= i < |b| && b[i].Instruction? && b[i].key == k;
      assert (a + b)[|a| + i] == b[i];
    }
  }

  /** Some request with key `k` is selected. */
  predicate AskedFor(requests: seq<Request>, options: seq<string>, own: string, k: Key) {
    exists j :: 0 <= j < |requests| && requests[j].key == k && Selected(requests[j], options, own)
  }

  lemma AskedForLast(requests: seq<Request>, options: seq<string>, own: string, k: Key)
    requires requests != []
    ensures var n := |requests| - 1;
      AskedFor(requests, options, own, k) <==>
        AskedFor(requests[..n], options, own, k) || (requests[n].key == k && Selected(requests[n], options, own))
  {
    var n := |requests| - 1;
    if AskedFor(requests, options, own, k) {
      var j :| 0 <= j < |requests| && requests[j].key == k && Selected(requests[j], options, own);
      if j < n {
        assert requests[..n][j] == requests[j];
      }
    }
    if AskedFor(requests[..n], options, own, k) {
      var j :| 0 <= j < n && requests[..n][j].key == k && Selected(requests[..n][j], options, own);
      assert requests[j] == requests[..n][j];
    }
  }

  lemma {:induction false} InstructionsAsked(requests: seq<Request>, options: seq<string>, level: Level, own: string, k: Key)
    ensures InPrompt(Instructions(requests, options, level, own), k) <==> AskedFor(requests, options, own, k)
  {
    if requests != [] {
      var n := |requests| - 1;
      var front := requests[..n];
      InstructionsAsked(front, options, level, own, k);
      var a := Instructions(front, options, level, own);
      var tail := if Selected(requests[n], options, own) then [InstructionFor(requests[n], level, own)] else [];
      assert Instructions(requests, options, level, own) == a + tail;
      InPromptAppend(a, tail, k);
      AskedForLast(requests, options, own, k);
      OneInstructionAsked(requests[n], options, level, own, k);
    }
  }

  /** The instruction for one request asks for its key exactly when the request is selected. */
  lemma OneInstructionAsked(q: Request, options: seq<string>, level: Level, own: string, k: Key)
    ensures InPrompt(if Selected(q, options, own) then [InstructionFor(q, level, own)] else [], k) <==>
      q.key == k && Selected(q, options, own)
  {
    var tail := if Selected(q, options, own) then [InstructionFor(q, level, own)] else [];
    if InPrompt(tail, k) {
      var i :| 0 <= i < |tail| && tail[i].Instruction? && tail[i].key == k;
    }
    if q.key == k && Selected(q, options, own) {
      assert tail[0].key == k;
    }
  }

  /** The Base and Lock parts ask for no key. */
  lemma InPromptHead(prefix: Option<Language>, body: seq<Part>, k: Key)
    ensures InPrompt([Base(prefix)] + body + [Lock], k) <==> InPrompt(body, k)
  {
    var head := [Base(prefix)] + body + [Lock];
    if InPrompt(head, k) {
      var i :| 0 <= i < |head| && head[i].Instruction? && head[i].key == k;
      assert body[i - 1] == head[i];
    }
    if InPrompt(body, k) {
      var i :| 0 <= i < |body| && body[i].Instruction? && body[i].key == k;
      assert head[i + 1] == body[i];
    }
  }

  /** Up to `m`, the example object names the instructions' keys in order. */
  lemma {:induction false} MentionedUpTo(requests: seq<Request>, head: seq<Part>, options: seq<string>,
                                         level: Level, own: string, m: nat)
    requires DistinctRequests(requests) && m <= |requests|
    requires forall k :: InPrompt(head, k) <==> InPrompt(Instructions(requests, options, level, own), k)
    ensures Mentioned(requests[..m], head) == KeysOf(Instructions(requests[..m], options, level, own))
  {
    if m > 0 {
      var q := requests[m - 1];
      var pre := requests[..m];
      assert pre[..m - 1] == requests[..m - 1];
      assert pre[m - 1] == q;
      MentionedUpTo(requests, head, options, level, own, m - 1);
      var a := Instructions(requests[..m - 1], options, level, own);
      var tail := if Selected(q, options, own) then [InstructionFor(q, level, own)] else [];
      assert Instructions(pre, options, level, own) == a + tail;
      assert Mentioned(pre, head) == Mentioned(requests[..m - 1], head) + (if InPrompt(head, q.key) then [q.key] else []);
      InstructionsAsked(requests, options, level, own, q.key);
      assert InPrompt(head, q.key) <==> Selected(q, options, own) by {
        if InPrompt(head, q.key) {
          var j :| 0 <= j < |requests| && requests[j].key == q.key && Selected(requests[j], options, own);
          assert j == m - 1;
        }
        if Selected(q, options, own) {
          assert requests[m - 1].key == q.key;
        }
      }
      var b := a + tail;
      if Selected(q, options, own) {
        assert b[..|b| - 1] == a;
        assert KeysOf(b) == KeysOf(a) + [q.key];
      } else {
        assert b == a;
      }
    }
  }

  lemma InstructionKeys(requests: seq<Request>, head: seq<Part>, options: seq<string>, level: Level, own: string)
    requires DistinctRequests(requests)
    requires forall k :: InPrompt(head, k) <==> InPrompt(Instructions(requests, options, level, own), k)
    ensures Mentioned(requests, head) == KeysOf(Instructions(requests, options, level, own))
  {
    MentionedUpTo(requests, head, options, level, own, |requests|);
    assert requests[..|requests|] == requests;
  }

  /** Every instruction is the one its selected request asks for, at the chosen level. */
  lemma {:induction false} InstructionsFromRequests(requests: seq<Request>, options: seq<string>, level: Level, own: string)
    ensures |Instructions(requests, options, level, own)| <= |requests|
    ensures forall i :: 0 <= i < |Instructions(requests, options, level, own)| ==>
      IssuedBy(Instructions(requests, options, level, own)[i], requests, options, level, own)
  {
    if requests != [] {
      var n := |requests| - 1;
      var front := requests[..n];
      InstructionsFromRequests(front, options, level, own);
      var a := Instructions(front, options, level, own);
      var tail := if Selected(requests[n], options, own) then [InstructionFor(requests[n], level, own)] else [];
      var body := Instructions(requests, options, level, own);
      assert body == a + tail;
      forall i | 0 <= i < |body|
        ensures IssuedBy(body[i], requests, options, level, own)
      {
        if i < |a| {
          assert body[i] == a[i];
          var j :| 0 <= j < |front| && Selected(front[j], options, own) && a[i] == InstructionFor(front[j], level, own);
          assert requests[j] == front[j];
        } else {
          assert body[i] == InstructionFor(requests[n], level, own);
        }
      }
    }
  }

  /** The part is the instruction of some selected request. */
  predicate IssuedBy(p: Part, requests: seq<Request>, options: seq<string>, level: Level, own: string) {
    exists j :: 0 <= j < |requests| && Selected(requests[j], options, own) && p == InstructionFor(requests[j], level, own)
  }

  /** An accepted prompt: the base part, the instructions, the lock part and
      the example, whose object names the title and then exactly the keys the
      instructions asked for, in the same order; with options, every
      instruction is the one a selected request issues at `level`, and a key
      is asked for exactly when a selected request carries it. */
  ghost predicate PromptShaped(parts: seq<Part>, requests: seq<Request>, options: Option<seq<string>>, level: Level, own: string) {
    |parts| >= 3 &&
    var body := parts[1..|parts| - 2];
    parts[0].Base? && parts[|parts| - 2] == Lock && parts[|parts| - 1].Example? &&
    (forall i :: 0 <= i < |body| ==> body[i].Instruction?) &&
    parts[|parts| - 1].keys == [Title] + KeysOf(body) &&
    (options.Some? ==> forall i :: 0 <= i < |body| ==> IssuedBy(body[i], requests, options.value, level, own)) &&
    (forall k :: InPrompt(parts, k) <==>
      options.Some? && exists j :: 0 <= j < |requests| && requests[j].key == k && Selected(requests[j], options.value, own))
  }

  /** The system prompt fails exactly when a selected language is not in
      the list or the options are missing where nothing guards them; it is
      otherwise the base part, the instructions, the lock part and the
      example, whose object names the title and then exactly the keys the
      instructions asked for, in the same order. */
  lemma SystemPromptShape(pv: PromptVariant, options: Option<seq<string>>, verbosity: string,
                          summaryLanguage: string, titleLanguage: string, own: string,
                          languages: seq<Language>)
    requires DistinctRequests(pv.requests)
    ensures var r := SystemPromptSpec(pv, options, verbosity, summaryLanguage, titleLanguage, own, languages);
      (r.Err? <==>
        (summaryLanguage != "" && forall l :: l in languages ==> l.value != summaryLanguage) ||
        (pv.titleLanguage && titleLanguage != "" && forall l :: l in languages ==> l.value != titleLanguage) ||
        (options.None? && !pv.optionsGuarded)) &&
      (r.Ok? ==> PromptShaped(r.value, pv.requests, options, LevelOf(pv, verbosity), own))
  {
    var r := SystemPromptSpec(pv, options, verbosity, summaryLanguage, titleLanguage, own, languages);
    if r.Ok? {
      var summaryLang := if summaryLanguage != "" then Find(languages, summaryLanguage) else None;
      var titleLang := if pv.titleLanguage && titleLanguage != "" then Find(languages, titleLanguage) else None;
      var values := if summaryLang.Some? then In(summaryLang.value) else SameAsTranscript;
      var title := if !pv.titleLanguage then None
                   else if titleLang.Some? then Some(In(titleLang.value))
                   else Some(values);
      BuiltPromptShape(pv.requests, options, LevelOf(pv, verbosity), own, summaryLang, values, title);
    }
  }

  /** An example part adds no instruction. */
  lemma InPromptTail(head: seq<Part>, last: Part, k: Key)
    requires !last.Instruction?
    ensures InPrompt(head + [last], k) <==> InPrompt(head, k)
  {
    var parts := head + [last];
    if InPrompt(parts, k) {
      var i :| 0 <= i < |parts| && parts[i].Instruction? && parts[i].key == k;
      assert head[i] == parts[i];
    }
    if InPrompt(head, k) {
      var i :| 0 <= i < |head| && head[i].Instruction? && head[i].key == k;
      assert parts[i] == head[i];
    }
  }

  /** The assembled prompt has the accepted shape. */
  lemma BuiltPromptShape(requests: seq<Request>, options: Option<seq<string>>, level: Level, own: string,
                         summaryLang: Option<Language>, values: Tongue, title: Option<Tongue>)
    requires DistinctRequests(requests)
    ensures PromptShaped(AssembledPrompt(summaryLang, requests, options, level, own, values, title), requests, options, level, own)
  {
    AssembledFrame(summaryLang, requests, options, level, own, values, title);
    AssembledExampleKeys(summaryLang, requests, options, level, own, values, title);
    AssembledKeysAsked(summaryLang, requests, options, level, own, values, title);
  }

  /** Base first, lock and example last, and between them instructions, each
      one a selected request issues. */
  lemma AssembledFrame(summaryLang: Option<Language>, requests: seq<Request>, options: Option<seq<string>>,
                       level: Level, own: string, values: Tongue, title: Option<Tongue>)
    ensures var parts := AssembledPrompt(summaryLang, requests, options, level, own, values, title);
      |parts| >= 3 &&
      var body := parts[1..|parts| - 2];
      parts[0].Base? && parts[|parts| - 2] == Lock && parts[|parts| - 1].Example? &&
      (forall i :: 0 <= i < |body| ==> body[i].Instruction?) &&
      (options.Some? ==> forall i :: 0 <= i < |body| ==> IssuedBy(body[i], requests, options.value, level, own))
  {
    AssembledBody(summaryLang, requests, options, level, own, values, title);
    if options.Some? {
      InstructionsIssued(requests, options.value, level, own);
    }
  }

  /** Base first, lock and example last, and between them the instructions. */
  lemma AssembledBody(summaryLang: Option<Language>, requests: seq<Request>, options: Option<seq<string>>,
                      level: Level, own: string, values: Tongue, title: Option<Tongue>)
    ensures var parts := AssembledPrompt(summaryLang, requests, options, level, own, values, title);
      |parts| >= 3 && parts[0].Base? && parts[|parts| - 2] == Lock && parts[|parts| - 1].Example? &&
      parts[1..|parts| - 2] == if options.None? then [] else Instructions(requests, options.value, level, own)
  {
    var body := if options.None? then [] else Instructions(requests, options.value, level, own);
    var last := Example([Title] + Mentioned(requests, [Base(summaryLang)] + body + [Lock]), values, title);
    AssembledParts(summaryLang, body, last);
  }

  /** Every instruction is one a selected request issues. */
  lemma InstructionsIssued(requests: seq<Request>, options: seq<string>, level: Level, own: string)
    ensures var body := Instructions(requests, options, level, own);
      forall i :: 0 <= i < |body| ==> body[i].Instruction? && IssuedBy(body[i], requests, options, level, own)
  {
    InstructionsFromRequests(requests, options, level, own);
  }

  /** The example names the title and then exactly the keys of the
      instructions, in order. */
  lemma AssembledExampleKeys(summaryLang: Option<Language>, requests: seq<Request>, options: Option<seq<string>>,
                             level: Level, own: string, values: Tongue, title: Option<Tongue>)
    requires DistinctRequests(requests)
    ensures var parts := AssembledPrompt(summaryLang, requests, options, level, own, values, title);
      |parts| >= 3 && parts[|parts| - 1].Example? && parts[|parts| - 1].keys == [Title] + KeysOf(parts[1..|parts| - 2])
  {
    var body := if options.None? then [] else Instructions(requests, options.value, level, own);
    var head := [Base(summaryLang)] + body + [Lock];
    var last := Example([Title] + Mentioned(requests, head), values, title);
    AssembledParts(summaryLang, body, last);
    if options.Some? {
      forall k ensures InPrompt(head, k) <==> InPrompt(body, k) {
        InPromptHead(summaryLang, body, k);
      }
      InstructionKeys(requests, head, options.value, level, own);
    } else {
      assert Mentioned(requests, head) == [] by {
        forall k ensures !InPrompt(head, k) {
          InPromptHead(summaryLang, body, k);
        }
        NoneMentioned(requests, head);
      }
    }
  }

  /** A key is asked for exactly when a selected request carries it. */
  lemma AssembledKeysAsked(summaryLang: Option<Language>, requests: seq<Request>, options: Option<seq<string>>,
                           level: Level, own: string, values: Tongue, title: Option<Tongue>)
    ensures var parts := AssembledPrompt(summaryLang, requests, options, level, own, values, title);
      forall k :: InPrompt(parts, k) <==>
        options.Some? && exists j :: 0 <= j < |requests| && requests[j].key == k && Selected(requests[j], options.value, own)
  {
    var body := if options.None? then [] else Instructions(requests, options.value, level, own);
    var last := Example([Title] + Mentioned(requests, [Base(summaryLang)] + body + [Lock]), values, title);
    AssembledParts(summaryLang, body, last);
    if options.Some? {
      forall k ensures InPrompt(body, k) <==>
        exists j :: 0 <= j < |requests| && requests[j].key == k && Selected(requests[j], options.value, own)
      {
        InstructionsAsked(requests, options.value, level, own, k);
      }
    }
  }

  /** Base, body, lock and a final non-instruction part: the body sits
      between the first part and the last two, and a key is asked for
      exactly when the body asks for it. */
  lemma AssembledParts(prefix: Option<Language>, body: seq<Part>, last: Part)
    requires !last.Instruction?
    ensures var parts := [Base(prefix)] + body + [Lock] + [last];
      |parts| >= 3 && parts[0] == Base(prefix) && parts[|parts| - 2] == Lock && parts[|parts| - 1] == last &&
      parts[1..|parts| - 2] == body &&
      forall k :: InPrompt(parts, k) <==> InPrompt(body, k)
  {
    var head := [Base(prefix)] + body + [Lock];
    var parts := head + [last];
    assert parts[1..|parts| - 2] == body;
    forall k ensures InPrompt(parts, k) <==> InPrompt(body, k) {
      InPromptHead(prefix, body, k);
      InPromptTail(head, last, k);
    }
  }

  lemma {:induction false} NoneMentioned(requests: seq<Request>, parts: seq<Part>)
    requires forall k :: !InPrompt(parts, k)
    ensures Mentioned(requests, parts) == []
  {
    if requests != [] {
      NoneMentioned(requests[..|requests| - 1], parts);
    }
  }

  /** Which languages the answer is asked to be written in. */
  lemma PromptLanguages(pv: PromptVariant, options: Option<seq<string>>, verbosity: string,
                        summaryLanguage: string, titleLanguage: string, own: string,
                        languages: seq<Language>)
    ensures var r := SystemPromptSpec(pv, options, verbosity, summaryLanguage, titleLanguage, own, languages);
      r.Ok? ==>
        var parts := r.value;
        var example := parts[|parts| - 1];
        (example.values.In? <==> summaryLanguage != "") &&
        (example.values.In? ==> example.values.language in languages && example.values.language.value == summaryLanguage) &&
        (parts[0].prefix.Some? <==> example.values.In?) &&
        (parts[0].prefix.Some? ==> parts[0].prefix.value == example.values.language) &&
        (example.title.Some? <==> pv.titleLanguage) &&
        (example.title.Some? ==>
          (example.title.value.In? <==> titleLanguage != "" || summaryLanguage != "") &&
          (example.title.value.In? ==>
            example.title.value.language in languages &&
            example.title.value.language.value == (if titleLanguage != "" then titleLanguage else summaryLanguage)))
  {
  }

  // ------------------------------------------------------- the tables agree

  /** The request asks for the field's key under the field's option. */
  predicate Matches(q: Request, f: Field) {
    q.key == f.key &&
    if f.kind.Custom? then q.gate == OwnInstruction else f.gate.Some? && q.gate == Labelled(f.gate.value)
  }

  lemma StandardMatches()
    ensures |StandardRequests| == |ChatVariants.StandardFields|
    ensures forall i :: 0 <= i < |StandardRequests| ==> Matches(StandardRequests[i], ChatVariants.StandardFields[i])
  {
  }

  lemma DiaryMatches()
    ensures |DiaryRequests| == |ChatVariants.DiaryFields|
    ensures forall i :: 0 <= i < |DiaryRequests| ==> Matches(DiaryRequests[i], ChatVariants.DiaryFields[i])
  {
  }

  lemma CommonMatches(e: Json.Json)
    ensures |CommonRequests| == |ChatVariants.CommonFields(e)|
    ensures forall i :: 0 <= i < |CommonRequests| ==> Matches(CommonRequests[i], ChatVariants.CommonFields(e)[i])
  {
  }

  /** Kamil's and Nagraniepraw's prompt asks for a key exactly when their
      `formatChat` publishes that key for the same options. */
  lemma JournalAsksWhatIsPublished(v: Variant, options: seq<string>, own: string)
    requires v == ChatVariants.Kamil || v == ChatVariants.Nagraniepraw
    ensures |Journal.requests| == |v.fields|
    ensures forall i :: 0 <= i < |v.fields| ==>
      Journal.requests[i].key == v.fields[i].key &&
      (Selected(Journal.requests[i], options, own) <==>
        if v.fields[i].kind.Custom? then own != "" && own in options else Enabled(v.fields[i], options))
  {
    var e := if v == ChatVariants.Kamil then Json.JStr("Brak \U{017A}r\U{00F3}de\U{0142} do przejrzenia") else ChatVariants.NoResources;
    assert v.fields == ChatVariants.StandardFields + ChatVariants.DiaryFields + ChatVariants.CommonFields(e);
    StandardMatches();
    DiaryMatches();
    CommonMatches(e);
    var rs := Journal.requests;
    var fs := v.fields;
    forall i | 0 <= i < |fs| ensures Matches(rs[i], fs[i]) {
      if i < 9 {
        assert rs[i] == StandardRequests[i] && fs[i] == ChatVariants.StandardFields[i];
      } else if i < 18 {
        assert rs[i] == DiaryRequests[i - 9] && fs[i] == ChatVariants.DiaryFields[i - 9];
      } else {
        assert rs[i] == CommonRequests[i - 18] && fs[i] == ChatVariants.CommonFields(e)[i - 18];
      }
    }
  }

  predicate AscendingRequests(requests: seq<Request>) {
    forall i :: 0 < i < |requests| ==> ChatVariants.Ordinal(requests[i - 1].key) < ChatVariants.Ordinal(requests[i].key)
  }

  lemma {:induction false} AscendingApart(requests: seq<Request>, i: nat, j: nat)
    requires AscendingRequests(requests) && i < j < |requests|
    ensures ChatVariants.Ordinal(requests[i].key) < ChatVariants.Ordinal(requests[j].key)
    decreases j - i
  {
    if i + 1 < j {
      AscendingApart(requests, i + 1, j);
    }
  }

  lemma AscendingDistinct(requests: seq<Request>)
    requires AscendingRequests(requests)
    ensures DistinctRequests(requests)
  {
    forall i, j | 0 <= i < j < |requests| ensures requests[i].key != requests[j].key {
      AscendingApart(requests, i, j);
    }
  }

  lemma {:induction false} AscendingRequestsJoin(a: seq<Request>, b: seq<Request>)
    requires AscendingRequests(a) && AscendingRequests(b)
    requires a != [] && b != [] && ChatVariants.Ordinal(a[|a| - 1].key) < ChatVariants.Ordinal(b[0].key)
    ensures AscendingRequests(a + b)
  {
    var ab := a + b;
    forall i | 0 < i < |ab| ensures ChatVariants.Ordinal(ab[i - 1].key) < ChatVariants.Ordinal(ab[i].key) {
      if i < |a| {
        assert ab[i - 1] == a[i - 1] && ab[i] == a[i];
      } else if i == |a| {
        assert ab[i - 1] == a[|a| - 1] && ab[i] == b[0];
      } else {
        assert ab[i - 1] == b[i - 1 - |a|] && ab[i] == b[i - |a|];
      }
    }
  }

  /** A key whose ordinal falls strictly between two neighbours of an ascending table is not asked for. */
  lemma RequestsGap(requests: seq<Request>, p: nat, k: Key)
    requires AscendingRequests(requests) && 0 < p < |requests|
    requires ChatVariants.Ordinal(requests[p - 1].key) < ChatVariants.Ordinal(k) < ChatVariants.Ordinal(requests[p].key)
    ensures forall i :: 0 <= i < |requests| ==> requests[i].key != k
  {
    forall i | 0 <= i < |requests| ensures requests[i].key != k {
      if i < p - 1 {
        AscendingApart(requests, i, p - 1);
      } else if p < i {
        AscendingApart(requests, p, i);
      }
    }
  }

  lemma StandardRequestsAscending()
    ensures AscendingRequests(StandardRequests) && StandardRequests[|StandardRequests| - 1].key == Chapters
  {
    forall i | 0 < i < |StandardRequests|
      ensures ChatVariants.Ordinal(StandardRequests[i - 1].key) < ChatVariants.Ordinal(StandardRequests[i].key)
    {
      if i == 1 {} else if i == 2 {} else if i == 3 {} else if i == 4 {}
      else if i == 5 {} else if i == 6 {} else if i == 7 {} else {}
    }
  }

  lemma DiaryRequestsAscending()
    ensures AscendingRequests(DiaryRequests)
    ensures DiaryRequests[0].key == DayOverview && DiaryRequests[|DiaryRequests| - 1].key == DayRating
  {
    forall i | 0 < i < |DiaryRequests|
      ensures ChatVariants.Ordinal(DiaryRequests[i - 1].key) < ChatVariants.Ordinal(DiaryRequests[i].key)
    {
      if i == 1 {} else if i == 2 {} else if i == 3 {} else if i == 4 {}
      else if i == 5 {} else if i == 6 {} else if i == 7 {} else {}
    }
  }

  lemma CommonRequestsAscending()
    ensures AscendingRequests(CommonRequests) && CommonRequests[0].key == AiRecommendations
  {
  }

  lemma JournalRequestsAscending()
    ensures AscendingRequests(Journal.requests)
  {
    StandardRequestsAscending();
    DiaryRequestsAscending();
    CommonRequestsAscending();
    var sd := StandardRequests + DiaryRequests;
    assert sd[|sd| - 1] == DiaryRequests[|DiaryRequests| - 1];
    AscendingRequestsJoin(StandardRequests, DiaryRequests);
    AscendingRequestsJoin(sd, CommonRequests);
  }

  lemma RecordingRequestsAscending()
    ensures AscendingRequests(RecordingRequests)
  {
    forall i | 0 < i < |RecordingRequests|
      ensures ChatVariants.Ordinal(RecordingRequests[i - 1].key) < ChatVariants.Ordinal(RecordingRequests[i].key)
    {
      if i == 1 {} else if i == 2 {} else if i == 3 {} else if i == 4 {}
      else if i == 5 {} else if i == 6 {} else if i == 7 {} else {}
    }
  }

  /** Notion-Voice-Notes asks for `sentiment` last; the rest is in key order. */
  lemma VoiceNotesRequestsRuns()
    ensures |VoiceNotesRequests| == 9 && AscendingRequests(VoiceNotesRequests[..8])
    ensures VoiceNotesRequests[0].key == Summary && VoiceNotesRequests[1].key == MainPoints
    ensures VoiceNotesRequests[8].key == Sentiment
  {
    var r := VoiceNotesRequests;
    forall i | 0 < i < 8 ensures ChatVariants.Ordinal(r[i - 1].key) < ChatVariants.Ordinal(r[i].key) {
      if i == 1 {} else if i == 2 {} else if i == 3 {} else if i == 4 {}
      else if i == 5 {} else if i == 6 {} else {}
    }
    assert AscendingRequests(r[..8]);
  }

  lemma VoiceNotesRequestsDistinct()
    ensures DistinctRequests(VoiceNotesRequests)
  {
    var r := VoiceNotesRequests;
    var front := r[..8];
    VoiceNotesRequestsRuns();
    AscendingDistinct(front);
    RequestsGap(front, 1, Sentiment);
    forall i, j | 0 <= i < j < |r| ensures r[i].key != r[j].key {
      assert r[i] == front[i];
      if j < 8 {
        assert r[j] == front[j];
      }
    }
  }

  /** No table asks for a key twice. */
  lemma TablesDistinct()
    ensures DistinctRequests(Journal.requests)
    ensures DistinctRequests(Recording.requests)
    ensures DistinctRequests(VoiceNotes.requests)
  {
    JournalRequestsAscending();
    AscendingDistinct(Journal.requests);
    RecordingRequestsAscending();
    AscendingDistinct(RecordingRequests);
    VoiceNotesRequestsDistinct();
  }
}
