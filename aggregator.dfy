/**
  The result aggregator (`formatChat`): every chunk's chat answer is parsed
  into a JSON object, the objects are folded field by field, and one final
  summary is assembled from the fields the user selected.

  The four variants differ only in data, so one engine is driven by a
  per-variant table of fields (`Variant`): which key, which option enables
  it, how its parts are joined and what placeholder stands in when nothing
  was produced.
*/
module Aggregator {
  import opened Wrappers
  import opened JsText
  import opened Json
  import opened TextOrder
  import JsonRepair

  /** One chat completion as `formatChat` reads it.
      `content`: `None` when `result.choices[0].message` cannot be read,
      `Some(None)` when the content is null.
      `totalTokens`: `None` when `result.usage` is missing; a missing
      `total_tokens` inside a present `usage` reads as `Some(0)`.
      `Undefined`: the chat call resolved to `undefined`; reading it throws,
      and so does a `catch` that reads `result.usage`. */
  datatype ChatResult = ChatResult(content: Option<Option<string>>, totalTokens: Option<int>) | Undefined

  /** The variant's `repairJSON`; `None` means that it throws. */
  type ChunkParser = Option<string> -> Option<Json>

  /** One entry of `resultsArray`. */
  datatype Processed = Processed(choice: Json, usage: int)

  datatype Kind =
    | Text(emptyText: Option<string>)       // parts joined with " ", or the placeholder when that is ""
    | List(emptyList: Option<Json>)          // parts flattened, or `[placeholder]` when that is empty
    | Topics(capitalise: bool, guarded: bool) // de-duplicated, lower-cased, sorted topics
    | Rating                                 // the largest `day_rating`, 50 when none
    | Custom                                 // answers to the user's own instruction
    | FirstOnly                              // the first chunk's value, as is

  /** The keys of a chat answer and of the final response. */
  datatype Key =
    | Title | Tokens | Summary | Sentiment | MainPoints | ActionItems | FollowUp | Stories
    | References | Arguments | RelatedTopics | Chapters | DayOverview | KeyEvents | Achievements
    | Challenges | Insights | ActionPlan | PersonalGrowth | Reflection | DayRating
    | AiRecommendations | ResourcesToCheck | CustomInstructions

  /** The key's name in the JSON objects. */
  function KeyName(k: Key): string {
    match k
    case Title => "title"
    case Tokens => "tokens"
    case Summary => "summary"
    case Sentiment => "sentiment"
    case MainPoints => "main_points"
    case ActionItems => "action_items"
    case FollowUp => "follow_up"
    case Stories => "stories"
    case References => "references"
    case Arguments => "arguments"
    case RelatedTopics => "related_topics"
    case Chapters => "chapters"
    case DayOverview => "day_overview"
    case KeyEvents => "key_events"
    case Achievements => "achievements"
    case Challenges => "challenges"
    case Insights => "insights"
    case ActionPlan => "action_plan"
    case PersonalGrowth => "personal_growth"
    case Reflection => "reflection"
    case DayRating => "day_rating"
    case AiRecommendations => "ai_recommendations"
    case ResourcesToCheck => "resources_to_check"
    case CustomInstructions => "custom_instructions"
  }

  /** `finalChatResponse`. */
  type Response = map<Key, Json>

  /** `gate`: the summary option that enables the field; `None`: always present. */
  datatype Field = Field(key: Key, gate: Option<string>, kind: Kind)

  datatype Variant = Variant(
    recover: bool,                 // a chunk that throws is replaced by `RecoveryChoice`
    truthyOnly: bool,              // a part is pushed only when it is truthy
    textDefault: Json,             // what a falsy text part is pushed as otherwise
    titleDefault: string,          // `title ?? titleDefault`
    titleFallback: Option<string>, // then `|| titleFallback`
    fields: seq<Field>)

  /** The accumulator of one field. */
  datatype Slot = Parts(items: seq<Json>) | Best(rating: int) | Unused

  const TransientTitle := "Transkrypcja audio"

  /** The stand-in answer a recovering variant uses for a chunk that throws. */
  const RecoveryChoice: Json := JObj(map[
    "title" := JStr(TransientTitle),
    "summary" := JStr("Nie uda\U{0142}o si\U{0119} przetworzy\U{0107} odpowiedzi."),
    "main_points" := JArr([JStr("Brak danych")]),
    "action_items" := JArr([JStr("Brak danych")]),
    "follow_up" := JArr([JStr("Brak danych")])])

  /** Stands for the error a chunk without a `catch` rethrows (a `TypeError`
      on an undefined answer or usage, or the parser's own error); the
      model keeps only that `formatChat` rejects, not which message. */
  const ChunkFailed := "formatChat: a chat answer could not be read"
  const NotAString := "item.toLowerCase is not a function"
  const UndefinedSet := "Cannot read properties of undefined (reading 'length')"

  // ---------------------------------------------------------------- chunks

  /** The `try` block for one chunk; `None` when any step of it throws. */
  function ReadChunk(r: ChatResult, parseChunk: ChunkParser): Option<Processed> {
    if r.Undefined? || r.content.None? || r.totalTokens.None? then None
    else match parseChunk(r.content.value)
      case None => None
      case Some(choice) => Some(Processed(choice, r.totalTokens.value))
  }

  /** The chunk after the variant's `catch`, if it has one; `None` when
      `formatChat` as a whole rejects. */
  function Recovered(v: Variant, r: ChatResult, parseChunk: ChunkParser): (p: Option<Processed>)
    ensures ReadChunk(r, parseChunk).Some? ==> p == ReadChunk(r, parseChunk)
    ensures ReadChunk(r, parseChunk).None? ==>
      p == (if v.recover && r.ChatResult? then Some(Processed(RecoveryChoice, r.totalTokens.GetOr(0))) else None)
  {
    match ReadChunk(r, parseChunk)
    case Some(p) => Some(p)
    case None => if v.recover && r.ChatResult? then Some(Processed(RecoveryChoice, r.totalTokens.GetOr(0))) else None
  }

  /** `prefix` followed by `rest`, when `rest` did not reject. */
  function Glue(prefix: seq<Processed>, rest: Option<seq<Processed>>): Option<seq<Processed>> {
    if rest.None? then None else Some(prefix + rest.value)
  }

  /** `resultsArray`, or `None` when a chunk throws and is not recovered. */
  function ResultsOf(v: Variant, chunks: seq<ChatResult>, parseChunk: ChunkParser): Option<seq<Processed>> {
    if chunks == [] then Some([])
    else match Recovered(v, chunks[0], parseChunk)
      case None => None
      case Some(p) => Glue([p], ResultsOf(v, chunks[1..], parseChunk))
  }

  /** A recovering variant keeps every chunk, in order: each one's parsed
      answer, or the stand-in when reading it throws; only an `undefined`
      chunk makes it reject. A variant without recovery rejects exactly
      when some chunk throws. */
  lemma {:induction false} ResultsKeepOrder(v: Variant, chunks: seq<ChatResult>, parseChunk: ChunkParser)
    ensures v.recover ==>
      (ResultsOf(v, chunks, parseChunk).Some? <==> forall i :: 0 <= i < |chunks| ==> chunks[i].ChatResult?)
    ensures ResultsOf(v, chunks, parseChunk).Some? ==>
      var rs := ResultsOf(v, chunks, parseChunk).value;
      |rs| == |chunks| &&
      forall i :: 0 <= i < |chunks| ==> Some(rs[i]) == Recovered(v, chunks[i], parseChunk)
    ensures !v.recover ==>
      (ResultsOf(v, chunks, parseChunk).None? <==> exists i :: 0 <= i < |chunks| && ReadChunk(chunks[i], parseChunk).None?)
  {
    if chunks != [] {
      ResultsKeepOrder(v, chunks[1..], parseChunk);
      var tail := chunks[1..];
      assert forall i :: 0 < i < |chunks| ==> chunks[i] == tail[i - 1];
      if !v.recover && ReadChunk(chunks[0], parseChunk).Some? && ResultsOf(v, chunks, parseChunk).None? {
        var k :| 0 <= k < |tail| && ReadChunk(tail[k], parseChunk).None?;
        assert ReadChunk(chunks[k + 1], parseChunk).None?;
      }
      if v.recover && chunks[0].ChatResult? && ResultsOf(v, chunks, parseChunk).None? {
        var k :| 0 <= k < |tail| && tail[k].Undefined?;
        assert chunks[k + 1].Undefined?;
      }
    }
  }

  // ---------------------------------------------------------- the reduce

  /** What one chunk's answer pushes onto a field's parts. */
  function Pushed(v: Variant, f: Field, choice: Json): seq<Json> {
    var x := Get(choice, KeyName(f.key));
    if f.kind.Custom? || v.truthyOnly then (if Truthy(x) then [x] else [])
    else if f.kind.Text? then [Or(x, v.textDefault)]
    else [Or(x, JArr([]))]
  }

  /** `day_rating || 0`; a rating that is not a number counts as 0. */
  function RatingOf(x: Json): int {
    if x.JNum? then x.n else 0
  }

  function InitSlot(f: Field): Slot {
    if f.kind.Rating? then Best(0) else if f.kind.FirstOnly? then Unused else Parts([])
  }

  function StepSlot(v: Variant, f: Field, s: Slot, choice: Json): Slot {
    match s
    case Parts(items) => Parts(items + Pushed(v, f, choice))
    case Best(b) => var r := RatingOf(Get(choice, KeyName(f.key))); Best(if r > b then r else b)
    case Unused => Unused
  }

  /** The field's accumulator after `results`; a falsy answer is skipped. */
  function Fold(v: Variant, f: Field, results: seq<Processed>): Slot {
    if results == [] then InitSlot(f)
    else
      var s := Fold(v, f, results[..|results| - 1]);
      var last := results[|results| - 1];
      if Truthy(last.choice) then StepSlot(v, f, s, last.choice) else s
  }

  function Slots(v: Variant, results: seq<Processed>): (r: seq<Slot>)
    ensures |r| == |v.fields|
  {
    seq(|v.fields|, j requires 0 <= j < |v.fields| => Fold(v, v.fields[j], results))
  }

  /** `usageArray`: the usage of every chunk whose answer is truthy. */
  function Usage(results: seq<Processed>): seq<int> {
    if results == [] then []
    else
      var last := results[|results| - 1];
      Usage(results[..|results| - 1]) + (if Truthy(last.choice) then [last.usage] else [])
  }

  function Sum(xs: seq<int>): int {
    if xs == [] then 0 else Sum(xs[..|xs| - 1]) + xs[|xs| - 1]
  }

  function ItemsOf(s: Slot): seq<Json> {
    if s.Parts? then s.items else []
  }

  /** A list or text field's parts on their own: what each truthy answer
      pushes, in chunk order. `Fold` carries the same list inside a slot,
      next to the rating and first-only slots; without the slot the list
      splits over consecutive runs of chunks (`ContributionsAppend`). */
  function Contributions(v: Variant, f: Field, results: seq<Processed>): seq<Json> {
    if results == [] then []
    else
      var last := results[|results| - 1];
      Contributions(v, f, results[..|results| - 1]) + (if Truthy(last.choice) then Pushed(v, f, last.choice) else [])
  }

  /** A field's parts are what each truthy answer pushed, in chunk order. */
  lemma {:induction false} PartsInChunkOrder(v: Variant, f: Field, results: seq<Processed>)
    requires !f.kind.Rating? && !f.kind.FirstOnly?
    ensures Fold(v, f, results) == Parts(Contributions(v, f, results))
  {
    if results != [] {
      PartsInChunkOrder(v, f, results[..|results| - 1]);
    }
  }

  /** Contributions of consecutive runs of chunks concatenate. */
  lemma {:induction false} ContributionsAppend(v: Variant, f: Field, a: seq<Processed>, b: seq<Processed>)
    ensures Contributions(v, f, a + b) == Contributions(v, f, a) + Contributions(v, f, b)
    decreases |b|
  {
    if b != [] {
      var b0, last := b[..|b| - 1], b[|b| - 1];
      var x := if Truthy(last.choice) then Pushed(v, f, last.choice) else [];
      assert (a + b)[..|a + b| - 1] == a + b0;
      assert (a + b)[|a + b| - 1] == last;
      assert Contributions(v, f, a + b) == Contributions(v, f, a + b0) + x;
      assert Contributions(v, f, b) == Contributions(v, f, b0) + x;
      ContributionsAppend(v, f, a, b0);
    } else {
      assert a + b == a;
    }
  }

  /** `day_rating` ends as the largest rating of a truthy answer, and 0 when
      none is positive. */
  lemma {:induction false} RatingIsMax(v: Variant, f: Field, results: seq<Processed>)
    requires f.kind.Rating?
    ensures Fold(v, f, results).Best?
    ensures Fold(v, f, results).rating >= 0
    ensures forall i :: 0 <= i < |results| && Truthy(results[i].choice) ==>
      RatingOf(Get(results[i].choice, KeyName(f.key))) <= Fold(v, f, results).rating
    ensures Fold(v, f, results).rating == 0 ||
      exists i :: 0 <= i < |results| && Truthy(results[i].choice) &&
        RatingOf(Get(results[i].choice, KeyName(f.key))) == Fold(v, f, results).rating
  {
    if results != [] {
      var init := results[..|results| - 1];
      RatingIsMax(v, f, init);
      assert forall i :: 0 <= i < |init| ==> init[i] == results[i];
      var m := Fold(v, f, init).rating;
      if m != 0 && Fold(v, f, results).rating == m {
        var i :| 0 <= i < |init| && Truthy(init[i].choice) && RatingOf(Get(init[i].choice, KeyName(f.key))) == m;
        assert results[i] == init[i];
      }
    }
  }

  /** An enabled `day_rating` is published as the largest positive rating
      of a truthy answer, and as 50 when no answer rated the day above 0. */
  lemma RatingPublished(v: Variant, f: Field, results: seq<Processed>, options: seq<string>, custom: string, first: Json)
    requires f.kind.Rating? && Enabled(f, options)
    ensures var e := Emit(f, Fold(v, f, results), options, custom, first);
      e.Ok? && e.value.Some? && e.value.value.JNum? &&
      ((forall i :: 0 <= i < |results| && Truthy(results[i].choice) ==>
          RatingOf(Get(results[i].choice, KeyName(f.key))) <= 0) ==> e.value.value.n == 50) &&
      ((exists i :: 0 <= i < |results| && Truthy(results[i].choice) &&
          RatingOf(Get(results[i].choice, KeyName(f.key))) > 0) ==>
        (forall i :: 0 <= i < |results| && Truthy(results[i].choice) ==>
          RatingOf(Get(results[i].choice, KeyName(f.key))) <= e.value.value.n) &&
        exists i :: 0 <= i < |results| && Truthy(results[i].choice) &&
          RatingOf(Get(results[i].choice, KeyName(f.key))) == e.value.value.n)
  {
    RatingIsMax(v, f, results);
  }

  /** `tokens` add up over consecutive runs of chunks. */
  lemma {:induction false} TokensAdd(a: seq<Processed>, b: seq<Processed>)
    ensures Usage(a + b) == Usage(a) + Usage(b)
    ensures Sum(Usage(a + b)) == Sum(Usage(a)) + Sum(Usage(b))
    decreases |b|
  {
    if b != [] {
      var b0, last := b[..|b| - 1], b[|b| - 1];
      var x := if Truthy(last.choice) then [last.usage] else [];
      assert (a + b)[..|a + b| - 1] == a + b0;
      assert (a + b)[|a + b| - 1] == last;
      assert Usage(a + b) == Usage(a + b0) + x;
      assert Usage(b) == Usage(b0) + x;
      TokensAdd(a, b0);
      SumAppend(Usage(a), Usage(b));
    } else {
      assert a + b == a && Usage(a) + Usage(b) == Usage(a);
    }
  }

  lemma {:induction false} SumAppend(xs: seq<int>, ys: seq<int>)
    ensures Sum(xs + ys) == Sum(xs) + Sum(ys)
    decreases |ys|
  {
    if ys != [] {
      var y0 := ys[..|ys| - 1];
      assert (xs + ys)[..|xs + ys| - 1] == xs + y0;
      assert (xs + ys)[|xs + ys| - 1] == ys[|ys| - 1];
      assert Sum(xs + ys) == Sum(xs + y0) + ys[|ys| - 1];
      SumAppend(xs, y0);
    } else {
      assert xs + ys == xs;
    }
  }

  /** One step of the reduce: every field's accumulator takes the answer. */
  method PushChoice(v: Variant, slots: seq<Slot>, choice: Json) returns (r: seq<Slot>)
    requires |slots| == |v.fields|
    ensures |r| == |slots|
    ensures forall j :: 0 <= j < |slots| ==> r[j] == StepSlot(v, v.fields[j], slots[j], choice)
  {
    r := slots;
    for j := 0 to |slots|
      invariant |r| == |slots|
      invariant forall k :: 0 <= k < j ==> r[k] == StepSlot(v, v.fields[k], slots[k], choice)
      invariant forall k :: j <= k < |slots| ==> r[k] == slots[k]
    {
      r := r[j := StepSlot(v, v.fields[j], slots[j], choice)];
    }
  }

  /** The `resultsArray.reduce(...)` pass. */
  method Reduce(v: Variant, resultsArray: seq<Processed>) returns (slots: seq<Slot>, usageArray: seq<int>)
    ensures slots == Slots(v, resultsArray)
    ensures usageArray == Usage(resultsArray)
  {
    slots := Slots(v, []);
    usageArray := [];
    for i := 0 to |resultsArray|
      invariant slots == Slots(v, resultsArray[..i])
      invariant usageArray == Usage(resultsArray[..i])
    {
      var curr := resultsArray[i];
      ghost var pre := resultsArray[..i + 1];
      assert pre[..|pre| - 1] == resultsArray[..i] && pre[|pre| - 1] == curr;
      if Truthy(curr.choice) {
        var next := PushChoice(v, slots, curr.choice);
        slots := next;
        usageArray := usageArray + [curr.usage];
      }
      assert forall j :: 0 <= j < |v.fields| ==> slots[j] == Fold(v, v.fields[j], pre);
    }
    assert resultsArray[..|resultsArray|] == resultsArray;
  }

  // --------------------------------------------------- the final response

  predicate Enabled(f: Field, options: seq<string>) {
    f.gate.None? || f.gate.value in options
  }

  /** `item !== undefined && item !== null && item !== ""`. */
  predicate Present(j: Json) {
    !j.JNull? && j != JStr("")
  }

  function FilterPresent(xs: seq<Json>): (r: seq<Json>)
    ensures forall y :: y in r <==> y in xs && Present(y)
  {
    if xs == [] then []
    else (if Present(xs[0]) then [xs[0]] else []) + FilterPresent(xs[1..])
  }

  predicate AllStrings(xs: seq<Json>) {
    forall i :: 0 <= i < |xs| ==> xs[i].JStr?
  }

  function LowerAll(xs: seq<Json>): (r: seq<string>)
    requires AllStrings(xs)
    ensures |r| == |xs| && forall i :: 0 <= i < |xs| ==> r[i] == Lower(xs[i].s)
  {
    if xs == [] then [] else [Lower(xs[0].s)] + LowerAll(xs[1..])
  }

  function CapitaliseAll(xs: seq<string>): (r: seq<string>)
    ensures |r| == |xs| && forall i :: 0 <= i < |xs| ==> r[i] == Capitalise(xs[i])
  {
    if xs == [] then [] else [Capitalise(xs[0])] + CapitaliseAll(xs[1..])
  }

  /** `filtered_related_set`: `Ok(None)` while at most one topic is present;
      an error when the lower-casing meets something that is not a string. */
  function TopicSet(items: seq<Json>): Result<Option<seq<string>>> {
    var filtered := FilterPresent(Flat(items));
    if |filtered| <= 1 then Ok(None)
    else if !AllStrings(filtered) then Err(NotAString)
    else Ok(Some(Dedupe(LowerAll(filtered))))
  }

  /** The published topic list. */
  function TopicList(topics: seq<string>, capitalise: bool): seq<Json> {
    Strs(Sort(if capitalise then CapitaliseAll(topics) else topics))
  }

  /** One field of `finalChatResponse`: `Ok(None)` when it is left out. */
  function Emit(f: Field, s: Slot, options: seq<string>, custom: string, first: Json): Result<Option<Json>> {
    var on := Enabled(f, options);
    match f.kind
    case Text(ph) =>
      var joined := JoinItems(ItemsOf(s), " ");
      if !on then Ok(None)
      else Ok(Some(JStr(if joined == "" && ph.Some? then ph.value else joined)))
    case List(ph) =>
      var flat := Flat(ItemsOf(s));
      if !on then Ok(None)
      else Ok(Some(JArr(if flat == [] && ph.Some? then [ph.value] else flat)))
    case Topics(capitalise, guarded) =>
      var found := TopicSet(ItemsOf(s));
      if found.Err? then Err(found.error)
      else if !on then Ok(None)
      else if found.value.None? then (if guarded then Ok(None) else Err(UndefinedSet))
      else if |found.value.value| > 1 then Ok(Some(JArr(TopicList(found.value.value, capitalise))))
      else Ok(None)
    case Rating =>
      var best := if s.Best? then s.rating else 0;
      if !on then Ok(None) else Ok(Some(JNum(if best == 0 then 50 else best)))
    case Custom =>
      var flat := Flat(ItemsOf(s));
      if custom != "" && custom in options && flat != [] then Ok(Some(JArr(flat))) else Ok(None)
    case FirstOnly =>
      if !on then Ok(None) else Ok(Some(Get(first, KeyName(f.key))))
  }

  /** The fields of `finalChatResponse`, added to `out` in table order. */
  function Assemble(fields: seq<Field>, slots: seq<Slot>, options: seq<string>, custom: string, first: Json,
                    out: Response): Result<Response>
    requires |slots| == |fields|
  {
    if fields == [] then Ok(out)
    else match Emit(fields[0], slots[0], options, custom, first)
      case Err(e) => Err(e)
      case Ok(o) =>
        Assemble(fields[1..], slots[1..], options, custom, first,
                 if o.Some? then out[fields[0].key := o.value] else out)
  }

  function First(results: seq<Processed>): Json {
    if results == [] then JNull else results[0].choice
  }

  function TitleOf(v: Variant, results: seq<Processed>): Json {
    var t := Coalesce(Get(First(results), KeyName(Title)), JStr(v.titleDefault));
    if v.titleFallback.Some? then Or(t, JStr(v.titleFallback.value)) else t
  }

  /** `formatChat(summaryArray)`. `custom` is the user's own instruction,
      "" when there is none. */
  function FormatChatSpec(v: Variant, options: seq<string>, custom: string,
                          chunks: seq<ChatResult>, parseChunk: ChunkParser): Result<Response> {
    match ResultsOf(v, chunks, parseChunk)
    case None => Err(ChunkFailed)
    case Some(results) =>
      match Assemble(v.fields, Slots(v, results), options, custom, First(results), map[Title := TitleOf(v, results)])
      case Err(e) => Err(e)
      case Ok(m) => Ok(m[Tokens := JNum(Sum(Usage(results)))])
  }

  // ------------------------------------------------- what the response is

  predicate DistinctKeys(fields: seq<Field>) {
    forall i, j :: 0 <= i < j < |fields| ==> fields[i].key != fields[j].key
  }

  /** The table's keys are distinct and differ from `title` and `tokens`. */
  predicate WellKeyed(v: Variant) {
    DistinctKeys(v.fields) && forall j :: 0 <= j < |v.fields| ==> v.fields[j].key !in {Title, Tokens}
  }

  lemma {:induction false} AssembleFails(fields: seq<Field>, slots: seq<Slot>, options: seq<string>, custom: string,
                                         first: Json, out: Response)
    requires |slots| == |fields|
    ensures Assemble(fields, slots, options, custom, first, out).Err? <==>
      exists j :: 0 <= j < |fields| && Emit(fields[j], slots[j], options, custom, first).Err?
    decreases |fields|
  {
    if fields != [] {
      var e := Emit(fields[0], slots[0], options, custom, first);
      assert forall j :: 0 < j < |fields| ==> fields[j] == fields[1..][j - 1] && slots[j] == slots[1..][j - 1];
      if e.Ok? {
        var out' := if e.value.Some? then out[fields[0].key := e.value.value] else out;
        AssembleFails(fields[1..], slots[1..], options, custom, first, out');
      }
    }
  }

  /** What `out` already holds is kept. */
  lemma {:induction false} AssembleKeepsOut(fields: seq<Field>, slots: seq<Slot>, options: seq<string>, custom: string,
                                            first: Json, out: Response)
    requires |slots| == |fields| && DistinctKeys(fields)
    requires forall j :: 0 <= j < |fields| ==> fields[j].key !in out
    ensures Assemble(fields, slots, options, custom, first, out).Ok? ==>
      var m := Assemble(fields, slots, options, custom, first, out).value;
      forall k :: k in out ==> k in m && m[k] == out[k]
    decreases |fields|
  {
    if fields != [] {
      var e := Emit(fields[0], slots[0], options, custom, first);
      if e.Ok? {
        var out' := if e.value.Some? then out[fields[0].key := e.value.value] else out;
        var rest := fields[1..];
        assert DistinctKeys(rest);
        forall j | 0 <= j < |rest| ensures rest[j].key !in out' {
          assert rest[j] == fields[j + 1];
        }
        AssembleKeepsOut(rest, slots[1..], options, custom, first, out');
      }
    }
  }

  /** Only the fields' keys are added. */
  lemma {:induction false} AssembleAddsOnly(fields: seq<Field>, slots: seq<Slot>, options: seq<string>, custom: string,
                                            first: Json, out: Response)
    requires |slots| == |fields|
    ensures Assemble(fields, slots, options, custom, first, out).Ok? ==>
      var m := Assemble(fields, slots, options, custom, first, out).value;
      forall k :: k in m ==> k in out || exists j :: 0 <= j < |fields| && fields[j].key == k
    decreases |fields|
  {
    if fields != [] {
      var e := Emit(fields[0], slots[0], options, custom, first);
      if e.Ok? {
        var out' := if e.value.Some? then out[fields[0].key := e.value.value] else out;
        AssembleAddsOnly(fields[1..], slots[1..], options, custom, first, out');
        var m := Assemble(fields, slots, options, custom, first, out);
        assert m == Assemble(fields[1..], slots[1..], options, custom, first, out');
        if m.Ok? {
          forall k | k in m.value && k !in out ensures exists j :: 0 <= j < |fields| && fields[j].key == k {
            if k != fields[0].key {
              assert k !in out';
              var j :| 0 <= j < |fields[1..]| && fields[1..][j].key == k;
              assert fields[j + 1].key == k;
            }
          }
        }
      }
    }
  }

  /** Each field is present exactly when it is emitted, with the emitted value. */
  lemma {:induction false} AssembleEmits(fields: seq<Field>, slots: seq<Slot>, options: seq<string>, custom: string,
                                         first: Json, out: Response)
    requires |slots| == |fields| && DistinctKeys(fields)
    requires forall j :: 0 <= j < |fields| ==> fields[j].key !in out
    ensures Assemble(fields, slots, options, custom, first, out).Ok? ==>
      var m := Assemble(fields, slots, options, custom, first, out).value;
      forall j :: 0 <= j < |fields| ==>
        var e := Emit(fields[j], slots[j], options, custom, first);
        e.Ok? && (fields[j].key in m <==> e.value.Some?) &&
        (fields[j].key in m ==> m[fields[j].key] == e.value.value)
    decreases |fields|
  {
    if fields != [] {
      var e := Emit(fields[0], slots[0], options, custom, first);
      if e.Ok? {
        var out' := if e.value.Some? then out[fields[0].key := e.value.value] else out;
        var rest, restSlots := fields[1..], slots[1..];
        assert DistinctKeys(rest);
        forall j | 0 <= j < |rest| ensures rest[j].key !in out' {
          assert rest[j] == fields[j + 1];
        }
        AssembleEmits(rest, restSlots, options, custom, first, out');
        AssembleKeepsOut(rest, restSlots, options, custom, first, out');
        AssembleAddsOnly(rest, restSlots, options, custom, first, out');
        var m := Assemble(fields, slots, options, custom, first, out);
        if m.Ok? {
          forall j | 0 < j < |fields|
            ensures var e := Emit(fields[j], slots[j], options, custom, first);
              e.Ok? && (fields[j].key in m.value <==> e.value.Some?) &&
              (fields[j].key in m.value ==> m.value[fields[j].key] == e.value.value)
          {
            assert fields[j] == rest[j - 1] && slots[j] == restSlots[j - 1];
          }
        }
      }
    }
  }

  /** Assembling fails exactly when some field fails; otherwise each field
      is present exactly when it is emitted, with the emitted value, and
      nothing else is added. */
  lemma AssembleFields(fields: seq<Field>, slots: seq<Slot>, options: seq<string>, custom: string,
                       first: Json, out: Response)
    requires |slots| == |fields| && DistinctKeys(fields)
    requires forall j :: 0 <= j < |fields| ==> fields[j].key !in out
    ensures Assemble(fields, slots, options, custom, first, out).Err? <==>
      exists j :: 0 <= j < |fields| && Emit(fields[j], slots[j], options, custom, first).Err?
    ensures Assemble(fields, slots, options, custom, first, out).Ok? ==>
      var m := Assemble(fields, slots, options, custom, first, out).value;
      (forall k :: k in out ==> k in m && m[k] == out[k]) &&
      (forall k :: k in m ==> k in out || exists j :: 0 <= j < |fields| && fields[j].key == k) &&
      (forall j :: 0 <= j < |fields| ==>
        var e := Emit(fields[j], slots[j], options, custom, first);
        e.Ok? && (fields[j].key in m <==> e.value.Some?) &&
        (fields[j].key in m ==> m[fields[j].key] == e.value.value))
  {
    AssembleFails(fields, slots, options, custom, first, out);
    AssembleKeepsOut(fields, slots, options, custom, first, out);
    AssembleAddsOnly(fields, slots, options, custom, first, out);
    AssembleEmits(fields, slots, options, custom, first, out);
  }

  /** `finalChatResponse` holds `title`, `tokens` and exactly the fields
      that are emitted, each with its emitted value. */
  lemma ResponseFields(v: Variant, options: seq<string>, custom: string, chunks: seq<ChatResult>, parseChunk: ChunkParser)
    requires WellKeyed(v)
    requires ResultsOf(v, chunks, parseChunk).Some?
    ensures var results := ResultsOf(v, chunks, parseChunk).value;
      var slots := Slots(v, results);
      var r := FormatChatSpec(v, options, custom, chunks, parseChunk);
      (r.Err? <==> exists j :: 0 <= j < |v.fields| && Emit(v.fields[j], slots[j], options, custom, First(results)).Err?) &&
      (r.Ok? ==>
        Title in r.value && Tokens in r.value &&
        r.value[Title] == TitleOf(v, results) &&
        r.value[Tokens] == JNum(Sum(Usage(results))) &&
        (forall k :: k in r.value ==> k in {Title, Tokens} || exists j :: 0 <= j < |v.fields| && v.fields[j].key == k) &&
        forall j :: 0 <= j < |v.fields| ==>
          var e := Emit(v.fields[j], slots[j], options, custom, First(results));
          (v.fields[j].key in r.value <==> e.value.Some?) &&
          (v.fields[j].key in r.value ==> r.value[v.fields[j].key] == e.value.value))
  {
    var results := ResultsOf(v, chunks, parseChunk).value;
    AssembleFields(v.fields, Slots(v, results), options, custom, First(results), map[Title := TitleOf(v, results)]);
  }

  /** The title comes from the first chunk's answer alone: a truthy title is
      kept, a missing one becomes the default, and with a fallback any other
      falsy title becomes the fallback. */
  lemma TitleFromFirst(v: Variant, results: seq<Processed>, others: seq<Processed>)
    requires results != [] && others != [] && results[0].choice == others[0].choice
    requires v.titleDefault != ""
    ensures TitleOf(v, results) == TitleOf(v, others)
    ensures var t := Get(results[0].choice, KeyName(Title));
      TitleOf(v, results) ==
        if Truthy(t) then t
        else if IsNullish(t) then JStr(v.titleDefault)
        else if v.titleFallback.Some? then JStr(v.titleFallback.value)
        else t
  {
  }

  /** A field whose option is off is absent; the only failure left for it
      is the lower-casing of topics that are not all strings. */
  lemma DisabledFieldAbsent(f: Field, s: Slot, options: seq<string>, custom: string, first: Json)
    requires !Enabled(f, options) && !f.kind.Custom?
    ensures Emit(f, s, options, custom, first) == Ok(None) ||
      (f.kind.Topics? && Emit(f, s, options, custom, first) == Err(NotAString))
  {
  }

  /** A list field is its flattened parts, or the one-element placeholder
      list when there are none; a text field is its joined parts, or the
      placeholder when they join to "". */
  lemma FieldValues(f: Field, s: Slot, options: seq<string>, custom: string, first: Json)
    requires Enabled(f, options) && (f.kind.List? || f.kind.Text?)
    ensures Emit(f, s, options, custom, first).Ok? && Emit(f, s, options, custom, first).value.Some?
    ensures f.kind.List? ==> var flat := Flat(ItemsOf(s));
      Emit(f, s, options, custom, first).value.value ==
        JArr(if flat == [] && f.kind.emptyList.Some? then [f.kind.emptyList.value] else flat)
    ensures f.kind.Text? ==> var joined := JoinItems(ItemsOf(s), " ");
      Emit(f, s, options, custom, first).value.value ==
        JStr(if joined == "" && f.kind.emptyText.Some? then f.kind.emptyText.value else joined)
  {
  }

  /** The filtered, lower-cased topics without repeats. */
  function TopicsOf(items: seq<Json>): seq<Json> {
    FilterPresent(Flat(items))
  }

  /** Published topics are sorted by code units, at least two, and are a
      permutation of the distinct lower-cased present topics (capitalised
      when the variant does so); every present topic is represented. */
  lemma {:induction false} TopicsPublished(f: Field, s: Slot, options: seq<string>, custom: string, first: Json)
    requires f.kind.Topics?
    requires Emit(f, s, options, custom, first).Ok? && Emit(f, s, options, custom, first).value.Some?
    ensures var filtered := TopicsOf(ItemsOf(s));
      AllStrings(filtered) &&
      var distinct := Dedupe(LowerAll(filtered));
      var published := Sort(if f.kind.capitalise then CapitaliseAll(distinct) else distinct);
      Emit(f, s, options, custom, first).value.value == JArr(Strs(published)) &&
      Sorted(published) && |published| > 1 &&
      multiset(published) == multiset(if f.kind.capitalise then CapitaliseAll(distinct) else distinct) &&
      Distinct(distinct) &&
      forall t :: t in distinct <==> exists i :: 0 <= i < |filtered| && Lower(filtered[i].s) == t
  {
    var filtered := TopicsOf(ItemsOf(s));
    var found := TopicSet(ItemsOf(s));
    assert found.Ok? && found.value.Some? && |found.value.value| > 1;
    assert AllStrings(filtered);
    var distinct := Dedupe(LowerAll(filtered));
    assert found.value.value == distinct;
    var listed := if f.kind.capitalise then CapitaliseAll(distinct) else distinct;
    SortCorrect(listed);
    LoweredTopics(filtered);
  }

  lemma {:induction false} LoweredTopics(filtered: seq<Json>)
    requires AllStrings(filtered)
    ensures Distinct(Dedupe(LowerAll(filtered)))
    ensures forall t :: t in Dedupe(LowerAll(filtered)) <==> exists i :: 0 <= i < |filtered| && Lower(filtered[i].s) == t
  {
    var lowered := LowerAll(filtered);
    DedupeSound(lowered);
    forall t ensures t in lowered <==> exists i :: 0 <= i < |filtered| && Lower(filtered[i].s) == t {
      if t in lowered {
        var i :| 0 <= i < |lowered| && lowered[i] == t;
        assert Lower(filtered[i].s) == t;
      }
      if exists i :: 0 <= i < |filtered| && Lower(filtered[i].s) == t {
        var i :| 0 <= i < |filtered| && Lower(filtered[i].s) == t;
        assert lowered[i] == t;
      }
    }
  }

  /** The topics step fails on a non-string among two or more present
      topics, and, in an unguarded variant with the option on, on at most
      one present topic. */
  lemma TopicsFailure(f: Field, s: Slot, options: seq<string>, custom: string, first: Json)
    requires f.kind.Topics?
    ensures var filtered := TopicsOf(ItemsOf(s));
      Emit(f, s, options, custom, first).Err? <==>
        (|filtered| > 1 && !AllStrings(filtered)) ||
        (Enabled(f, options) && !f.kind.guarded && |filtered| <= 1)
  {
  }

  /** Only the topics step can fail. */
  lemma OnlyTopicsFail(f: Field, s: Slot, options: seq<string>, custom: string, first: Json)
    requires !f.kind.Topics?
    ensures Emit(f, s, options, custom, first).Ok?
  {
  }

  /** A guarded topics field fails only on a non-string topic. */
  lemma GuardedTopicsNeverUndefined(f: Field, s: Slot, options: seq<string>, custom: string, first: Json)
    requires f.kind.Topics? && f.kind.guarded
    ensures Emit(f, s, options, custom, first).Err? <==>
      var filtered := TopicsOf(ItemsOf(s)); |filtered| > 1 && !AllStrings(filtered)
  {
  }

  /** The `for (let result of summaryArray)` pass that fills `resultsArray`. */
  method CollectResults(v: Variant, summaryArray: seq<ChatResult>, parseChunk: ChunkParser)
    returns (resultsArray: Option<seq<Processed>>)
    ensures resultsArray == ResultsOf(v, summaryArray, parseChunk)
  {
    var collected: seq<Processed> := [];
    assert summaryArray[0..] == summaryArray;
    assert ResultsOf(v, summaryArray, parseChunk).Some? ==>
      [] + ResultsOf(v, summaryArray, parseChunk).value == ResultsOf(v, summaryArray, parseChunk).value;
    for i := 0 to |summaryArray|
      invariant ResultsOf(v, summaryArray, parseChunk) == Glue(collected, ResultsOf(v, summaryArray[i..], parseChunk))
    {
      assert summaryArray[i..][1..] == summaryArray[i + 1..];
      var p := Recovered(v, summaryArray[i], parseChunk);
      if p.None? {
        return None;
      }
      ghost var rest := ResultsOf(v, summaryArray[i + 1..], parseChunk);
      assert ResultsOf(v, summaryArray[i..], parseChunk) == Glue([p.value], rest);
      if rest.Some? {
        assert collected + ([p.value] + rest.value) == (collected + [p.value]) + rest.value;
      }
      collected := collected + [p.value];
    }
    assert summaryArray[|summaryArray|..] == [];
    assert collected + [] == collected;
    return Some(collected);
  }

  /** The construction of `finalChatResponse` from the reduced fields. */
  method FinalResponse(v: Variant, slots: seq<Slot>, options: seq<string>, custom: string,
                       first: Json, title: Json) returns (r: Result<Response>)
    requires |slots| == |v.fields|
    ensures r == Assemble(v.fields, slots, options, custom, first, map[Title := title])
  {
    var out := map[Title := title];
    for j := 0 to |v.fields|
      invariant Assemble(v.fields, slots, options, custom, first, map[Title := title])
             == Assemble(v.fields[j..], slots[j..], options, custom, first, out)
    {
      assert v.fields[j..][1..] == v.fields[j + 1..] && slots[j..][1..] == slots[j + 1..];
      assert v.fields[j..][0] == v.fields[j] && slots[j..][0] == slots[j];
      var e := Emit(v.fields[j], slots[j], options, custom, first);
      if e.Err? {
        return Err(e.error);
      }
      if e.value.Some? {
        out := out[v.fields[j].key := e.value.value];
      }
    }
    return Ok(out);
  }

  method FormatChat(v: Variant, options: seq<string>, custom: string,
                    summaryArray: seq<ChatResult>, parseChunk: ChunkParser) returns (r: Result<Response>)
    ensures r == FormatChatSpec(v, options, custom, summaryArray, parseChunk)
  {
    var collected := CollectResults(v, summaryArray, parseChunk);
    if collected.None? {
      return Err(ChunkFailed);
    }
    var resultsArray := collected.value;
    var slots, usageArray := Reduce(v, resultsArray);
    var first := if resultsArray == [] then JNull else resultsArray[0].choice;
    var response := FinalResponse(v, slots, options, custom, first, TitleOf(v, resultsArray));
    if response.Err? {
      return Err(response.error);
    }
    r := Ok(response.value[Tokens := JNum(Sum(usageArray))]);
  }
}
