/**
  The field tables of the four `formatChat` variants, and what each one
  does on the inputs where they differ.
*/
module ChatVariants {
  import opened Wrappers
  import opened Json
  import opened Aggregator
  import opened JsText
  import opened TextOrder
  import JsonRepair

  function L(key: Key, gate: string, empty: string): Field {
    Field(key, Some(gate), List(Some(JStr(empty))))
  }

  function T(key: Key, gate: string, empty: string): Field {
    Field(key, Some(gate), Text(Some(empty)))
  }

  const NoChapters: Json := JObj(map["title" := JStr("Brak rozdzia\U{0142}\U{00F3}w"), "start_time" := JStr("00:00"), "end_time" := JStr("00:00")])

  const NoResources: Json := JObj(map[
    "title" := JStr("Brak \U{017A}r\U{00F3}de\U{0142} do przejrzenia"),
    "type" := JStr("Poradnik"),
    "url" := JStr(""),
    "summary" := JStr("Nie znaleziono odpowiednich \U{017A}r\U{00F3}de\U{0142} dla tego tematu."),
    "quick_use" := JStr("Spr\U{00F3}buj innego zapytania lub sformu\U{0142}uj bardziej konkretne pytanie.")])

  /** The standard summary fields. */
  const StandardFields: seq<Field> :=
    [ T(Summary, "Podsumowanie", "Brak podsumowania"),
      L(MainPoints, "G\U{0142}\U{00F3}wne punkty", "Brak g\U{0142}\U{00F3}wnych punkt\U{00F3}w"),
      L(ActionItems, "Elementy do wykonania", "Brak zada\U{0144}"),
      L(FollowUp, "Pytania uzupe\U{0142}niaj\U{0105}ce", "Brak pyta\U{0144} uzupe\U{0142}niaj\U{0105}cych"),
      L(Stories, "Historie", "Brak historii lub przyk\U{0142}ad\U{00F3}w"),
      L(References, "Odniesienia", "Brak odniesie\U{0144}"),
      L(Arguments, "Argumenty", "Brak argument\U{00F3}w"),
      Field(RelatedTopics, Some("Powi\U{0105}zane tematy"), Topics(true, true)),
      Field(Chapters, Some("Rozdzia\U{0142}y"), List(Some(NoChapters))) ]

  /** The journal fields. */
  const DiaryFields: seq<Field> :=
    [ T(DayOverview, "Og\U{00F3}lny opis dnia", "Brak opisu dnia"),
      L(KeyEvents, "Kluczowe wydarzenia", "Brak kluczowych wydarze\U{0144}"),
      L(Achievements, "Osi\U{0105}gni\U{0119}cia", "Brak osi\U{0105}gni\U{0119}\U{0107}"),
      L(Challenges, "Wyzwania", "Brak wyzwa\U{0144}"),
      L(Insights, "Wnioski", "Brak wniosk\U{00F3}w"),
      L(ActionPlan, "Plan dzia\U{0142}ania", "Brak planu dzia\U{0142}ania"),
      T(PersonalGrowth, "Rozw\U{00F3}j osobisty", "Brak opisu rozwoju osobistego"),
      T(Reflection, "Refleksja", "Brak refleksji"),
      Field(DayRating, Some("Ocena dnia (1-100)"), Rating) ]

  /** The fields every option set shares; the resources placeholder differs. */
  function CommonFields(resourcesEmpty: Json): seq<Field> {
    [ L(AiRecommendations, "AI rekomendacje", "Brak rekomendacji AI"),
      Field(ResourcesToCheck, Some("\U{0179}r\U{00F3}d\U{0142}a do przejrzenia"), List(Some(resourcesEmpty))),
      Field(CustomInstructions, None, Custom) ]
  }

  /** The Kamil table; Nagraniepraw differs only in the resources placeholder. */
  function JournalFields(resourcesEmpty: Json): seq<Field> {
    StandardFields + DiaryFields + CommonFields(resourcesEmpty)
  }

  const Kamil := Variant(true, false, JStr(""), "Brak tytu\U{0142}u", Some(TransientTitle),
                         JournalFields(JStr("Brak \U{017A}r\U{00F3}de\U{0142} do przejrzenia")))

  const Nagraniepraw := Variant(true, true, JStr(""), "Brak tytu\U{0142}u", Some(TransientTitle),
                                JournalFields(NoResources))

  const Nagraniaa := Variant(true, false, JStr(""), "Brak tytu\U{0142}u", Some(TransientTitle), [
    Field(Summary, None, Text(Some("Brak podsumowania"))),
    Field(MainPoints, None, List(Some(JStr("Brak g\U{0142}\U{00F3}wnych punkt\U{00F3}w")))),
    Field(ActionItems, None, List(Some(JStr("Brak zada\U{0144}")))),
    Field(Stories, None, List(None)),
    Field(References, None, List(None)),
    Field(Arguments, None, List(None)),
    Field(FollowUp, None, List(Some(JStr("Brak pyta\U{0144} uzupe\U{0142}niaj\U{0105}cych")))),
    Field(RelatedTopics, Some("Powi\U{0105}zane Tematy"), Topics(true, true)),
    Field(Chapters, Some("Rozdzia\U{0142}y"), List(None)) ])

  function VoiceNotesFields(guarded: bool): seq<Field> {
    [ Field(Summary, None, Text(None)),
      Field(Sentiment, Some("Sentiment"), FirstOnly),
      Field(MainPoints, None, List(None)),
      Field(ActionItems, None, List(None)),
      Field(Stories, None, List(None)),
      Field(References, None, List(None)),
      Field(Arguments, None, List(None)),
      Field(FollowUp, None, List(None)),
      Field(RelatedTopics, Some("Related Topics"), Topics(false, guarded)) ]
  }

  /** Notion-Voice-Notes as written: `filtered_related_set.length` is read
      even when the set was never built. */
  const VoiceNotesAsWritten := Variant(false, false, JArr([]), "Nie znaleziono tytu\U{0142}u", None, VoiceNotesFields(false))

  /** Notion-Voice-Notes with the set read as `filtered_related_set?.length`. */
  const VoiceNotes := Variant(false, false, JArr([]), "Nie znaleziono tytu\U{0142}u", None, VoiceNotesFields(true))

  /** The chunk parser of the variants whose own `repairJSON` never throws. */
  function OwnRepair(parse: JsonRepair.Parser, repair: JsonRepair.Repairer): (p: ChunkParser)
    ensures forall c :: p(c) == Some(JsonRepair.RepairJson(c, parse, repair).value)
  {
    c => Some(JsonRepair.RepairJson(c, parse, repair).value)
  }

  /** With its own `repairJSON`, a chunk is replaced by the stand-in answer
      only when the completion is undefined or has no readable message or no usage. */
  lemma OwnRepairFailsOnlyOnShape(r: ChatResult, parse: JsonRepair.Parser, repair: JsonRepair.Repairer)
    ensures ReadChunk(r, OwnRepair(parse, repair)).None? <==> r.Undefined? || r.content.None? || r.totalTokens.None?
  {
  }

  /** The position of a key in the declaration of `Key`. */
  function Ordinal(k: Key): nat {
    match k
    case Title => 0 case Tokens => 1 case Summary => 2 case Sentiment => 3 case MainPoints => 4
    case ActionItems => 5 case FollowUp => 6 case Stories => 7 case References => 8
    case Arguments => 9 case RelatedTopics => 10 case Chapters => 11 case DayOverview => 12
    case KeyEvents => 13 case Achievements => 14 case Challenges => 15 case Insights => 16
    case ActionPlan => 17 case PersonalGrowth => 18 case Reflection => 19 case DayRating => 20
    case AiRecommendations => 21 case ResourcesToCheck => 22 case CustomInstructions => 23
  }

  predicate Ascending(fields: seq<Field>) {
    forall i :: 0 < i < |fields| ==> Ordinal(fields[i - 1].key) < Ordinal(fields[i].key)
  }

  lemma {:induction false} AscendingOrdinals(fields: seq<Field>, i: nat, j: nat)
    requires Ascending(fields) && i < j < |fields|
    ensures Ordinal(fields[i].key) < Ordinal(fields[j].key)
    decreases j - i
  {
    if i + 1 < j {
      AscendingOrdinals(fields, i + 1, j);
    }
  }

  /** A table listed in the order of `Key`, after `title` and `tokens`, is well keyed. */
  lemma AscendingWellKeyed(v: Variant)
    requires Ascending(v.fields)
    requires v.fields == [] || Ordinal(v.fields[0].key) >= 2
    ensures WellKeyed(v)
  {
    forall i, j | 0 <= i < j < |v.fields| ensures v.fields[i].key != v.fields[j].key {
      AscendingOrdinals(v.fields, i, j);
    }
    forall j | 0 <= j < |v.fields| ensures v.fields[j].key !in {Title, Tokens} {
      if j > 0 { AscendingOrdinals(v.fields, 0, j); }
    }
  }

  lemma {:induction false} AscendingJoin(a: seq<Field>, b: seq<Field>)
    requires Ascending(a) && Ascending(b)
    requires a != [] && b != [] && Ordinal(a[|a| - 1].key) < Ordinal(b[0].key)
    ensures Ascending(a + b)
  {
    var ab := a + b;
    forall i | 0 < i < |ab| ensures Ordinal(ab[i - 1].key) < Ordinal(ab[i].key) {
      if i < |a| {
        assert ab[i - 1] == a[i - 1] && ab[i] == a[i];
      } else if i == |a| {
        assert ab[i - 1] == a[|a| - 1] && ab[i] == b[0];
      } else {
        assert ab[i - 1] == b[i - 1 - |a|] && ab[i] == b[i - |a|];
      }
    }
  }

  lemma StandardAscending()
    ensures Ascending(StandardFields) && Ordinal(StandardFields[0].key) >= 2
    ensures Ordinal(StandardFields[|StandardFields| - 1].key) < Ordinal(DiaryFields[0].key)
  {
    forall i | 0 < i < |StandardFields| ensures Ordinal(StandardFields[i - 1].key) < Ordinal(StandardFields[i].key) {
      if i == 1 {} else if i == 2 {} else if i == 3 {} else if i == 4 {}
      else if i == 5 {} else if i == 6 {} else if i == 7 {} else {}
    }
  }

  lemma DiaryAscending()
    ensures Ascending(DiaryFields) && DiaryFields[|DiaryFields| - 1].key == DayRating
  {
    forall i | 0 < i < |DiaryFields| ensures Ordinal(DiaryFields[i - 1].key) < Ordinal(DiaryFields[i].key) {
      if i == 1 {} else if i == 2 {} else if i == 3 {} else if i == 4 {}
      else if i == 5 {} else if i == 6 {} else if i == 7 {} else {}
    }
  }

  lemma CommonAscending(e: Json)
    ensures Ascending(CommonFields(e)) && CommonFields(e)[0].key == AiRecommendations
  {
  }

  lemma JournalAscending(e: Json)
    ensures Ascending(JournalFields(e)) && Ordinal(JournalFields(e)[0].key) >= 2
  {
    StandardAscending();
    DiaryAscending();
    CommonAscending(e);
    ghost var sd := StandardFields + DiaryFields;
    assert sd[|sd| - 1] == DiaryFields[|DiaryFields| - 1];
    AscendingJoin(StandardFields, DiaryFields);
    AscendingJoin(StandardFields + DiaryFields, CommonFields(e));
  }

  lemma KamilWellKeyed()
    ensures WellKeyed(Kamil) && WellKeyed(Nagraniepraw)
  {
    JournalAscending(JStr("Brak \U{017A}r\U{00F3}de\U{0142} do przejrzenia"));
    JournalAscending(NoResources);
    AscendingWellKeyed(Kamil);
    AscendingWellKeyed(Nagraniepraw);
  }

  /** A key whose ordinal falls strictly between two neighbours of an ascending table is not in it. */
  lemma AscendingGap(fields: seq<Field>, p: nat, k: Key)
    requires Ascending(fields) && 0 < p < |fields|
    requires Ordinal(fields[p - 1].key) < Ordinal(k) < Ordinal(fields[p].key)
    ensures forall i :: 0 <= i < |fields| ==> fields[i].key != k
  {
    forall i | 0 <= i < |fields| ensures fields[i].key != k {
      if i < p - 1 {
        AscendingOrdinals(fields, i, p - 1);
      } else if p < i {
        AscendingOrdinals(fields, p, i);
      }
    }
  }

  /** A key ordered after the last one of an ascending table is not in it. */
  lemma AscendingBeyond(fields: seq<Field>, k: Key)
    requires Ascending(fields) && fields != []
    requires Ordinal(fields[|fields| - 1].key) < Ordinal(k)
    ensures forall i :: 0 <= i < |fields| ==> fields[i].key != k
  {
    forall i | 0 <= i < |fields| ensures fields[i].key != k {
      if i < |fields| - 1 {
        AscendingOrdinals(fields, i, |fields| - 1);
      }
    }
  }

  /** A table made of two ascending runs, both after `title` and `tokens`,
      that share no key is well keyed. */
  lemma TwoRunsWellKeyed(v: Variant, n: nat)
    requires 0 < n < |v.fields|
    requires Ascending(v.fields[..n]) && Ascending(v.fields[n..])
    requires Ordinal(v.fields[0].key) >= 2 && Ordinal(v.fields[n].key) >= 2
    requires forall i, j :: 0 <= i < n <= j < |v.fields| ==> v.fields[i].key != v.fields[j].key
    ensures WellKeyed(v)
  {
    var a, b := v.fields[..n], v.fields[n..];
    forall i, j | 0 <= i < j < |v.fields| ensures v.fields[i].key != v.fields[j].key {
      if j < n {
        assert a[i] == v.fields[i] && a[j] == v.fields[j];
        AscendingOrdinals(a, i, j);
      } else if n <= i {
        assert b[i - n] == v.fields[i] && b[j - n] == v.fields[j];
        AscendingOrdinals(b, i - n, j - n);
      }
    }
    forall j | 0 <= j < |v.fields| ensures v.fields[j].key !in {Title, Tokens} {
      if 0 < j < n {
        assert a[j] == v.fields[j];
        AscendingOrdinals(a, 0, j);
      } else if n < j {
        assert b[j - n] == v.fields[j];
        AscendingOrdinals(b, 0, j - n);
      }
    }
  }

  /** Nagraniaa's table: `follow_up` comes after `arguments`, the rest is in key order. */
  lemma NagraniaaRuns()
    ensures var f := Nagraniaa.fields;
      |f| == 9 && Ascending(f[..6]) && Ascending(f[6..]) &&
      f[0].key == Summary && f[2].key == ActionItems && f[3].key == Stories && f[5].key == Arguments &&
      f[6].key == FollowUp && f[7].key == RelatedTopics && f[8].key == Chapters
  {
    var f := Nagraniaa.fields;
    forall i | 0 < i < |f| && i != 6 ensures Ordinal(f[i - 1].key) < Ordinal(f[i].key) {
      if i == 1 {} else if i == 2 {} else if i == 3 {} else if i == 4 {}
      else if i == 5 {} else if i == 7 {} else {}
    }
    assert Ascending(f[..6]) && Ascending(f[6..]);
  }

  lemma NagraniaaRunsApart()
    ensures var f := Nagraniaa.fields;
      forall i, j :: 0 <= i < 6 <= j < |f| ==> f[i].key != f[j].key
  {
    var f := Nagraniaa.fields;
    NagraniaaRuns();
    AscendingGap(f[..6], 3, FollowUp);
    AscendingBeyond(f[..6], RelatedTopics);
    AscendingBeyond(f[..6], Chapters);
  }

  lemma NagraniaaWellKeyed()
    ensures WellKeyed(Nagraniaa)
  {
    NagraniaaRuns();
    NagraniaaRunsApart();
    TwoRunsWellKeyed(Nagraniaa, 6);
  }

  /** Notion-Voice-Notes' table: `follow_up` comes after `arguments`, the rest is in key order. */
  lemma VoiceNotesRuns(f: seq<Field>, guarded: bool)
    requires f == VoiceNotesFields(guarded)
    ensures |f| == 9 && Ascending(f[..7]) && Ascending(f[7..])
    ensures f[0].key == Summary && f[3].key == ActionItems && f[4].key == Stories && f[6].key == Arguments
    ensures f[7].key == FollowUp && f[8].key == RelatedTopics
  {
    forall i | 0 < i < |f| && i != 7 ensures Ordinal(f[i - 1].key) < Ordinal(f[i].key) {
      if i == 1 {} else if i == 2 {} else if i == 3 {} else if i == 4 {}
      else if i == 5 {} else if i == 6 {} else {}
    }
    assert Ascending(f[..7]) && Ascending(f[7..]);
  }

  lemma VoiceNotesRunsApart(f: seq<Field>, guarded: bool)
    requires f == VoiceNotesFields(guarded)
    ensures forall i, j :: 0 <= i < 7 <= j < |f| ==> f[i].key != f[j].key
  {
    VoiceNotesRuns(f, guarded);
    AscendingGap(f[..7], 4, FollowUp);
    AscendingBeyond(f[..7], RelatedTopics);
  }

  lemma VoiceNotesFieldsWellKeyed(v: Variant, guarded: bool)
    requires v.fields == VoiceNotesFields(guarded)
    ensures WellKeyed(v)
  {
    VoiceNotesRuns(v.fields, guarded);
    VoiceNotesRunsApart(v.fields, guarded);
    TwoRunsWellKeyed(v, 7);
  }

  /** Notion-Voice-Notes lists `follow_up` after `arguments`; the rest is in key order. */
  lemma VoiceNotesWellKeyed()
    ensures WellKeyed(VoiceNotes) && WellKeyed(VoiceNotesAsWritten)
  {
    VoiceNotesFieldsWellKeyed(VoiceNotes, true);
    VoiceNotesFieldsWellKeyed(VoiceNotesAsWritten, false);
  }

  // ------------------------------------------------------------ examples

  /** A parser that reads every chunk as `answer`. */
  function Answering(answer: Json): (p: ChunkParser)
    ensures forall c :: p(c) == Some(answer)
  {
    c => Some(answer)
  }

  const OneTopic: Json := JObj(map["related_topics" := JArr([JStr("AI")])])

  const OneChunk: seq<ChatResult> := [ChatResult(Some(Some("{}")), Some(10))]

  function VoiceNotesTopicsField(guarded: bool): Field {
    VoiceNotesFields(guarded)[8]
  }

  lemma OneTopicSlot(v: Variant, f: Field)
    requires f.key == RelatedTopics && f.kind.Topics?
    ensures TopicsOf(ItemsOf(Fold(v, f, [Processed(OneTopic, 10)]))) == [JStr("AI")]
  {
    var rs := [Processed(OneTopic, 10)];
    assert Get(OneTopic, KeyName(RelatedTopics)) == JArr([JStr("AI")]);
    assert Pushed(v, f, OneTopic) == [JArr([JStr("AI")])];
    assert rs[..0] == [];
    assert Fold(v, f, rs) == Parts([JArr([JStr("AI")])]);
    assert Flat([JArr([JStr("AI")])]) == [JStr("AI")] + Flat([]);
    assert FilterPresent([JStr("AI")]) == [JStr("AI")] + FilterPresent([]);
  }

  lemma VoiceNotesTopicsRow(guarded: bool)
    ensures VoiceNotesFields(guarded)[8] == Field(RelatedTopics, Some("Related Topics"), Topics(false, guarded))
  {
  }

  /** With "Related Topics" on, a recording whose answers name a single
      topic makes the Notion-Voice-Notes `formatChat` throw. */
  lemma VoiceNotesRejectsSingleTopic()
    ensures FormatChatSpec(VoiceNotesAsWritten, ["Related Topics"], "", OneChunk, Answering(OneTopic)).Err?
  {
    var v := VoiceNotesAsWritten;
    VoiceNotesWellKeyed();
    SingleTopicResults(v);
    var results := [Processed(OneTopic, 10)];
    var slots := Slots(v, results);
    assert slots[8] == Fold(v, v.fields[8], results);
    VoiceNotesTopicsRow(false);
    OneTopicSlot(v, v.fields[8]);
    assert Emit(v.fields[8], slots[8], ["Related Topics"], "", First(results)) == Err(UndefinedSet);
    ResponseFields(v, ["Related Topics"], "", OneChunk, Answering(OneTopic));
  }

  /** The single chunk is read as its answer, with its usage. */
  lemma SingleTopicResults(v: Variant)
    ensures ResultsOf(v, OneChunk, Answering(OneTopic)) == Some([Processed(OneTopic, 10)])
    ensures Sum(Usage([Processed(OneTopic, 10)])) == 10
  {
    var parse := Answering(OneTopic);
    assert OneChunk[1..] == [];
    assert ResultsOf(v, OneChunk[1..], parse) == Some([]);
    assert Recovered(v, OneChunk[0], parse) == Some(Processed(OneTopic, 10));
    assert [Processed(OneTopic, 10)] + [] == [Processed(OneTopic, 10)];
    assert Usage([Processed(OneTopic, 10)]) == [10] by { assert [Processed(OneTopic, 10)][..0] == []; }
    assert Sum([10]) == 10 by { assert [10][..0] == []; }
  }

  /** With the optional read every field of the single-topic recording is emitted without error. */
  lemma SingleTopicEmits()
    ensures var results := [Processed(OneTopic, 10)];
      var slots := Slots(VoiceNotes, results);
      Emit(VoiceNotes.fields[8], slots[8], ["Related Topics"], "", First(results)) == Ok(None) &&
      forall j :: 0 <= j < |VoiceNotes.fields| ==> Emit(VoiceNotes.fields[j], slots[j], ["Related Topics"], "", First(results)).Ok?
  {
    var v := VoiceNotes;
    var results := [Processed(OneTopic, 10)];
    var slots := Slots(v, results);
    VoiceNotesTopicsRow(true);
    OneTopicSlot(v, v.fields[8]);
    assert slots[8] == Fold(v, v.fields[8], results);
    forall j | 0 <= j < |v.fields| && j != 8 ensures Emit(v.fields[j], slots[j], ["Related Topics"], "", First(results)).Ok? {
      OnlyTopicsFail(v.fields[j], slots[j], ["Related Topics"], "", First(results));
    }
  }

  /** With the optional read, the same recording gives a response without
      `related_topics`. */
  lemma VoiceNotesOmitsSingleTopic()
    ensures var r := FormatChatSpec(VoiceNotes, ["Related Topics"], "", OneChunk, Answering(OneTopic));
      r.Ok? && RelatedTopics !in r.value && r.value[Tokens] == JNum(10)
  {
    SingleTopicResults(VoiceNotes);
    VoiceNotesWellKeyed();
    SingleTopicEmits();
    ResponseFields(VoiceNotes, ["Related Topics"], "", OneChunk, Answering(OneTopic));
  }

  lemma ExampleLowered()
    ensures LowerAll([JStr("Zen"), JStr("ai"), JStr("AI")]) == ["zen", "ai", "ai"]
  {
    assert Lower("Zen") == "zen" by {
      assert Lower("n") == "n" + Lower([]);
      assert Lower("en") == "e" + Lower("n");
    }
    assert Lower("ai") == "ai" by {
      assert Lower("i") == "i" + Lower([]);
    }
    assert Lower("AI") == "ai" by {
      assert Lower("I") == "i" + Lower([]);
    }
  }

  lemma ExampleDeduped()
    ensures Dedupe(["zen", "ai", "ai"]) == ["zen", "ai"]
  {
    assert DedupeFrom(["zen", "ai"], []) == ["zen", "ai"];
    assert DedupeFrom(["zen", "ai"], ["ai"]) == ["zen", "ai"];
    assert DedupeFrom(["zen"], ["ai", "ai"]) == ["zen", "ai"];
  }

  lemma ExampleCapitalised()
    ensures CapitaliseAll(["zen", "ai"]) == ["Zen", "Ai"]
  {
    assert Capitalise("zen") == "Zen" && Capitalise("ai") == "Ai";
  }

  lemma ExampleSorted()
    ensures Sort(["Zen", "Ai"]) == ["Ai", "Zen"]
  {
    assert Utf16("Ai")[0] == 65 && Utf16("Zen")[0] == 90;
    assert !StrLeq("Zen", "Ai");
    assert Sort(["Ai"]) == ["Ai"];
  }

  /** Kamil's topics "Zen", "ai" and "AI" are published as "Ai", "Zen":
      case-insensitive duplicates collapse, each is capitalised, and the
      list is sorted. */
  lemma KamilTopicsExample()
    ensures TopicList(Dedupe(LowerAll([JStr("Zen"), JStr("ai"), JStr("AI")])), true) == Strs(["Ai", "Zen"])
  {
    ExampleLowered();
    ExampleDeduped();
    ExampleCapitalised();
    ExampleSorted();
  }
}
