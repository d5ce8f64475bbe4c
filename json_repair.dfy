/**
  `repairJSON`: turning a completion's text into a JSON value through an
  ordered chain of fallible attempts that ends in a fixed fallback object.
  `JSON.parse` and the `jsonrepair` library are partial oracles: `None`
  stands for a thrown exception.
*/
module JsonRepair {
  import opened Wrappers
  import opened JsText
  import opened Json

  type Parser = string -> Option<Json>
  type Repairer = string -> Option<string>

  /** Which step produced the value. */
  datatype Stage =
    | BlankInput       // the fixed object for an empty answer
    | Parsed           // `JSON.parse(input)`
    | RepairedWhole    // `JSON.parse(jsonrepair(input))`
    | RepairedExtract  // `JSON.parse(jsonrepair(match))` on the braced part
    | NoBraces         // the fixed object when no braced part exists
    | AllFailed        // the fixed object from the last `catch`

  datatype Repaired = Repaired(value: Json, stage: Stage)

  const EmptyAnswer := "Model AI nie zwrócił żadnej odpowiedzi."
  const NoJsonFound := "Nie udało się przetworzyć odpowiedzi z modelu AI."
  const RepairFailed := "Wystąpił błąd podczas przetwarzania odpowiedzi od modelu AI."

  /** The fallback object, differing only in its summary. */
  function Fallback(summary: string): Json {
    var noData := JArr([JStr("Brak danych do analizy")]);
    JObj(map[
      "title" := JStr("Transkrypcja audio"),
      "summary" := JStr(summary),
      "main_points" := noData,
      "action_items" := noData,
      "follow_up" := noData])
  }

  function LastIndexOf(s: string, c: char, upTo: nat): (r: int)
    requires upTo <= |s|
    ensures r == -1 ==> forall k :: 0 <= k < upTo ==> s[k] != c
    ensures r != -1 ==> 0 <= r < upTo && s[r] == c && forall k :: r < k < upTo ==> s[k] != c
  {
    if upTo == 0 then -1 else if s[upTo - 1] == c then upTo - 1 else LastIndexOf(s, c, upTo - 1)
  }

  /** `{` at `i` is the first one and `}` at `j` the last one, after it. */
  predicate OuterBraces(s: string, i: int, j: int) {
    0 <= i < j < |s| && s[i] == '{' && s[j] == '}'
    && (forall k :: 0 <= k < i ==> s[k] != '{') && (forall k :: j < k < |s| ==> s[k] != '}')
  }

  /** `input.match(/\{[\s\S]*\}/g)[0]`: the leftmost match runs from the first
      `{` to the last `}` after it; there is none unless a `}` follows the
      first `{`. */
  function BracedPart(s: string): (r: Option<string>)
    ensures r.Some? <==> exists i, j :: 0 <= i < j < |s| && s[i] == '{' && s[j] == '}'
    ensures r.Some? ==> exists i, j :: OuterBraces(s, i, j) && r.value == s[i..j + 1]
  {
    var i := IndexOfFrom(s, '{', 0);
    var j := LastIndexOf(s, '}', |s|);
    if i != -1 && j != -1 && i < j then
      assert OuterBraces(s, i, j);
      Some(s[i..j + 1])
    else None
  }

  /** `jsonrepair` then `JSON.parse`; either may throw. */
  function RepairThenParse(s: string, parse: Parser, repair: Repairer): Option<Json> {
    match repair(s)
    case None => None
    case Some(fixed) => parse(fixed)
  }

  /** `repairJSON(input)`; `None` input stands for `null` or `undefined`. */
  function RepairJson(input: Option<string>, parse: Parser, repair: Repairer): Repaired {
    if input.None? || Trim(input.value) == "" then Repaired(Fallback(EmptyAnswer), BlankInput)
    else
      var s := input.value;
      match parse(s)
      case Some(v) => Repaired(v, Parsed)
      case None =>
        match RepairThenParse(s, parse, repair)
        case Some(v) => Repaired(v, RepairedWhole)
        case None =>
          match BracedPart(s)
          case None => Repaired(Fallback(NoJsonFound), NoBraces)
          case Some(m) =>
            match RepairThenParse(m, parse, repair)
            case Some(v) => Repaired(v, RepairedExtract)
            case None => Repaired(Fallback(RepairFailed), AllFailed)
  }

  /** Empty, whitespace-only or missing input gives the fixed object, before
      any parse. */
  lemma BlankGivesFallback(input: Option<string>, parse: Parser, repair: Repairer)
    requires input.None? || IsBlank(input.value)
    ensures RepairJson(input, parse, repair) == Repaired(Fallback(EmptyAnswer), BlankInput)
  {
  }

  /** Input that parses directly is returned exactly as parsed; `jsonrepair`
      is never consulted (any repairer gives the same result). */
  lemma DirectParseWins(s: string, parse: Parser, repair: Repairer, other: Repairer)
    requires !IsBlank(s) && parse(s).Some?
    ensures RepairJson(Some(s), parse, repair) == Repaired(parse(s).value, Parsed)
    ensures RepairJson(Some(s), parse, repair) == RepairJson(Some(s), parse, other)
  {
  }

  /** The attempts run in order: each later stage is reached only after every
      earlier one failed. */
  lemma StagesInOrder(s: string, parse: Parser, repair: Repairer)
    requires !IsBlank(s)
    ensures var r := RepairJson(Some(s), parse, repair);
      (r.stage == RepairedWhole ==> parse(s).None?)
      && (r.stage in {RepairedExtract, NoBraces, AllFailed} ==>
            parse(s).None? && RepairThenParse(s, parse, repair).None?)
      && (r.stage == NoBraces <==> parse(s).None? && RepairThenParse(s, parse, repair).None? && BracedPart(s).None?)
      && (r.stage == RepairedExtract ==> r.value == RepairThenParse(BracedPart(s).value, parse, repair).value)
      && r.stage != BlankInput
  {
    assert Trim(s) != "";
    var r := RepairJson(Some(s), parse, repair);
    if parse(s).Some? {
      assert r.stage == Parsed;
    } else if RepairThenParse(s, parse, repair).Some? {
      assert r.stage == RepairedWhole;
    } else if BracedPart(s).None? {
      assert r.stage == NoBraces;
    } else {
      assert r.stage in {RepairedExtract, AllFailed};
    }
  }

  /** Nothing throws, and the result is one of two kinds: at a stage where
      every parse failed it is one of the fixed objects, and otherwise it
      is a value `JSON.parse` returned (which may be any JSON value). */
  lemma FallbackOrParsed(input: Option<string>, parse: Parser, repair: Repairer)
    ensures var r := RepairJson(input, parse, repair);
      r.stage in {BlankInput, NoBraces, AllFailed} ==> r.value.JObj?
    ensures var r := RepairJson(input, parse, repair);
      r.stage !in {BlankInput, NoBraces, AllFailed} ==> exists t :: parse(t) == Some(r.value)
  {
    var r := RepairJson(input, parse, repair);
    if input.Some? && Trim(input.value) != "" {
      var s := input.value;
      if parse(s).None? && RepairThenParse(s, parse, repair).Some? {
        assert parse(repair(s).value) == Some(r.value);
      } else if parse(s).None? && BracedPart(s).Some? && RepairThenParse(BracedPart(s).value, parse, repair).Some? {
        assert parse(repair(BracedPart(s).value).value) == Some(r.value);
      }
    }
  }

  /** When the parser only produces objects, the result is always an
      object. `JSON.parse` itself also gives arrays, numbers, strings,
      booleans and `null`, which the result then carries unchanged. */
  lemma AlwaysAnObject(input: Option<string>, parse: Parser, repair: Repairer)
    requires forall t :: parse(t).Some? ==> parse(t).value.JObj?
    ensures RepairJson(input, parse, repair).value.JObj?
  {
    FallbackOrParsed(input, parse, repair);
  }
}
