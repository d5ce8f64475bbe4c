/**
  JSON values as the pipeline handles them after `JSON.parse`, with the
  JavaScript operations it applies to them: truthiness, property access,
  one-level `flat()` and `Array.prototype.join`.
*/
module Json {
  import opened JsText

  /** A parsed JSON value. Absent properties read as `JNull`: every
      operation of the core treats `undefined` and `null` alike. Numbers are
      integers (the day rating and token counts are whole numbers). */
  datatype Json =
    | JNull
    | JBool(b: bool)
    | JNum(n: int)
    | JStr(s: string)
    | JArr(items: seq<Json>)
    | JObj(fields: map<string, Json>)

  /** JavaScript truthiness. */
  predicate Truthy(j: Json) {
    match j
    case JNull => false
    case JBool(b) => b
    case JNum(n) => n != 0
    case JStr(s) => s != ""
    case JArr(_) => true
    case JObj(_) => true
  }

  predicate IsNullish(j: Json) {
    j == JNull
  }

  /** `j.key` (`j?.key` on a nullish `j`). */
  function Get(j: Json, key: string): Json {
    if j.JObj? && key in j.fields then j.fields[key] else JNull
  }

  /** `a || b` */
  function Or(a: Json, b: Json): Json {
    if Truthy(a) then a else b
  }

  /** `a ?? b` */
  function Coalesce(a: Json, b: Json): Json {
    if IsNullish(a) then b else a
  }

  /** `[].concat(...)` of one value: arrays are spread, anything else is kept. */
  function Spread(j: Json): seq<Json> {
    if j.JArr? then j.items else [j]
  }

  /** `xs.flat()`: one level of flattening. */
  function Flat(xs: seq<Json>): (r: seq<Json>)
    ensures |xs| == 0 ==> r == []
  {
    if xs == [] then [] else Spread(xs[0]) + Flat(xs[1..])
  }

  lemma {:induction false} FlatAppend(xs: seq<Json>, ys: seq<Json>)
    ensures Flat(xs + ys) == Flat(xs) + Flat(ys)
  {
    if xs == [] {
      assert xs + ys == ys;
    } else {
      assert (xs + ys)[1..] == xs[1..] + ys;
      FlatAppend(xs[1..], ys);
    }
  }

  /** `String(j)`, as `Array.prototype.join` renders an element. */
  function ToJsString(j: Json): string {
    match j
    case JNull => ""
    case JBool(b) => if b then "true" else "false"
    case JNum(n) => IntToString(n)
    case JStr(s) => s
    case JArr(items) => JoinItems(items, ",")
    case JObj(_) => "[object Object]"
  }

  /** `items.join(sep)`: `null` and `undefined` elements render as "". */
  function JoinItems(items: seq<Json>, sep: string): string
    decreases items
  {
    if |items| == 0 then ""
    else if |items| == 1 then ToJsString(items[0])
    else ToJsString(items[0]) + sep + JoinItems(items[1..], sep)
  }

  lemma {:induction false} JoinItemsOfStrings(parts: seq<string>, sep: string)
    ensures JoinItems(seq(|parts|, i requires 0 <= i < |parts| => JStr(parts[i])), sep)
            == Join(parts, sep)
  {
    var items := seq(|parts|, i requires 0 <= i < |parts| => JStr(parts[i]));
    if |parts| >= 2 {
      assert items[1..] == seq(|parts[1..]|, i requires 0 <= i < |parts[1..]| => JStr(parts[1..][i]));
      JoinItemsOfStrings(parts[1..], sep);
    }
  }

  function Strs(parts: seq<string>): (r: seq<Json>)
    ensures |r| == |parts|
    ensures forall i :: 0 <= i < |parts| ==> r[i] == JStr(parts[i])
  {
    seq(|parts|, i requires 0 <= i < |parts| => JStr(parts[i]))
  }
}
