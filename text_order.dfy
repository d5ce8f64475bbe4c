/**
  String ordering and de-duplication as JavaScript performs them:
  `Array.prototype.sort()` with no comparator orders strings by their UTF-16
  code units, and `Array.from(new Set(xs))` keeps first occurrences in order.
*/
module TextOrder {
  import opened JsText

  /** Lexicographic order on code-unit sequences. */
  predicate UnitsLeq(a: seq<CodeUnit>, b: seq<CodeUnit>) {
    a == [] || (b != [] && (a[0] < b[0] || (a[0] == b[0] && UnitsLeq(a[1..], b[1..]))))
  }

  predicate StrLeq(a: string, b: string) {
    UnitsLeq(Utf16(a), Utf16(b))
  }

  lemma {:induction false} UnitsLeqTotal(a: seq<CodeUnit>, b: seq<CodeUnit>)
    ensures UnitsLeq(a, b) || UnitsLeq(b, a)
  {
    if a != [] && b != [] && a[0] == b[0] {
      UnitsLeqTotal(a[1..], b[1..]);
    }
  }

  lemma {:induction false} UnitsLeqTrans(a: seq<CodeUnit>, b: seq<CodeUnit>, c: seq<CodeUnit>)
    requires UnitsLeq(a, b) && UnitsLeq(b, c)
    ensures UnitsLeq(a, c)
  {
    if a != [] && b != [] && c != [] && a[0] == b[0] && b[0] == c[0] {
      UnitsLeqTrans(a[1..], b[1..], c[1..]);
    }
  }

  predicate Sorted(xs: seq<string>) {
    forall i, j :: 0 <= i < j < |xs| ==> StrLeq(xs[i], xs[j])
  }

  /** Insert `x` before the first element it does not follow. */
  function Insert(x: string, xs: seq<string>): (r: seq<string>)
    ensures multiset(r) == multiset(xs) + multiset{x}
  {
    if xs == [] then [x]
    else if StrLeq(x, xs[0]) then [x] + xs
    else assert xs == [xs[0]] + xs[1..]; [xs[0]] + Insert(x, xs[1..])
  }

  lemma {:induction false} UnitsLeqRefl(a: seq<CodeUnit>)
    ensures UnitsLeq(a, a)
  {
    if a != [] { UnitsLeqRefl(a[1..]); }
  }

  lemma ConsSorted(a: string, t: seq<string>)
    requires Sorted(t)
    requires forall y :: y in t ==> StrLeq(a, y)
    ensures Sorted([a] + t)
  {
    var r := [a] + t;
    forall i, j | 0 <= i < j < |r| ensures StrLeq(r[i], r[j]) {
      if i == 0 { assert r[j] == t[j - 1]; } else { assert r[i] == t[i - 1] && r[j] == t[j - 1]; }
    }
  }

  lemma {:induction false} InsertSorted(x: string, xs: seq<string>)
    requires Sorted(xs)
    ensures Sorted(Insert(x, xs))
  {
    if xs == [] {
    } else if StrLeq(x, xs[0]) {
      forall y | y in xs ensures StrLeq(x, y) {
        var k :| 0 <= k < |xs| && xs[k] == y;
        if k == 0 { } else { UnitsLeqTrans(Utf16(x), Utf16(xs[0]), Utf16(y)); }
      }
      ConsSorted(x, xs);
    } else {
      UnitsLeqTotal(Utf16(x), Utf16(xs[0]));
      var t := Insert(x, xs[1..]);
      assert Sorted(xs[1..]) by {
        forall i, j | 0 <= i < j < |xs[1..]| ensures StrLeq(xs[1..][i], xs[1..][j]) {
          assert xs[1..][i] == xs[i + 1] && xs[1..][j] == xs[j + 1];
        }
      }
      InsertSorted(x, xs[1..]);
      forall y | y in t ensures StrLeq(xs[0], y) {
        assert y in multiset(t);
        if y != x {
          assert y in multiset(xs[1..]);
          var k :| 0 <= k < |xs[1..]| && xs[1..][k] == y;
          assert xs[k + 1] == y;
        }
      }
      ConsSorted(xs[0], t);
    }
  }

  /** `xs.sort()` on strings. */
  function Sort(xs: seq<string>): (r: seq<string>)
    ensures multiset(r) == multiset(xs)
  {
    if xs == [] then [] else assert xs == [xs[0]] + xs[1..]; Insert(xs[0], Sort(xs[1..]))
  }

  /** The sorted list is ordered and is a permutation of its input. */
  lemma {:induction false} SortCorrect(xs: seq<string>)
    ensures Sorted(Sort(xs)) && multiset(Sort(xs)) == multiset(xs) && |Sort(xs)| == |xs|
  {
    if xs != [] {
      SortCorrect(xs[1..]);
      InsertSorted(xs[0], Sort(xs[1..]));
    }
    assert |multiset(Sort(xs))| == |multiset(xs)|;
  }

  predicate Distinct<T(==)>(xs: seq<T>) {
    forall i, j :: 0 <= i < j < |xs| ==> xs[i] != xs[j]
  }

  /** `Array.from(new Set(xs))`, continuing from the elements `seen` so far. */
  function DedupeFrom<T(==)>(seen: seq<T>, xs: seq<T>): seq<T>
    decreases xs
  {
    if xs == [] then seen
    else if xs[0] in seen then DedupeFrom(seen, xs[1..])
    else DedupeFrom(seen + [xs[0]], xs[1..])
  }

  function Dedupe<T(==)>(xs: seq<T>): seq<T> {
    DedupeFrom([], xs)
  }

  lemma {:induction false} DedupeFromSound<T>(seen: seq<T>, xs: seq<T>)
    requires Distinct(seen)
    ensures Distinct(DedupeFrom(seen, xs))
    ensures forall y :: y in DedupeFrom(seen, xs) <==> y in seen || y in xs
    ensures |seen| <= |DedupeFrom(seen, xs)| && DedupeFrom(seen, xs)[..|seen|] == seen
    decreases xs
  {
    if xs != [] {
      if xs[0] in seen {
        DedupeFromSound(seen, xs[1..]);
      } else {
        DedupeFromSound(seen + [xs[0]], xs[1..]);
        var r := DedupeFrom(seen + [xs[0]], xs[1..]);
        assert r[..|seen|] == (r[..|seen| + 1])[..|seen|];
      }
      assert forall y :: y in xs <==> y == xs[0] || y in xs[1..];
    }
  }

  /** The de-duplicated list has no repeats and the same elements. */
  lemma DedupeSound<T>(xs: seq<T>)
    ensures Distinct(Dedupe(xs))
    ensures forall y :: y in Dedupe(xs) <==> y in xs
  {
    DedupeFromSound([], xs);
  }
}
