/**
  The paragraph builder (`makeParagraphs`): sentences are grouped a few at a
  time (`sentenceGrouper`), then every paragraph is cut to a character budget
  (`charMaxChecker`). Sentence splitting and language detection are foreign;
  the sentence list and the detected language code are inputs.
*/
module Paragraphs {
  import opened JsText

  /** Longest stretch the cutter will extend a piece to reach a space. */
  const HardLimit: nat := 1800

  const Space: CodeUnit := 0x20

  /** Chinese and undetermined text is split on punctuation and grouped by
      three; anything else is tokenised into sentences grouped by four. */
  function SentencesPerParagraph(languageCode: string): nat {
    if languageCode == "cmn" || languageCode == "und" then 3 else 4
  }

  // ---------------------------------------------------------------------------
  // sentenceGrouper

  function Min(a: int, b: int): int {
    if a <= b then a else b
  }

  /** The sentences of each paragraph: consecutive runs of `k`. */
  function Groups(sentences: seq<string>, k: nat): seq<seq<string>>
    requires k >= 1
  {
    if sentences == [] then []
    else
      var n := Min(k, |sentences|);
      [sentences[..n]] + Groups(sentences[n..], k)
  }

  function JoinAll(groups: seq<seq<string>>): (r: seq<string>)
    ensures |r| == |groups|
  {
    if groups == [] then [] else [Join(groups[0], " ")] + JoinAll(groups[1..])
  }

  function ConcatGroups(groups: seq<seq<string>>): seq<string> {
    if groups == [] then [] else groups[0] + ConcatGroups(groups[1..])
  }

  /** Grouping keeps every sentence in order, makes ceil(n/k) groups, each of
      exactly `k` sentences except the last, which has between 1 and `k`. */
  lemma {:induction false} GroupsShape(sentences: seq<string>, k: nat)
    requires k >= 1
    ensures ConcatGroups(Groups(sentences, k)) == sentences
    ensures |Groups(sentences, k)| == CeilDiv(|sentences|, k)
    ensures var g := Groups(sentences, k);
      (forall i :: 0 <= i < |g| - 1 ==> |g[i]| == k)
      && (|g| > 0 ==> 1 <= |g[|g| - 1]| <= k)
    decreases |sentences|
  {
    if sentences != [] {
      var n := Min(k, |sentences|);
      var g := Groups(sentences, k);
      var rest := Groups(sentences[n..], k);
      GroupsShape(sentences[n..], k);
      assert g == [sentences[..n]] + rest;
      assert g[1..] == rest;
      assert sentences == sentences[..n] + sentences[n..];
      if n < k {
        assert rest == [];
      }
      forall i | 0 <= i < |g| - 1 ensures |g[i]| == k {
        if i > 0 { assert g[i] == rest[i - 1]; }
      }
    }
  }

  /** ceil(n / k), counted by repeated subtraction. */
  function CeilDiv(n: nat, k: nat): nat
    requires k >= 1
  {
    if n == 0 then 0 else if n <= k then 1 else 1 + CeilDiv(n - k, k)
  }

  lemma GroupsStep(sentences: seq<string>, i: nat, k: nat)
    requires k >= 1 && i < |sentences|
    ensures Groups(sentences[i..], k)
         == [sentences[i..Min(i + k, |sentences|)]] + Groups(sentences[Min(i + k, |sentences|)..], k)
  {
    var rest := sentences[i..];
    var j := Min(i + k, |sentences|);
    assert rest[..Min(k, |rest|)] == sentences[i..j];
    assert rest[Min(k, |rest|)..] == sentences[j..];
  }

  /** `sentenceGrouper(arr, k)`: each paragraph is `k` consecutive sentences
      joined by one space. */
  method SentenceGrouper(sentences: seq<string>, k: nat) returns (paragraphs: seq<string>)
    requires k >= 1
    ensures paragraphs == JoinAll(Groups(sentences, k))
  {
    paragraphs := [];
    var i: nat := 0;
    while i < |sentences|
      invariant i < |sentences| ==>
        paragraphs + JoinAll(Groups(sentences[i..], k)) == JoinAll(Groups(sentences, k))
      invariant i >= |sentences| ==> paragraphs == JoinAll(Groups(sentences, k))
      decreases |sentences| - i
    {
      var j := Min(i + k, |sentences|);
      GroupsStep(sentences, i, k);
      assert JoinAll(Groups(sentences[i..], k))
          == [Join(sentences[i..j], " ")] + JoinAll(Groups(sentences[j..], k));
      paragraphs := paragraphs + [Join(sentences[i..j], " ")];
      i := i + k;
      if i >= |sentences| {
        assert sentences[j..] == [];
      } else {
        assert j == i;
      }
    }
    if |sentences| == 0 {
      assert Groups(sentences, k) == [];
    }
  }

  // ---------------------------------------------------------------------------
  // charMaxChecker

  /** The proposed cut: the first space at or after the budget boundary,
      unless there is none or it lies more than `HardLimit` past `cur`. */
  function SpaceCut(u: seq<CodeUnit>, cur: nat, maxSize: nat): (sp: nat)
    ensures cur + 1 <= sp <= |u| || (sp == |u| && cur >= |u|) || maxSize == 0
    ensures sp <= |u|
    ensures sp - cur <= (if maxSize > HardLimit then maxSize else HardLimit)
  {
    var nextCutIndex := Min(cur + maxSize, |u|);
    var nextSpaceIndex := IndexOfFrom(u, Space, nextCutIndex);
    if nextSpaceIndex == -1 || nextSpaceIndex - cur > HardLimit then nextCutIndex
    else nextSpaceIndex
  }

  /** The back-off loop: never cut just after a high surrogate. */
  function BackOff(u: seq<CodeUnit>, sp: nat): (r: nat)
    requires sp <= |u|
    ensures r <= sp
    ensures r == 0 || !IsHighSurrogate(u[r - 1])
  {
    if sp > 0 && IsHighSurrogate(u[sp - 1]) then BackOff(u, sp - 1) else sp
  }

  /** In well-formed text the back-off moves at most one code unit, and only
      off a hard cut that splits a surrogate pair. */
  lemma BackOffOnce(u: seq<CodeUnit>, sp: nat)
    requires sp <= |u| && WellFormedUtf16(u)
    ensures BackOff(u, sp) == sp || (BackOff(u, sp) == sp - 1 && sp < |u| && IsLowSurrogate(u[sp]))
  {
    if sp > 0 && IsHighSurrogate(u[sp - 1]) {
      assert PairedAt(u, sp - 1);
      if sp > 1 {
        assert PairedAt(u, sp - 2);
      }
    }
  }

  /** Where a piece starting at `cur` ends: the proposed cut, backed off a
      high surrogate. In well-formed text the piece is never negative and is
      non-empty once the budget is 2 or more. */
  function CutEnd(u: seq<CodeUnit>, cur: nat, maxSize: nat): (e: nat)
    requires cur < |u| && maxSize >= 1 && WellFormedUtf16(u)
    ensures cur <= e <= |u|
    ensures maxSize >= 2 ==> cur < e
  {
    var sp := SpaceCut(u, cur, maxSize);
    BackOffOnce(u, sp);
    assert BackOff(u, sp) < sp ==> IsHighSurrogate(u[sp - 1]);
    BackOff(u, sp)
  }

  /** A piece fits `max(maxSize, HardLimit)` and does not end in a high
      surrogate. */
  predicate PieceFits(p: seq<CodeUnit>, maxSize: nat) {
    |p| <= (if maxSize > HardLimit then maxSize else HardLimit) && (p == [] || !IsHighSurrogate(p[|p| - 1]))
  }

  lemma FitsCons(p: seq<CodeUnit>, rest: seq<seq<CodeUnit>>, maxSize: nat)
    requires PieceFits(p, maxSize) && forall q :: q in rest ==> PieceFits(q, maxSize)
    ensures forall q :: q in [p] + rest ==> PieceFits(q, maxSize)
  {
    forall q | q in [p] + rest ensures PieceFits(q, maxSize) {
      if q != p {
        assert q in rest;
      }
    }
  }

  /** The piece one cut takes fits `max(maxSize, HardLimit)` and does not
      end in a high surrogate. */
  lemma CutPiece(u: seq<CodeUnit>, cur: nat, maxSize: nat)
    requires cur < |u| && maxSize >= 1 && WellFormedUtf16(u)
    ensures cur <= CutEnd(u, cur, maxSize) <= |u|
    ensures PieceFits(u[cur..CutEnd(u, cur, maxSize)], maxSize)
  {
    var e := CutEnd(u, cur, maxSize);
    if e > cur {
      assert u[cur..e][e - cur - 1] == u[e - 1];
    }
  }

  /** Appending one piece and then the rest is appending both at once. */
  lemma AppendPiece<T>(chunks: seq<T>, piece: T, rest: seq<T>, whole: seq<T>)
    requires chunks + ([piece] + rest) == whole
    ensures (chunks + [piece]) + rest == whole
  {
    assert (chunks + [piece]) + rest == chunks + ([piece] + rest);
  }

  /** The same, with the pieces still to come named `all`. */
  lemma ShiftPiece<T>(chunks: seq<T>, piece: T, all: seq<T>, rest: seq<T>, whole: seq<T>)
    requires all == [piece] + rest && chunks + all == whole
    ensures (chunks + [piece]) + rest == whole
  {
    AppendPiece(chunks, piece, rest, whole);
  }

  lemma AppendEmpty<T>(a: seq<T>)
    ensures [] + a == a && a + [] == a
  {
  }

  /** One cut: the proposed cut index, then the back-off loop. */
  method Cut(u: seq<CodeUnit>, cur: nat, maxSize: nat) returns (nextSpaceIndex: nat)
    requires cur < |u| && maxSize >= 1 && WellFormedUtf16(u)
    ensures nextSpaceIndex == CutEnd(u, cur, maxSize)
  {
    nextSpaceIndex := SpaceCut(u, cur, maxSize);
    ghost var sp := nextSpaceIndex;
    while nextSpaceIndex > 0 && IsHighSurrogate(u[nextSpaceIndex - 1])
      invariant nextSpaceIndex <= |u|
      invariant BackOff(u, nextSpaceIndex) == BackOff(u, sp)
    {
      nextSpaceIndex := nextSpaceIndex - 1;
    }
  }

  /** The pieces `charMaxChecker` emits for one element, as written: after
      every cut the next piece starts one code unit further on. */
  function PiecesAsWritten(u: seq<CodeUnit>, cur: nat, maxSize: nat): seq<seq<CodeUnit>>
    requires cur <= |u| + 1 && maxSize >= 1 && WellFormedUtf16(u)
    decreases |u| + 1 - cur
  {
    if cur >= |u| then []
    else
      var e := CutEnd(u, cur, maxSize);
      [u[cur..e]] + PiecesAsWritten(u, e + 1, maxSize)
  }

  lemma AsWrittenStep(u: seq<CodeUnit>, cur: nat, maxSize: nat)
    requires cur < |u| && maxSize >= 1 && WellFormedUtf16(u)
    ensures var e := CutEnd(u, cur, maxSize);
      PiecesAsWritten(u, cur, maxSize) == [u[cur..e]] + PiecesAsWritten(u, e + 1, maxSize)
  {
  }

  /** The chunks emitted so far, followed by the pieces still to come from
      `cur`, are all the pieces of the element. */
  ghost predicate AccountedAsWritten(chunks: seq<seq<CodeUnit>>, u: seq<CodeUnit>, cur: nat, maxSize: nat, whole: seq<seq<CodeUnit>>)
    requires cur <= |u| + 1 && maxSize >= 1 && WellFormedUtf16(u)
  {
    chunks + PiecesAsWritten(u, cur, maxSize) == whole
  }

  /** One turn of the as-written loop: the piece ending at the cut `e` joins
      the emitted chunks, and the rest restarts one past the cut. */
  lemma AsWrittenAdvance(chunks: seq<seq<CodeUnit>>, u: seq<CodeUnit>, cur: nat, maxSize: nat, whole: seq<seq<CodeUnit>>, e: nat)
    requires cur < |u| && maxSize >= 1 && WellFormedUtf16(u)
    requires e == CutEnd(u, cur, maxSize)
    requires AccountedAsWritten(chunks, u, cur, maxSize, whole)
    ensures cur <= e <= |u|
    ensures AccountedAsWritten(chunks + [u[cur..e]], u, e + 1, maxSize, whole)
  {
    AsWrittenStep(u, cur, maxSize);
    ShiftPiece(chunks, u[cur..e], PiecesAsWritten(u, cur, maxSize), PiecesAsWritten(u, e + 1, maxSize), whole);
  }

  /** One turn of the as-written cut loop: cut, emit the piece, restart one
      code unit past the cut. */
  method CutTurnAsWritten(u: seq<CodeUnit>, cur: nat, maxSize: nat, chunks: seq<seq<CodeUnit>>, ghost whole: seq<seq<CodeUnit>>)
    returns (chunks': seq<seq<CodeUnit>>, next: nat)
    requires cur < |u| && maxSize >= 1 && WellFormedUtf16(u)
    requires AccountedAsWritten(chunks, u, cur, maxSize, whole)
    ensures cur < next <= |u| + 1
    ensures AccountedAsWritten(chunks', u, next, maxSize, whole)
  {
    var nextSpaceIndex := Cut(u, cur, maxSize);
    AsWrittenAdvance(chunks, u, cur, maxSize, whole, nextSpaceIndex);
    chunks' := chunks + [u[cur..nextSpaceIndex]];
    next := nextSpaceIndex + 1;
  }

  /** The cut loop of `charMaxChecker` for one element, as written. */
  method CutElementAsWritten(u: seq<CodeUnit>, maxSize: nat) returns (chunks: seq<seq<CodeUnit>>)
    requires maxSize >= 1 && WellFormedUtf16(u)
    ensures chunks == PiecesAsWritten(u, 0, maxSize)
  {
    chunks := [];
    var currentIndex: nat := 0;
    ghost var whole := PiecesAsWritten(u, 0, maxSize);
    AppendEmpty(whole);
    while currentIndex < |u|
      invariant currentIndex <= |u| + 1
      invariant AccountedAsWritten(chunks, u, currentIndex, maxSize, whole)
      decreases |u| + 1 - currentIndex
    {
      chunks, currentIndex := CutTurnAsWritten(u, currentIndex, maxSize, chunks, whole);
    }
    assert PiecesAsWritten(u, currentIndex, maxSize) == [];
    AppendEmpty(chunks);
  }

  /** Every piece the source emits fits `max(maxSize, HardLimit)` (so at most
      `HardLimit` when the budget is within it) and does not end in a high
      surrogate. */
  lemma {:induction false} PiecesAsWrittenFit(u: seq<CodeUnit>, cur: nat, maxSize: nat)
    requires cur <= |u| + 1 && maxSize >= 1 && WellFormedUtf16(u)
    ensures forall p :: p in PiecesAsWritten(u, cur, maxSize) ==> PieceFits(p, maxSize)
    decreases |u| + 1 - cur
  {
    if cur < |u| {
      var e := CutEnd(u, cur, maxSize);
      AsWrittenStep(u, cur, maxSize);
      CutPiece(u, cur, maxSize);
      PiecesAsWrittenFit(u, e + 1, maxSize);
      FitsCons(u[cur..e], PiecesAsWritten(u, e + 1, maxSize), maxSize);
    }
  }

  /** A hard cut (no space within reach) loses the code unit at the cut:
      "abcdef" with a budget of 2 comes out as "ab", "de". */
  lemma HardCutDropsText()
    ensures WellFormedUtf16([97, 98, 99, 100, 101, 102])
    ensures PiecesAsWritten([97, 98, 99, 100, 101, 102], 0, 2) == [[97, 98], [100, 101]]
  {
    var u: seq<CodeUnit> := [97, 98, 99, 100, 101, 102];
    assert IndexOfFrom(u, Space, 6) == -1;
    assert IndexOfFrom(u, Space, 5) == -1;
    assert IndexOfFrom(u, Space, 4) == -1;
    assert IndexOfFrom(u, Space, 3) == -1;
    assert IndexOfFrom(u, Space, 2) == -1;
    assert SpaceCut(u, 0, 2) == 2;
    assert SpaceCut(u, 3, 2) == 5;
    assert CutEnd(u, 0, 2) == 2;
    assert CutEnd(u, 3, 2) == 5;
    assert PiecesAsWritten(u, 6, 2) == [];
    assert PiecesAsWritten(u, 3, 2) == [u[3..5]];
    assert PiecesAsWritten(u, 0, 2) == [u[0..2]] + [u[3..5]];
    assert u[0..2] == [97, 98] && u[3..5] == [100, 101];
  }

  /** The cut as evidently intended: only a space at the cut is skipped. */
  function NextStart(u: seq<CodeUnit>, e: nat): nat {
    if e < |u| && u[e] == Space then e + 1 else e
  }

  function Pieces(u: seq<CodeUnit>, cur: nat, maxSize: nat): seq<seq<CodeUnit>>
    requires cur <= |u| && maxSize >= 2 && WellFormedUtf16(u)
    decreases |u| - cur
  {
    if cur == |u| then []
    else
      var e := CutEnd(u, cur, maxSize);
      [u[cur..e]] + Pieces(u, NextStart(u, e), maxSize)
  }

  /** Whether a space separated piece `i` from the next. */
  function Separators(u: seq<CodeUnit>, cur: nat, maxSize: nat): seq<bool>
    requires cur <= |u| && maxSize >= 2 && WellFormedUtf16(u)
    decreases |u| - cur
  {
    if cur == |u| then []
    else
      var e := CutEnd(u, cur, maxSize);
      [NextStart(u, e) == e + 1] + Separators(u, NextStart(u, e), maxSize)
  }

  /** The pieces put back together, with a space where one was skipped. */
  function Weave(pieces: seq<seq<CodeUnit>>, spaces: seq<bool>): seq<CodeUnit>
    requires |pieces| == |spaces|
  {
    if pieces == [] then []
    else pieces[0] + (if spaces[0] then [Space] else []) + Weave(pieces[1..], spaces[1..])
  }

  lemma PiecesStep(u: seq<CodeUnit>, cur: nat, maxSize: nat) returns (e: nat, nx: nat)
    requires cur < |u| && maxSize >= 2 && WellFormedUtf16(u)
    ensures e == CutEnd(u, cur, maxSize) && nx == NextStart(u, e)
    ensures cur < nx <= |u| && cur <= e <= |u|
    ensures nx == e || (nx == e + 1 && e < |u| && u[e] == Space)
    ensures Pieces(u, cur, maxSize) == [u[cur..e]] + Pieces(u, nx, maxSize)
    ensures Separators(u, cur, maxSize) == [nx == e + 1] + Separators(u, nx, maxSize)
  {
    e := CutEnd(u, cur, maxSize);
    nx := NextStart(u, e);
  }

  lemma WeaveCons(p: seq<CodeUnit>, space: bool, restP: seq<seq<CodeUnit>>, restS: seq<bool>)
    requires |restP| == |restS|
    ensures Weave([p] + restP, [space] + restS) == p + (if space then [Space] else []) + Weave(restP, restS)
  {
    var ps := [p] + restP;
    var ss := [space] + restS;
    assert ps[0] == p && ss[0] == space && ps[1..] == restP && ss[1..] == restS;
  }

  lemma SliceCons<T>(s: seq<T>, e: nat)
    requires e < |s|
    ensures s[e..] == [s[e]] + s[e + 1..]
  {
  }

  lemma AppendAssoc<T>(a: seq<T>, b: seq<T>, c: seq<T>)
    ensures a + b + c == a + (b + c)
  {
  }

  lemma SplitAt<T>(s: seq<T>, cur: nat, e: nat)
    requires cur <= e <= |s|
    ensures s[cur..] == s[cur..e] + s[e..]
  {
  }

  lemma WeaveStep(u: seq<CodeUnit>, cur: nat, e: nat, nx: nat,
                  ps: seq<seq<CodeUnit>>, ss: seq<bool>, restP: seq<seq<CodeUnit>>, restS: seq<bool>)
    requires cur <= e <= |u| && nx <= |u|
    requires nx == e || (nx == e + 1 && e < |u| && u[e] == Space)
    requires |restP| == |restS| && Weave(restP, restS) == u[nx..]
    requires ps == [u[cur..e]] + restP && ss == [nx == e + 1] + restS
    ensures Weave(ps, ss) == u[cur..]
  {
    WeaveCons(u[cur..e], nx == e + 1, restP, restS);
    SplitAt(u, cur, e);
    if nx == e + 1 {
      SliceCons(u, e);
      AppendAssoc(u[cur..e], [Space], u[nx..]);
    } else {
      AppendEmpty(u[cur..e]);
    }
  }

  /** The corrected cutter loses nothing but the spaces it cuts at. */
  lemma {:induction false} PiecesLossless(u: seq<CodeUnit>, cur: nat, maxSize: nat)
    requires cur <= |u| && maxSize >= 2 && WellFormedUtf16(u)
    ensures |Separators(u, cur, maxSize)| == |Pieces(u, cur, maxSize)|
    ensures Weave(Pieces(u, cur, maxSize), Separators(u, cur, maxSize)) == u[cur..]
    decreases |u| - cur
  {
    if cur < |u| {
      var e, nx := PiecesStep(u, cur, maxSize);
      PiecesLossless(u, nx, maxSize);
      WeaveStep(u, cur, e, nx, Pieces(u, cur, maxSize), Separators(u, cur, maxSize),
                Pieces(u, nx, maxSize), Separators(u, nx, maxSize));
    }
  }

  /** Every piece fits the budget (at most `HardLimit` when the budget is
      within it) and never ends in a high surrogate. */
  lemma {:induction false} PiecesFit(u: seq<CodeUnit>, cur: nat, maxSize: nat)
    requires cur <= |u| && maxSize >= 2 && WellFormedUtf16(u)
    ensures forall p :: p in Pieces(u, cur, maxSize) ==> PieceFits(p, maxSize)
    decreases |u| - cur
  {
    if cur < |u| {
      var e, nx := PiecesStep(u, cur, maxSize);
      CutPiece(u, cur, maxSize);
      PiecesFit(u, nx, maxSize);
      FitsCons(u[cur..e], Pieces(u, nx, maxSize), maxSize);
    }
  }

  /** The cut loop with the corrected restart. */
  method CutElement(u: seq<CodeUnit>, maxSize: nat) returns (chunks: seq<seq<CodeUnit>>)
    requires maxSize >= 2 && WellFormedUtf16(u)
    ensures chunks == Pieces(u, 0, maxSize)
  {
    chunks := [];
    var currentIndex: nat := 0;
    ghost var whole := Pieces(u, 0, maxSize);
    AppendEmpty(whole);
    while currentIndex < |u|
      invariant 0 <= currentIndex <= |u|
      invariant chunks + Pieces(u, currentIndex, maxSize) == whole
      decreases |u| - currentIndex
    {
      var nextSpaceIndex := Cut(u, currentIndex, maxSize);
      var e, nx := PiecesStep(u, currentIndex, maxSize);
      AppendPiece(chunks, u[currentIndex..e], Pieces(u, nx, maxSize), whole);
      chunks := chunks + [u[currentIndex..nextSpaceIndex]];
      currentIndex := NextStart(u, nextSpaceIndex);
    }
    assert Pieces(u, currentIndex, maxSize) == [];
    AppendEmpty(chunks);
  }

  /** One element's pieces: with the source's restart one code unit past
      every cut (`asWritten`), or with the corrected restart. */
  function ElementPieces(u: seq<CodeUnit>, maxSize: nat, asWritten: bool): seq<seq<CodeUnit>>
    requires maxSize >= 2 && WellFormedUtf16(u)
  {
    if asWritten then PiecesAsWritten(u, 0, maxSize) else Pieces(u, 0, maxSize)
  }

  function FlattenPieces(elements: seq<seq<CodeUnit>>, maxSize: nat, asWritten: bool): seq<seq<CodeUnit>>
    requires maxSize >= 2 && forall e :: e in elements ==> WellFormedUtf16(e)
  {
    if elements == [] then []
    else ElementPieces(elements[0], maxSize, asWritten) + FlattenPieces(elements[1..], maxSize, asWritten)
  }

  /** Every piece `charMaxChecker` returns fits the budget (or the 1800
      reach of a space) and never ends in a high surrogate, with either
      restart. */
  lemma {:induction false} FlattenedPiecesFit(elements: seq<seq<CodeUnit>>, maxSize: nat, asWritten: bool)
    requires maxSize >= 2 && forall e :: e in elements ==> WellFormedUtf16(e)
    ensures forall p :: p in FlattenPieces(elements, maxSize, asWritten) ==> PieceFits(p, maxSize)
  {
    if elements != [] {
      if asWritten {
        PiecesAsWrittenFit(elements[0], 0, maxSize);
      } else {
        PiecesFit(elements[0], 0, maxSize);
      }
      FlattenedPiecesFit(elements[1..], maxSize, asWritten);
    }
  }

  lemma FlattenStep(elements: seq<seq<CodeUnit>>, i: nat, maxSize: nat, asWritten: bool)
    requires maxSize >= 2 && forall e :: e in elements ==> WellFormedUtf16(e)
    requires i < |elements|
    ensures FlattenPieces(elements[i..], maxSize, asWritten) ==
      ElementPieces(elements[i], maxSize, asWritten) + FlattenPieces(elements[i + 1..], maxSize, asWritten)
  {
    assert elements[i..][1..] == elements[i + 1..];
  }

  /** `charMaxChecker(arr, maxSize)`: every element cut, the pieces flattened
      in order; `asWritten` picks the source's restart or the corrected one. */
  method CharMaxChecker(elements: seq<seq<CodeUnit>>, maxSize: nat, asWritten: bool) returns (pieces: seq<seq<CodeUnit>>)
    requires maxSize >= 2 && forall e :: e in elements ==> WellFormedUtf16(e)
    ensures pieces == FlattenPieces(elements, maxSize, asWritten)
  {
    pieces := [];
    var i := 0;
    while i < |elements|
      invariant 0 <= i <= |elements|
      invariant pieces + FlattenPieces(elements[i..], maxSize, asWritten) == FlattenPieces(elements, maxSize, asWritten)
    {
      var chunks;
      if asWritten {
        chunks := CutElementAsWritten(elements[i], maxSize);
      } else {
        chunks := CutElement(elements[i], maxSize);
      }
      FlattenStep(elements, i, maxSize, asWritten);
      pieces := pieces + chunks;
      i := i + 1;
    }
  }

  /** The JavaScript strings of the paragraphs; all are well-formed UTF-16. */
  function EncodeAll(paragraphs: seq<string>): (r: seq<seq<CodeUnit>>)
    ensures |r| == |paragraphs|
    ensures forall e :: e in r ==> WellFormedUtf16(e)
  {
    if paragraphs == [] then []
    else
      Utf16WellFormed(paragraphs[0]);
      [Utf16(paragraphs[0])] + EncodeAll(paragraphs[1..])
  }

  /** `makeParagraphs(transcript, maxLength)` once the transcript is split
      into sentences and its language detected. */
  method MakeParagraphs(sentences: seq<string>, languageCode: string, maxLength: nat, asWritten: bool)
    returns (pieces: seq<seq<CodeUnit>>)
    requires maxLength >= 2
    ensures pieces ==
      FlattenPieces(EncodeAll(JoinAll(Groups(sentences, SentencesPerParagraph(languageCode)))), maxLength, asWritten)
    ensures forall p :: p in pieces ==> PieceFits(p, maxLength)
  {
    var paragraphs := SentenceGrouper(sentences, SentencesPerParagraph(languageCode));
    var encoded := EncodeAll(paragraphs);
    pieces := CharMaxChecker(encoded, maxLength, asWritten);
    FlattenedPiecesFit(encoded, maxLength, asWritten);
  }
}
