/**
  The token chunker (`splitTranscript`): the encoded transcript is cut into
  windows of `maxTokens` tokens, each boundary snapped to a nearby period
  token when the transcript has a period at all. Tokens are abstract;
  `isPeriod(t)` stands for the tokenizer's `decode([t]) === "."`.
*/
module TokenChunker {

  /** How far each of the two period searches may move. */
  const SearchBudget: nat := 100

  /** The token at `i` decodes to "."; the index one past the end, which the
      backward search may read, is not a period. */
  predicate PeriodAt<T>(tokens: seq<T>, isPeriod: T -> bool, i: int) {
    0 <= i < |tokens| && isPeriod(tokens[i])
  }

  /** The forward `while` loop, from index `f` with `budget` steps left. */
  function Forward<T>(tokens: seq<T>, isPeriod: T -> bool, f: nat, budget: nat): nat
    decreases budget
  {
    if f < |tokens| && budget > 0 && !PeriodAt(tokens, isPeriod, f)
    then Forward(tokens, isPeriod, f + 1, budget - 1)
    else f
  }

  /** The backward `while` loop, from index `b` with `budget` steps left. */
  function Backward<T>(tokens: seq<T>, isPeriod: T -> bool, b: nat, budget: nat): nat
    decreases budget
  {
    if b > 0 && budget > 0 && !PeriodAt(tokens, isPeriod, b)
    then Backward(tokens, isPeriod, b - 1, budget - 1)
    else b
  }

  /** Declarative reading of the forward search from `end`: `f` is the first
      period at or after `end`, unless the budget or the input ran out. */
  ghost predicate ForwardStop<T>(tokens: seq<T>, isPeriod: T -> bool, end: nat, f: nat) {
    end <= f && (f <= |tokens| || f == end) && f <= end + SearchBudget
    && (forall k :: end <= k < f ==> !PeriodAt(tokens, isPeriod, k))
    && (f >= |tokens| || f == end + SearchBudget || PeriodAt(tokens, isPeriod, f))
  }

  /** Declarative reading of the backward search from `end`: `b` is the last
      period at or before `end`, unless the budget ran out or 0 was reached. */
  ghost predicate BackwardStop<T>(tokens: seq<T>, isPeriod: T -> bool, end: nat, b: nat) {
    b <= end && end <= b + SearchBudget
    && (forall k :: b < k <= end ==> !PeriodAt(tokens, isPeriod, k))
    && (b == 0 || b + SearchBudget == end || PeriodAt(tokens, isPeriod, b))
  }

  lemma {:induction false} ForwardSearch<T>(tokens: seq<T>, isPeriod: T -> bool, end: nat, f: nat, budget: nat)
    requires end <= f <= |tokens| || f == end
    requires f - end + budget == SearchBudget
    requires forall k :: end <= k < f ==> !PeriodAt(tokens, isPeriod, k)
    ensures ForwardStop(tokens, isPeriod, end, Forward(tokens, isPeriod, f, budget))
    decreases budget
  {
    if f < |tokens| && budget > 0 && !PeriodAt(tokens, isPeriod, f) {
      ForwardSearch(tokens, isPeriod, end, f + 1, budget - 1);
    }
  }

  lemma {:induction false} BackwardSearch<T>(tokens: seq<T>, isPeriod: T -> bool, end: nat, b: nat, budget: nat)
    requires b <= end && end - b + budget == SearchBudget
    requires forall k :: b < k <= end ==> !PeriodAt(tokens, isPeriod, k)
    ensures BackwardStop(tokens, isPeriod, end, Backward(tokens, isPeriod, b, budget))
    decreases budget
  {
    if b > 0 && budget > 0 && !PeriodAt(tokens, isPeriod, b) {
      BackwardSearch(tokens, isPeriod, end, b - 1, budget - 1);
    }
  }

  function Min(a: int, b: int): int {
    if a <= b then a else b
  }

  /** The raw boundary `Math.min(currentIndex + maxTokens, length)`. */
  function RawEnd<T>(tokens: seq<T>, cur: nat, maxTokens: nat): nat {
    Min(cur + maxTokens, |tokens|)
  }

  /** Forward wins only when strictly closer; a tie goes backward. */
  function Nearer(end: nat, f: nat, b: nat): nat
    requires b <= end <= f
  {
    if f - end < end - b then f else b
  }

  /** The next `currentIndex`. */
  function Boundary<T>(tokens: seq<T>, isPeriod: T -> bool, hasPeriod: bool, cur: nat, maxTokens: nat): (e: nat)
    requires cur < |tokens|
    requires maxTokens >= (if hasPeriod then SearchBudget else 1)
    ensures cur < e <= |tokens|
    ensures e <= cur + maxTokens + SearchBudget + 1
    ensures !hasPeriod ==> e == RawEnd(tokens, cur, maxTokens)
  {
    var end := RawEnd(tokens, cur, maxTokens);
    if !hasPeriod then end
    else
      var f := Forward(tokens, isPeriod, end, SearchBudget);
      var b := Backward(tokens, isPeriod, end, SearchBudget);
      ForwardSearch(tokens, isPeriod, end, end, SearchBudget);
      BackwardSearch(tokens, isPeriod, end, end, SearchBudget);
      var chosen := Nearer(end, f, b);
      if chosen < |tokens| then chosen + 1 else chosen
  }

  /** Period snapping: both searches stop where their declarative reading
      says, the nearer stop is chosen with ties going backward, and the
      boundary then moves past the chosen token unless it is the end. */
  lemma SnapShape<T>(tokens: seq<T>, isPeriod: T -> bool, cur: nat, maxTokens: nat)
    requires cur < |tokens| && maxTokens >= SearchBudget
    ensures var end := RawEnd(tokens, cur, maxTokens);
      exists f: nat, b: nat ::
        ForwardStop(tokens, isPeriod, end, f) && BackwardStop(tokens, isPeriod, end, b)
        && (b <= end <= f)
        && var chosen := if f - end < end - b then f else b;
           Boundary(tokens, isPeriod, true, cur, maxTokens)
             == (if chosen < |tokens| then chosen + 1 else chosen)
  {
    var end := RawEnd(tokens, cur, maxTokens);
    ForwardSearch(tokens, isPeriod, end, end, SearchBudget);
    BackwardSearch(tokens, isPeriod, end, end, SearchBudget);
    var f := Forward(tokens, isPeriod, end, SearchBudget);
    var b := Backward(tokens, isPeriod, end, SearchBudget);
    assert ForwardStop(tokens, isPeriod, end, f) && BackwardStop(tokens, isPeriod, end, b);
  }

  /** The chunks from `cur` on, as token slices. */
  function Chunks<T>(tokens: seq<T>, isPeriod: T -> bool, hasPeriod: bool, maxTokens: nat, cur: nat): seq<seq<T>>
    requires cur <= |tokens|
    requires maxTokens >= (if hasPeriod then SearchBudget else 1)
    decreases |tokens| - cur
  {
    if cur == |tokens| then []
    else
      var e := Boundary(tokens, isPeriod, hasPeriod, cur, maxTokens);
      [tokens[cur..e]] + Chunks(tokens, isPeriod, hasPeriod, maxTokens, e)
  }

  function Concat<T>(chunks: seq<seq<T>>): seq<T> {
    if chunks == [] then [] else chunks[0] + Concat(chunks[1..])
  }

  /** The partition is lossless: the chunks concatenate back to the input. */
  lemma {:induction false} ChunksLossless<T>(tokens: seq<T>, isPeriod: T -> bool, hasPeriod: bool, maxTokens: nat, cur: nat)
    requires cur <= |tokens|
    requires maxTokens >= (if hasPeriod then SearchBudget else 1)
    ensures Concat(Chunks(tokens, isPeriod, hasPeriod, maxTokens, cur)) == tokens[cur..]
    decreases |tokens| - cur
  {
    if cur < |tokens| {
      var e := Boundary(tokens, isPeriod, hasPeriod, cur, maxTokens);
      var cs := Chunks(tokens, isPeriod, hasPeriod, maxTokens, cur);
      ChunksLossless(tokens, isPeriod, hasPeriod, maxTokens, e);
      assert cs[1..] == Chunks(tokens, isPeriod, hasPeriod, maxTokens, e);
      assert tokens[cur..] == tokens[cur..e] + tokens[e..];
    }
  }

  /** Every chunk is non-empty and at most `maxTokens + 101` tokens long. */
  lemma {:induction false} ChunksBounded<T>(tokens: seq<T>, isPeriod: T -> bool, hasPeriod: bool, maxTokens: nat, cur: nat)
    requires cur <= |tokens|
    requires maxTokens >= (if hasPeriod then SearchBudget else 1)
    ensures forall c :: c in Chunks(tokens, isPeriod, hasPeriod, maxTokens, cur) ==>
      0 < |c| <= maxTokens + SearchBudget + 1
    decreases |tokens| - cur
  {
    if cur < |tokens| {
      var e := Boundary(tokens, isPeriod, hasPeriod, cur, maxTokens);
      ChunksBounded(tokens, isPeriod, hasPeriod, maxTokens, e);
    }
  }

  /** Without a period the chunks are consecutive `maxTokens` windows, the
      last one possibly shorter (with `ChunksLossless` this fixes every
      chunk). */
  lemma {:induction false} ChunksWithoutPeriod<T>(tokens: seq<T>, isPeriod: T -> bool, maxTokens: nat, cur: nat)
    requires cur <= |tokens| && maxTokens >= 1
    ensures var cs := Chunks(tokens, isPeriod, false, maxTokens, cur);
      (forall i :: 0 <= i < |cs| - 1 ==> |cs[i]| == maxTokens)
      && (|cs| > 0 ==> 0 < |cs[|cs| - 1]| <= maxTokens)
      && (cs == [] <==> cur == |tokens|)
    decreases |tokens| - cur
  {
    var cs := Chunks(tokens, isPeriod, false, maxTokens, cur);
    if cur < |tokens| {
      var e := RawEnd(tokens, cur, maxTokens);
      ChunksWithoutPeriod(tokens, isPeriod, maxTokens, e);
      var rest := Chunks(tokens, isPeriod, false, maxTokens, e);
      assert cs == [tokens[cur..e]] + rest;
      if rest != [] {
        assert e == cur + maxTokens;
        forall i | 0 <= i < |cs| - 1 ensures |cs[i]| == maxTokens {
          if i > 0 { assert cs[i] == rest[i - 1]; }
        }
      }
    }
  }

  /** One boundary of `splitTranscript`: the raw window end, then the two
      bounded period searches and the choice between them. */
  method NextBoundary<T>(tokens: seq<T>, isPeriod: T -> bool, hasPeriod: bool, currentIndex: nat, maxTokens: nat)
    returns (endIndex: nat)
    requires currentIndex < |tokens|
    requires maxTokens >= (if hasPeriod then SearchBudget else 1)
    ensures endIndex == Boundary(tokens, isPeriod, hasPeriod, currentIndex, maxTokens)
  {
    endIndex := Min(currentIndex + maxTokens, |tokens|);
    var nonPeriodEndIndex := endIndex;
    if hasPeriod {
      var forwardEndIndex: nat := endIndex;
      var backwardEndIndex: nat := endIndex;
      var maxSearch: nat := SearchBudget;
      while forwardEndIndex < |tokens| && maxSearch > 0 && !PeriodAt(tokens, isPeriod, forwardEndIndex)
        invariant endIndex <= forwardEndIndex
        invariant Forward(tokens, isPeriod, forwardEndIndex, maxSearch)
               == Forward(tokens, isPeriod, endIndex, SearchBudget)
        decreases maxSearch
      {
        forwardEndIndex := forwardEndIndex + 1;
        maxSearch := maxSearch - 1;
      }
      maxSearch := SearchBudget;
      while backwardEndIndex > 0 && maxSearch > 0 && !PeriodAt(tokens, isPeriod, backwardEndIndex)
        invariant backwardEndIndex <= endIndex
        invariant Backward(tokens, isPeriod, backwardEndIndex, maxSearch)
               == Backward(tokens, isPeriod, endIndex, SearchBudget)
        decreases maxSearch
      {
        backwardEndIndex := backwardEndIndex - 1;
        maxSearch := maxSearch - 1;
      }
      endIndex := if forwardEndIndex - nonPeriodEndIndex < nonPeriodEndIndex - backwardEndIndex
                  then forwardEndIndex else backwardEndIndex;
      if endIndex < |tokens| {
        endIndex := endIndex + 1;
      }
    }
  }

  /** One turn of the split loop: the slice up to the boundary, then the
      chunks from the boundary on. */
  lemma ChunksStep<T>(tokens: seq<T>, isPeriod: T -> bool, hasPeriod: bool, maxTokens: nat, cur: nat)
    requires cur < |tokens|
    requires maxTokens >= (if hasPeriod then SearchBudget else 1)
    ensures var e := Boundary(tokens, isPeriod, hasPeriod, cur, maxTokens);
      Chunks(tokens, isPeriod, hasPeriod, maxTokens, cur) == [tokens[cur..e]] + Chunks(tokens, isPeriod, hasPeriod, maxTokens, e)
  {
  }

  /** The chunks already cut, followed by those still to come from `cur`, are
      all the chunks of the transcript. */
  lemma ChunksAdvance<T>(chunks: seq<seq<T>>, tokens: seq<T>, isPeriod: T -> bool, hasPeriod: bool, maxTokens: nat, cur: nat, e: nat)
    requires cur < |tokens|
    requires maxTokens >= (if hasPeriod then SearchBudget else 1)
    requires e == Boundary(tokens, isPeriod, hasPeriod, cur, maxTokens)
    requires chunks + Chunks(tokens, isPeriod, hasPeriod, maxTokens, cur) == Chunks(tokens, isPeriod, hasPeriod, maxTokens, 0)
    ensures cur < e <= |tokens|
    ensures (chunks + [tokens[cur..e]]) + Chunks(tokens, isPeriod, hasPeriod, maxTokens, e) == Chunks(tokens, isPeriod, hasPeriod, maxTokens, 0)
  {
    var rest := Chunks(tokens, isPeriod, hasPeriod, maxTokens, e);
    ChunksStep(tokens, isPeriod, hasPeriod, maxTokens, cur);
    assert (chunks + [tokens[cur..e]]) + rest == chunks + ([tokens[cur..e]] + rest);
  }

  /** `splitTranscript`, returning the token slices (each of which the
      source then decodes back to text). */
  method SplitTranscript<T>(tokens: seq<T>, maxTokens: nat, hasPeriod: bool, isPeriod: T -> bool)
    returns (chunks: seq<seq<T>>)
    requires maxTokens >= (if hasPeriod then SearchBudget else 1)
    ensures chunks == Chunks(tokens, isPeriod, hasPeriod, maxTokens, 0)
    ensures Concat(chunks) == tokens
    ensures forall c :: c in chunks ==> 0 < |c| <= maxTokens + SearchBudget + 1
  {
    chunks := [];
    var currentIndex := 0;
    while currentIndex < |tokens|
      invariant 0 <= currentIndex <= |tokens|
      invariant chunks + Chunks(tokens, isPeriod, hasPeriod, maxTokens, currentIndex)
             == Chunks(tokens, isPeriod, hasPeriod, maxTokens, 0)
      decreases |tokens| - currentIndex
    {
      var endIndex := NextBoundary(tokens, isPeriod, hasPeriod, currentIndex, maxTokens);
      ChunksAdvance(chunks, tokens, isPeriod, hasPeriod, maxTokens, currentIndex, endIndex);
      chunks := chunks + [tokens[currentIndex..endIndex]];
      currentIndex := endIndex;
    }
    ChunksLossless(tokens, isPeriod, hasPeriod, maxTokens, 0);
    ChunksBounded(tokens, isPeriod, hasPeriod, maxTokens, 0);
  }
}
