/**
  The period-gap scan (`findLongestPeriodGap`): the longest run of code
  units strictly between two consecutive periods of the transcript.
*/
module PeriodGap {
  import opened JsText

  const Period: CodeUnit := 0x2E

  /** The text reported when the transcript has no period. */
  const NoPeriodNote: seq<CodeUnit> := Utf16("Brak kropki")

  /** The result object; `encodedGapLength`, the token count of the gap text,
      comes from the tokenizer and is not part of this model. */
  datatype GapInfo = GapInfo(longestGap: int, longestGapText: seq<CodeUnit>)

  predicate HasPeriod(text: seq<CodeUnit>) {
    exists k :: 0 <= k < |text| && text[k] == Period
  }

  predicate NoPeriodIn(text: seq<CodeUnit>, lo: int, hi: int) {
    forall k :: lo <= k < hi && 0 <= k < |text| ==> text[k] != Period
  }

  /** Periods at `i` and `j` with none in between. */
  predicate Consecutive(text: seq<CodeUnit>, i: int, j: int) {
    0 <= i < j < |text| && text[i] == Period && text[j] == Period && NoPeriodIn(text, i + 1, j)
  }

  /** Every gap closed before `n` is at most `g`. */
  ghost predicate GapsAtMost(text: seq<CodeUnit>, n: int, g: int) {
    forall a, b :: Consecutive(text, a, b) && b < n ==> b - a - 1 <= g
  }

  /** Every gap opened before `s` is shorter than `g`. */
  ghost predicate EarlierShorter(text: seq<CodeUnit>, s: int, g: int) {
    forall a, b :: Consecutive(text, a, b) && a < s ==> b - a - 1 < g
  }

  /** The gap starting at `s` has length `g` and text `t`. */
  predicate GapAt(text: seq<CodeUnit>, s: int, g: int, t: seq<CodeUnit>) {
    Consecutive(text, s, s + g + 1) && t == text[s + 1..s + g + 1]
  }

  lemma PeriodStep(text: seq<CodeUnit>, last: int, i: int, g: int)
    requires Consecutive(text, last, i)
    requires GapsAtMost(text, i, g)
    ensures GapsAtMost(text, i + 1, if i - last - 1 > g then i - last - 1 else g)
    ensures i - last - 1 > g ==> EarlierShorter(text, last, i - last - 1)
  {
    forall a, b | Consecutive(text, a, b) && b == i ensures a == last {
    }
    if i - last - 1 > g {
      forall a, b | Consecutive(text, a, b) && a < last ensures b - a - 1 < i - last - 1 {
      }
    }
  }

  lemma OtherStep(text: seq<CodeUnit>, i: int, g: int)
    requires 0 <= i < |text| && text[i] != Period
    requires GapsAtMost(text, i, g)
    ensures GapsAtMost(text, i + 1, g)
  {
  }

  /** The loop variables `lastPeriodIndex`, `longestGap`, `longestGapText`. */
  datatype ScanState = ScanState(last: int, gap: int, gapText: seq<CodeUnit>)

  /** One iteration of the scan, at index `i`. */
  function Step(text: seq<CodeUnit>, st: ScanState, i: nat): ScanState
    requires i < |text| && 0 <= st.last + 1 <= i
  {
    if text[i] != Period then st
    else if st.last == -1 then ScanState(i, st.gap, st.gapText)
    else if i - st.last - 1 > st.gap then ScanState(i, i - st.last - 1, text[st.last + 1..i])
    else ScanState(i, st.gap, st.gapText)
  }

  /** The loop state after the first `n` code units. */
  function Scan(text: seq<CodeUnit>, n: nat): (st: ScanState)
    requires n <= |text|
    ensures -1 <= st.last < n
  {
    if n == 0 then ScanState(-1, 0, []) else Step(text, Scan(text, n - 1), n - 1)
  }

  function Report(st: ScanState): GapInfo {
    if st.last == -1 then GapInfo(-1, NoPeriodNote) else GapInfo(st.gap, st.gapText)
  }

  /** What the scan knows after `n` code units. */
  ghost predicate ScanInv(text: seq<CodeUnit>, n: nat, st: ScanState)
    requires n <= |text|
  {
    && -1 <= st.last < n
    && (st.last == -1 ==> NoPeriodIn(text, 0, n))
    && (st.last >= 0 ==> text[st.last] == Period && NoPeriodIn(text, st.last + 1, n))
    && st.gap >= 0
    && GapsAtMost(text, n, st.gap)
    && (st.gap == 0 ==> st.gapText == [])
    && (st.gap > 0 ==> exists s :: GapAt(text, s, st.gap, st.gapText) && EarlierShorter(text, s, st.gap))
  }

  /** A code unit other than a period keeps the invariant. */
  lemma OtherKeepsInv(text: seq<CodeUnit>, i: nat, st: ScanState)
    requires i < |text| && text[i] != Period && ScanInv(text, i, st)
    ensures ScanInv(text, i + 1, Step(text, st, i))
  {
    OtherStep(text, i, st.gap);
  }

  /** The first period keeps the invariant: no gap has closed yet. */
  lemma FirstPeriodKeepsInv(text: seq<CodeUnit>, i: nat, st: ScanState)
    requires i < |text| && text[i] == Period && st.last == -1 && ScanInv(text, i, st)
    ensures ScanInv(text, i + 1, Step(text, st, i))
  {
  }

  /** A later period closes a gap, which becomes the longest when it
      exceeds every earlier one. */
  lemma PeriodKeepsInv(text: seq<CodeUnit>, i: nat, st: ScanState)
    requires i < |text| && text[i] == Period && st.last >= 0 && ScanInv(text, i, st)
    ensures ScanInv(text, i + 1, Step(text, st, i))
  {
    PeriodStep(text, st.last, i, st.gap);
    if i - st.last - 1 > st.gap {
      assert GapAt(text, st.last, i - st.last - 1, text[st.last + 1..i]);
    }
  }

  /** One step of the scan keeps the invariant. */
  lemma StepKeepsInv(text: seq<CodeUnit>, i: nat, st: ScanState)
    requires i < |text| && ScanInv(text, i, st)
    ensures ScanInv(text, i + 1, Step(text, st, i))
  {
    if text[i] != Period {
      OtherKeepsInv(text, i, st);
    } else if st.last == -1 {
      FirstPeriodKeepsInv(text, i, st);
    } else {
      PeriodKeepsInv(text, i, st);
    }
  }

  lemma {:induction false} ScanKeepsInv(text: seq<CodeUnit>, n: nat)
    requires n <= |text|
    ensures ScanInv(text, n, Scan(text, n))
  {
    if n > 0 {
      ScanKeepsInv(text, n - 1);
      StepKeepsInv(text, n - 1, Scan(text, n - 1));
    }
  }

  /** `longestGap` is -1 exactly when there is no period. Otherwise it bounds
      every gap between consecutive periods, and when positive it is reached
      by a gap whose text is `longestGapText`, and no earlier gap reaches it. */
  lemma LongestGapSpec(text: seq<CodeUnit>)
    ensures Report(Scan(text, |text|)).longestGap == -1 <==> !HasPeriod(text)
    ensures Report(Scan(text, |text|)).longestGap == -1 ==>
      Report(Scan(text, |text|)).longestGapText == NoPeriodNote
    ensures var r := Report(Scan(text, |text|));
      r.longestGap >= 0 ==> GapsAtMost(text, |text|, r.longestGap)
    ensures var r := Report(Scan(text, |text|));
      r.longestGap > 0 ==>
        exists s :: GapAt(text, s, r.longestGap, r.longestGapText) && EarlierShorter(text, s, r.longestGap)
    ensures var r := Report(Scan(text, |text|));
      r.longestGap == 0 ==> r.longestGapText == []
  {
    ScanKeepsInv(text, |text|);
  }

  /** `findLongestPeriodGap` */
  method FindLongestPeriodGap(text: seq<CodeUnit>) returns (r: GapInfo)
    ensures r == Report(Scan(text, |text|))
    ensures r.longestGap == -1 <==> !HasPeriod(text)
    ensures r.longestGap == -1 ==> r.longestGapText == NoPeriodNote
    ensures r.longestGap >= 0 ==> GapsAtMost(text, |text|, r.longestGap)
    ensures r.longestGap > 0 ==>
      exists s :: GapAt(text, s, r.longestGap, r.longestGapText) && EarlierShorter(text, s, r.longestGap)
    ensures r.longestGap == 0 ==> r.longestGapText == []
  {
    var lastPeriodIndex := -1;
    var longestGap := 0;
    var longestGapText: seq<CodeUnit> := [];
    var i := 0;
    while i < |text|
      invariant 0 <= i <= |text|
      invariant ScanState(lastPeriodIndex, longestGap, longestGapText) == Scan(text, i)
    {
      if text[i] == Period {
        if lastPeriodIndex == -1 {
          lastPeriodIndex := i;
        } else {
          var gap := i - lastPeriodIndex - 1;
          if gap > longestGap {
            longestGap := gap;
            longestGapText := text[lastPeriodIndex + 1..i];
          }
          lastPeriodIndex := i;
        }
      }
      i := i + 1;
    }
    if lastPeriodIndex == -1 {
      r := GapInfo(-1, NoPeriodNote);
    } else {
      r := GapInfo(longestGap, longestGapText);
    }
    LongestGapSpec(text);
  }
}
