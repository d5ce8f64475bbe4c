/**
  Stitching the ordered transcription of every audio segment into one
  transcript (`combineWhisperChunks`).
*/
module Stitcher {
  import opened JsText

  /** A segment's trailing period is dropped when the next segment is
      non-empty and its first character is unchanged by lower-casing. */
  predicate DropsPeriod(current: string, next: string) {
    next != "" && EndsWith(current, ".") && StartsLowercase(next)
  }

  /** Segment `i` as it appears in the transcript, before its separator. */
  function KeptAt(segments: seq<string>, i: nat): string
    requires i < |segments|
  {
    if i + 1 < |segments| && DropsPeriod(segments[i], segments[i + 1])
    then segments[i][..|segments[i]| - 1]
    else segments[i]
  }

  function Kept(segments: seq<string>): (r: seq<string>)
    ensures |r| == |segments|
  {
    seq(|segments|, i requires 0 <= i < |segments| => KeptAt(segments, i))
  }

  /** Reference definition of the stitched transcript: the kept segments
      separated by single spaces. */
  function Stitched(segments: seq<string>): string {
    Join(Kept(segments), " ")
  }

  /** What the loop appends at step `i`. */
  function Piece(segments: seq<string>, i: nat): string
    requires i < |segments|
  {
    if i + 1 < |segments| then KeptAt(segments, i) + " " else KeptAt(segments, i)
  }

  function Appended(segments: seq<string>, n: nat): string
    requires n <= |segments|
  {
    if n == 0 then "" else Appended(segments, n - 1) + Piece(segments, n - 1)
  }

  /** Joining from position `i` on starts with part `i` and, unless it is
      the last, the separator. */
  lemma JoinFrom(parts: seq<string>, i: nat, sep: string)
    requires i < |parts|
    ensures i + 1 < |parts| ==> Join(parts[i..], sep) == parts[i] + sep + Join(parts[i + 1..], sep)
    ensures i + 1 == |parts| ==> Join(parts[i..], sep) == parts[i]
  {
    assert parts[i..][0] == parts[i];
    if i + 1 < |parts| {
      assert parts[i..][1..] == parts[i + 1..];
    }
  }

  lemma {:induction false} AppendedJoin(segments: seq<string>, n: nat)
    requires 0 < n <= |segments|
    ensures n < |segments| ==>
      Appended(segments, n) + Join(Kept(segments)[n..], " ") == Stitched(segments)
    ensures n == |segments| ==> Appended(segments, n) == Stitched(segments)
  {
    var k := Kept(segments);
    var before := Appended(segments, n - 1);
    if n == 1 {
      assert k[0..] == k;
    } else {
      AppendedJoin(segments, n - 1);
    }
    assert before + Join(k[n - 1..], " ") == Stitched(segments);
    JoinFrom(k, n - 1, " ");
    if n < |segments| {
      assert before + Join(k[n - 1..], " ") == (before + Piece(segments, n - 1)) + Join(k[n..], " ");
    }
  }

  /** `combineWhisperChunks`: segment texts are appended in order. */
  method CombineWhisperChunks(segments: seq<string>) returns (combined: string)
    ensures combined == Stitched(segments)
  {
    combined := "";
    var i := 0;
    while i < |segments|
      invariant 0 <= i <= |segments|
      invariant combined == Appended(segments, i)
    {
      var current := segments[i];
      if i < |segments| - 1 && DropsPeriod(current, segments[i + 1]) {
        current := current[..|current| - 1];
      }
      if i < |segments| - 1 {
        current := current + " ";
      }
      combined := combined + current;
      i := i + 1;
    }
    if |segments| > 0 {
      AppendedJoin(segments, |segments|);
    }
  }

  function TotalLength(segments: seq<string>): nat {
    if segments == [] then 0 else |segments[0]| + TotalLength(segments[1..])
  }

  /** Number of segments whose trailing period is dropped. */
  function DroppedPeriods(segments: seq<string>): nat {
    if |segments| < 2 then 0
    else (if DropsPeriod(segments[0], segments[1]) then 1 else 0) + DroppedPeriods(segments[1..])
  }

  lemma KeptTail(segments: seq<string>)
    requires |segments| >= 2
    ensures Kept(segments)[1..] == Kept(segments[1..])
  {
    var a := Kept(segments)[1..];
    var b := Kept(segments[1..]);
    forall i | 0 <= i < |a| ensures a[i] == b[i] {
      assert segments[1..][i] == segments[i + 1];
      if i + 1 < |segments[1..]| {
        assert segments[1..][i + 1] == segments[i + 2];
      }
    }
  }

  /** Stitching neither loses nor invents characters: the transcript is the
      segments, one space per boundary, minus exactly the dropped periods. */
  lemma {:induction false} StitchedLength(segments: seq<string>)
    requires |segments| >= 1
    ensures |Stitched(segments)| == TotalLength(segments) + (|segments| - 1) - DroppedPeriods(segments)
  {
    if |segments| >= 2 {
      var k := Kept(segments);
      KeptTail(segments);
      StitchedLength(segments[1..]);
      assert Stitched(segments) == k[0] + " " + Stitched(segments[1..]);
    }
  }

  /** One segment is passed through unchanged; the last segment is always
      appended as delivered, and each earlier segment loses its period
      exactly when `DropsPeriod` holds. */
  lemma StitchedSegments(segments: seq<string>)
    ensures |segments| == 1 ==> Stitched(segments) == segments[0]
    ensures |segments| >= 1 ==> EndsWith(Stitched(segments), segments[|segments| - 1])
    ensures forall i :: 0 <= i < |segments| - 1 ==>
      (DropsPeriod(segments[i], segments[i + 1]) && Kept(segments)[i] == segments[i][..|segments[i]| - 1])
      || (Kept(segments)[i] == segments[i] && !DropsPeriod(segments[i], segments[i + 1]))
  {
    if |segments| >= 1 {
      StitchedEndsWithLast(Kept(segments));
    }
  }

  lemma {:induction false} StitchedEndsWithLast(k: seq<string>)
    requires |k| >= 1
    ensures EndsWith(Join(k, " "), k[|k| - 1])
  {
    if |k| >= 2 {
      StitchedEndsWithLast(k[1..]);
      var j := Join(k[1..], " ");
      assert Join(k, " ") == (k[0] + " ") + j;
      assert k[1..][|k[1..]| - 1] == k[|k| - 1];
      var whole := (k[0] + " ") + j;
      assert whole[|whole| - |k[|k| - 1]|..] == j[|j| - |k[|k| - 1]|..];
    }
  }

  /** The lower-case test is broader than it reads: a period before a
      segment that starts with a digit is dropped, since lower-casing leaves
      a digit unchanged, while one before a capital letter is kept. */
  lemma DigitContinuesSentence(a: string, b: string)
    requires EndsWith(a, ".") && b != ""
    ensures '0' <= b[0] <= '9' ==> Stitched([a, b]) == a[..|a| - 1] + " " + b
    ensures 'A' <= b[0] <= 'Z' ==> Stitched([a, b]) == a + " " + b
  {
    var k := Kept([a, b]);
    assert k[1] == b;
    assert Stitched([a, b]) == k[0] + " " + Join(k[1..], " ");
    assert k[1..] == [b];
  }
}
