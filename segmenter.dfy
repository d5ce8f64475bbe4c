/**
  `chunkFile`: how many pieces a recording is cut into, how long each
  ffmpeg segment is, and the names the pieces get.

  Sizes are bytes and durations integer hundredths of a second, the
  resolution of ffmpeg's `Duration: HH:MM:SS.cc` line; the division
  by 1024·1024 and by the chunk count is done exactly, rounding up.
  The copy, probe and split processes themselves are not modelled:
  their outputs (the probe text, the exit code and error text of the
  split) are parameters.
*/
module Segmenter {
  import opened Wrappers
  import opened JsText
  import opened Paths

  const MiB := 1024 * 1024
  const DefaultChunkMB := 24

  /** The settings form only admits whole sizes from 10 to 50 MB. Within
      them, the `?? 24` of Kamil, Nagraniepraw and Notion-Voice-Notes and
      the `|| 24` of Nagraniaa pick the same size. */
  predicate ValidSetting(setting: Option<int>) {
    setting.Some? ==> 10 <= setting.value <= 50
  }

  /** `chunkSize` in MB: the setting, or 24 when it is unset. */
  function ChunkMB(setting: Option<int>): (mb: nat)
    requires ValidSetting(setting)
    ensures 10 <= mb <= 50
    ensures setting.Some? ==> mb == setting.value
    ensures setting.None? ==> mb == DefaultChunkMB
  {
    setting.GetOr(DefaultChunkMB)
  }

  /** `Math.ceil(a / b)` on whole numbers. */
  function CeilDiv(a: nat, b: nat): (q: nat)
    requires b > 0
    ensures q * b >= a
    ensures q > 0 ==> (q - 1) * b < a
  {
    var q := (a + b - 1) / b;
    assert a + b - 1 == q * b + (a + b - 1) % b;
    assert q > 0 ==> (q - 1) * b == q * b - b;
    q
  }

  /** `CeilDiv` is the least number of `b`-sized pieces that hold `a`. */
  lemma CeilDivLeast(a: nat, b: nat, n: nat)
    requires b > 0 && n * b >= a
    ensures CeilDiv(a, b) <= n
  {
    var q := CeilDiv(a, b);
    if q > n {
      MulMono(n, q - 1, b);
    }
  }

  lemma MulMono(x: nat, y: nat, b: nat)
    requires x <= y
    ensures x * b <= y * b
  {
  }

  /** `numberOfChunks`: the ceiling of the size in MB over the chunk size. */
  function ChunkCount(bytes: nat, mb: nat): (n: nat)
    requires mb > 0
    ensures n * (mb * MiB) >= bytes
    ensures n > 0 ==> (n - 1) * (mb * MiB) < bytes
  {
    CeilDiv(bytes, mb * MiB)
  }

  /** The file is passed on whole exactly when it is not empty and fits
      in one chunk; an empty file counts no chunks at all. */
  lemma SingleChunk(bytes: nat, mb: nat)
    requires mb > 0
    ensures ChunkCount(bytes, mb) == 1 <==> 0 < bytes <= mb * MiB
    ensures ChunkCount(bytes, mb) == 0 <==> bytes == 0
  {
    var n := ChunkCount(bytes, mb);
    if 0 < bytes <= mb * MiB {
      CeilDivLeast(bytes, mb * MiB, 1);
    }
    if n >= 2 {
      MulMono(1, n - 1, mb * MiB);
    }
  }

  // --------------------------------------------------------- the duration

  predicate IsDigit(c: char) {
    '0' <= c <= '9'
  }

  function DigitValue(c: char): nat
    requires IsDigit(c)
  {
    c as int - '0' as int
  }

  function TwoDigits(s: string, i: nat): nat
    requires i + 2 <= |s| && IsDigit(s[i]) && IsDigit(s[i + 1])
  {
    10 * DigitValue(s[i]) + DigitValue(s[i + 1])
  }

  /** `\d{2}:\d{2}:\d{2}\.\d{2}` matches at `i`. */
  predicate StampAt(s: string, i: nat) {
    i + 11 <= |s| &&
    IsDigit(s[i]) && IsDigit(s[i + 1]) && s[i + 2] == ':' &&
    IsDigit(s[i + 3]) && IsDigit(s[i + 4]) && s[i + 5] == ':' &&
    IsDigit(s[i + 6]) && IsDigit(s[i + 7]) && s[i + 8] == '.' &&
    IsDigit(s[i + 9]) && IsDigit(s[i + 10])
  }

  /** `hours * 60 * 60 + minutes * 60 + seconds` of the stamp at `i`, in hundredths. */
  function StampValue(s: string, i: nat): nat
    requires StampAt(s, i)
  {
    ((TwoDigits(s, i) * 60 + TwoDigits(s, i + 3)) * 60 + TwoDigits(s, i + 6)) * 100 + TwoDigits(s, i + 9)
  }

  const Label := "Duration: "

  /** The probe's pattern matches at `i`: `Duration: ` and a stamp
      (`labelled`, the Polish variants), or a bare stamp (Notion-Voice-Notes,
      which reads the lines its `grep "Duration"` kept). */
  predicate MatchAt(s: string, labelled: bool, i: nat) {
    if labelled then i + |Label| <= |s| && s[i..i + |Label|] == Label && StampAt(s, i + |Label|)
    else StampAt(s, i)
  }

  /** Where the stamp of a match at `i` starts. */
  function StampStart(labelled: bool, i: nat): nat {
    if labelled then i + |Label| else i
  }

  /** The leftmost match at or after `i`, as `String.prototype.match` finds it. */
  function FirstMatch(s: string, labelled: bool, i: nat): (r: Option<nat>)
    requires i <= |s|
    ensures r.Some? ==> (i <= r.value <= |s| && MatchAt(s, labelled, r.value) &&
      forall j :: i <= j < r.value ==> !MatchAt(s, labelled, j))
    ensures r.None? ==> forall j :: i <= j ==> !MatchAt(s, labelled, j)
    decreases |s| - i
  {
    if MatchAt(s, labelled, i) then Some(i)
    else if i == |s| then None
    else FirstMatch(s, labelled, i + 1)
  }

  /** The duration the probe output reports, in hundredths, or `None`
      when the pattern does not match. */
  function Duration(s: string, labelled: bool): Option<nat> {
    match FirstMatch(s, labelled, 0)
    case None => None
    case Some(i) => Some(StampValue(s, StampStart(labelled, i)))
  }

  /** The two digits of `n` < 100. */
  function Pad2(n: nat): string
    requires n < 100
  {
    [('0' as int + n / 10) as char, ('0' as int + n % 10) as char]
  }

  /** How ffmpeg prints a duration under 100 hours. */
  function Stamp(d: nat): (s: string)
    requires d < 100 * 3600 * 100
    ensures |s| == 11
  {
    Pad2(d / 360000) + ":" + Pad2(d / 6000 % 60) + ":" + Pad2(d / 100 % 60) + "." + Pad2(d % 100)
  }

  lemma HundredthsToMinutes(d: nat)
    ensures d / 100 / 60 == d / 6000
  {
  }

  lemma MinutesToHours(d: nat)
    ensures d / 6000 / 60 == d / 360000
  {
  }

  /** A duration is its hours, minutes, seconds and hundredths again. */
  lemma Decompose(d: nat)
    ensures d == ((d / 360000 * 60 + d / 6000 % 60) * 60 + d / 100 % 60) * 100 + d % 100
  {
    var q1 := d / 100;
    var q2 := q1 / 60;
    HundredthsToMinutes(d);
    MinutesToHours(d);
    assert d == q1 * 100 + d % 100;
    assert q1 == q2 * 60 + q1 % 60;
    assert q2 == q2 / 60 * 60 + q2 % 60;
  }

  lemma StampReads(d: nat, s: string, i: nat)
    requires d < 100 * 3600 * 100
    requires i + 11 <= |s| && s[i..i + 11] == Stamp(d)
    ensures StampAt(s, i) && StampValue(s, i) == d
  {
    assert s[i..i + 11][0] == s[i];
    Decompose(d);
  }

  /** What the probe reads back is the duration ffmpeg printed, whatever
      text follows it. */
  lemma DurationRoundTrip(d: nat, rest: string)
    requires d < 100 * 3600 * 100
    ensures Duration(Label + Stamp(d) + rest, true) == Some(d)
    ensures Duration(Stamp(d) + rest, false) == Some(d)
  {
    var s := Label + Stamp(d) + rest;
    assert s[..|Label|] == Label;
    assert s[|Label|..|Label| + 11] == Stamp(d);
    StampReads(d, s, |Label|);
    var t := Stamp(d) + rest;
    assert t[0..11] == Stamp(d);
    StampReads(d, t, 0);
  }

  /** A stamp reported further on is not consulted: the first match wins. */
  lemma FirstStampWins(d: nat, e: nat, between: string)
    requires d < 100 * 3600 * 100 && e < 100 * 3600 * 100
    ensures Duration(Label + Stamp(d) + between + Label + Stamp(e), true) == Some(d)
  {
    DurationRoundTrip(d, between + Label + Stamp(e));
    assert Label + Stamp(d) + between + Label + Stamp(e) == Label + Stamp(d) + (between + Label + Stamp(e));
  }

  // ------------------------------------------------------ the segment time

  /** `segmentTime.toString()`: whole seconds, or what `Math.ceil` of a
      division by a chunk count of 0 gives. */
  datatype SegmentTime = Seconds(n: nat) | Infinity | NaN

  /** `Math.ceil(totalSeconds / numberOfChunks)` for a duration in hundredths. */
  function SegmentSeconds(hundredths: nat, count: nat): (t: SegmentTime)
    ensures count == 0 ==> t == (if hundredths > 0 then Infinity else NaN)
    ensures count > 0 ==> (t.Seconds? &&
      t.n * 100 * count >= hundredths && (t.n > 0 ==> (t.n - 1) * 100 * count < hundredths))
  {
    if count == 0 then (if hundredths > 0 then Infinity else NaN)
    else
      var n := CeilDiv(hundredths, 100 * count);
      assert n * (100 * count) == n * 100 * count;
      assert n > 0 ==> (n - 1) * (100 * count) == (n - 1) * 100 * count;
      Seconds(n)
  }

  /** Segments of that length cover the recording in at most `count`
      pieces, and a recording of some length needs at least one. */
  lemma SegmentsFitCount(hundredths: nat, count: nat)
    requires count > 0 && hundredths > 0
    ensures var t := SegmentSeconds(hundredths, count);
      t.n > 0 && 1 <= CeilDiv(hundredths, 100 * t.n) <= count
  {
    var t := SegmentSeconds(hundredths, count).n;
    assert t * 100 * count == count * (100 * t);
    CeilDivLeast(hundredths, 100 * t, count);
  }

  // ------------------------------------------------------------ the names

  /** `%03d`: at least three digits, padded with zeros. */
  function Pad3(k: nat): (s: string)
    ensures k < 1000 ==> |s| == 3
  {
    if k < 10 then "00" + IntToString(k)
    else if k < 100 then
      assert IntToString(k) == IntToString(k / 10) + [('0' as int + k % 10) as char];
      "0" + IntToString(k)
    else
      assert IntToString(k) == IntToString(k / 10) + [('0' as int + k % 10) as char];
      assert k < 1000 ==> IntToString(k / 10) == IntToString(k / 100) + [('0' as int + k / 10 % 10) as char];
      IntToString(k)
  }

  /** The value of three decimal digits. */
  function ThreeDigitValue(s: string): int
    requires |s| == 3
  {
    (s[0] as int - '0' as int) * 100 + (s[1] as int - '0' as int) * 10 + (s[2] as int - '0' as int)
  }

  lemma Pad3Reads(k: nat)
    requires k < 1000
    ensures ThreeDigitValue(Pad3(k)) == k
  {
    if 10 <= k < 100 {
      assert IntToString(k) == IntToString(k / 10) + [('0' as int + k % 10) as char];
    } else if k >= 100 {
      assert IntToString(k) == IntToString(k / 10) + [('0' as int + k % 10) as char];
      assert IntToString(k / 10) == IntToString(k / 100) + [('0' as int + k / 10 % 10) as char];
    }
  }

  /** ffmpeg's `chunk-%03d<ext>` for segment `k`. */
  function SegmentName(k: nat, ext: string): string {
    "chunk-" + Pad3(k) + ext
  }

  /** The first thousand segment names are all different, and each holds
      the `chunk-` that the count of pieces looks for. */
  lemma SegmentNamesDistinct(a: nat, b: nat, ext: string)
    requires a < 1000 && b < 1000
    ensures StartsWith(SegmentName(a, ext), "chunk-")
    ensures SegmentName(a, ext) == SegmentName(b, ext) ==> a == b
  {
    var na, nb := SegmentName(a, ext), SegmentName(b, ext);
    assert na[..6] == "chunk-";
    if na == nb {
      assert na[6..9] == Pad3(a);
      assert nb[6..9] == Pad3(b);
      Pad3Reads(a);
      Pad3Reads(b);
    }
  }

  /** The name of the whole-file copy is the name of segment 0. */
  lemma CopyIsSegmentZero(ext: string)
    ensures "chunk-000" + ext == SegmentName(0, ext)
  {
  }

  // -------------------------------------------------- the whole `chunkFile`

  /** `labelled`: the probe looks for `Duration: ` before the stamp. */
  datatype SegmenterVariant = SegmenterVariant(labelled: bool)

  /** Kamil, Nagraniaa and Nagraniepraw. */
  const Polish := SegmenterVariant(true)
  const VoiceNotes := SegmenterVariant(false)

  /** `cp` to `chunk-000<ext>`, or an ffmpeg split into `chunk-%03d<ext>` at the given segment time. */
  datatype Plan = Copy(target: string) | Split(segmentTime: SegmentTime, ext: string)

  /** `ProbeFailed`: Notion-Voice-Notes' `grep "Duration"` kept no line,
      so it exits 1 and the probe command itself fails. */
  datatype Chunking = Planned(plan: Plan) | ProbeFailed | NoDuration | SplitFailed(code: int, stderr: string)

  /** `chunkFile` for a file at `path` of `bytes` bytes, given what the
      duration probe printed (for Notion-Voice-Notes, the lines `grep`
      kept) and how the split process ended. */
  function ChunkFile(v: SegmenterVariant, path: string, bytes: nat, setting: Option<int>,
                     probe: string, exitCode: int, stderr: string): Chunking
    requires ValidSetting(setting)
  {
    var count := ChunkCount(bytes, ChunkMB(setting));
    var ext := Extname(path);
    if count == 1 then Planned(Copy("chunk-000" + ext))
    else if !v.labelled && probe == "" then ProbeFailed
    else match Duration(probe, v.labelled)
      case None => NoDuration
      case Some(d) =>
        if exitCode != 0 then SplitFailed(exitCode, stderr)
        else Planned(Split(SegmentSeconds(d, count), ext))
  }

  /** `chunkFile` copies the file whole, with no probe read, exactly when
      it is not empty and fits one chunk; the copy is named as segment 0. */
  lemma ChunkFileCopies(v: SegmenterVariant, path: string, bytes: nat, setting: Option<int>,
                        probe: string, exitCode: int, stderr: string)
    requires ValidSetting(setting)
    ensures var r := ChunkFile(v, path, bytes, setting, probe, exitCode, stderr);
      r.Planned? && r.plan.Copy? <==> 0 < bytes <= ChunkMB(setting) * MiB
    ensures var r := ChunkFile(v, path, bytes, setting, probe, exitCode, stderr);
      r.Planned? && r.plan.Copy? ==> r.plan.target == SegmentName(0, Extname(path))
  {
    CopyOnSingleChunk(v, path, bytes, setting, probe, exitCode, stderr);
    SingleChunk(bytes, ChunkMB(setting));
    CopyIsSegmentZero(Extname(path));
  }

  lemma CopyOnSingleChunk(v: SegmenterVariant, path: string, bytes: nat, setting: Option<int>,
                          probe: string, exitCode: int, stderr: string)
    requires ValidSetting(setting)
    ensures var r := ChunkFile(v, path, bytes, setting, probe, exitCode, stderr);
      (r.Planned? && r.plan.Copy? <==> ChunkCount(bytes, ChunkMB(setting)) == 1) &&
      (r.Planned? && r.plan.Copy? ==> r.plan.target == "chunk-000" + Extname(path))
  {
    var r := ChunkFile(v, path, bytes, setting, probe, exitCode, stderr);
    if ChunkCount(bytes, ChunkMB(setting)) != 1 {
      var d := Duration(probe, v.labelled);
      if d.Some? && exitCode == 0 {
        assert r == Planned(Split(SegmentSeconds(d.value, ChunkCount(bytes, ChunkMB(setting))), Extname(path)));
      }
    }
  }

  /** Otherwise it fails when the probe command fails, when the probe shows
      no duration, or when the split exits non-zero. */
  lemma ChunkFileFails(v: SegmenterVariant, path: string, bytes: nat, setting: Option<int>,
                       probe: string, exitCode: int, stderr: string)
    requires ValidSetting(setting)
    ensures var r := ChunkFile(v, path, bytes, setting, probe, exitCode, stderr);
      r.ProbeFailed? <==> (bytes == 0 || bytes > ChunkMB(setting) * MiB) && !v.labelled && probe == ""
    ensures var r := ChunkFile(v, path, bytes, setting, probe, exitCode, stderr);
      r.NoDuration? <==> ((bytes == 0 || bytes > ChunkMB(setting) * MiB) && (v.labelled || probe != "") &&
        Duration(probe, v.labelled).None?)
    ensures var r := ChunkFile(v, path, bytes, setting, probe, exitCode, stderr);
      r.SplitFailed? <==> ((bytes == 0 || bytes > ChunkMB(setting) * MiB) &&
        Duration(probe, v.labelled).Some? && exitCode != 0)
  {
    SingleChunk(bytes, ChunkMB(setting));
  }

  /** A split of a recording of some length cuts segments that cover it in
      at most the planned number of pieces. */
  lemma ChunkFileSegments(v: SegmenterVariant, path: string, bytes: nat, setting: Option<int>,
                          probe: string, exitCode: int, stderr: string)
    requires ValidSetting(setting)
    ensures var r := ChunkFile(v, path, bytes, setting, probe, exitCode, stderr);
      r.Planned? && r.plan.Split? && bytes > 0 && Duration(probe, v.labelled).value > 0 ==>
        var count := ChunkCount(bytes, ChunkMB(setting));
        var t := r.plan.segmentTime;
        count >= 2 && t.Seconds? && t.n > 0 &&
        t.n * 100 * count >= Duration(probe, v.labelled).value &&
        CeilDiv(Duration(probe, v.labelled).value, 100 * t.n) <= count
  {
    var mb := ChunkMB(setting);
    var count := ChunkCount(bytes, mb);
    SingleChunk(bytes, mb);
    var d := Duration(probe, v.labelled);
    if count != 1 && bytes > 0 && d.Some? && d.value > 0 {
      SegmentsFitCount(d.value, count);
    }
  }

  const NoDurationMessage := "Nie mo\U{017C}na okre\U{015B}li\U{0107} czasu trwania pliku"
  const NoMatchMessage := "Cannot read properties of null (reading '0')"

  /** How `chunkFile` settles: it resolves, rejects with an error whose
      message is given, or rejects with the error of Node's `exec`, whose
      message names the command line and is not modelled. */
  datatype Settled = Resolves | RejectsWith(message: string) | ExecRejects

  /** How `chunkFile` settles for each chunking. The Polish variants reject
      with their own texts; Notion-Voice-Notes rejects with `exec`'s error
      when the probe or the split command fails, and with the error of
      `.match(...)[0]` on a probe line without a stamp. */
  function Rejection(v: SegmenterVariant, c: Chunking): (r: Settled)
    ensures r.Resolves? <==> c.Planned?
    ensures r.ExecRejects? <==> c.ProbeFailed? || (!v.labelled && c.SplitFailed?)
    ensures c.NoDuration? ==> r.RejectsWith? && r.message == (if v.labelled then NoDurationMessage else NoMatchMessage)
    ensures c.SplitFailed? && r.RejectsWith? ==>
      StartsWith(r.message, "Proces ffmpeg zako\U{0144}czy\U{0142} si\U{0119} kodem ") && EndsWith(r.message, c.stderr)
  {
    match c
    case Planned(_) => Resolves
    case ProbeFailed => ExecRejects
    case NoDuration => RejectsWith(if v.labelled then NoDurationMessage else NoMatchMessage)
    case SplitFailed(code, stderr) =>
      if v.labelled then
        var head := "Proces ffmpeg zako\U{0144}czy\U{0142} si\U{0119} kodem ";
        var m := head + IntToString(code) + ": " + stderr;
        assert m[..|head|] == head;
        assert m[|m| - |stderr|..] == stderr;
        RejectsWith(m)
      else ExecRejects
  }

  /** Kamil's and Nagraniaa's `chunkFileAndTranscribe` rethrow a chunking
      failure under their own heading. */
  function SplittingError(message: string): (r: string)
    ensures StartsWith(r, "B\U{0142}\U{0105}d dzielenia pliku: ") && EndsWith(r, message)
  {
    "B\U{0142}\U{0105}d dzielenia pliku: " + message
  }
}
