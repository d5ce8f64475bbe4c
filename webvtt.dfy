/**
  `formatWebVTT` of Notion-Voice-Notes: the WebVTT text of a Deepgram
  transcript rewritten line by line for the note, cue timings cut to
  their start and voice tags turned into "Speaker: words".
*/
module WebVtt {
  import opened Wrappers
  import opened JsText

  /** The first `\n` of `s`. */
  function NewlineIndex(s: string): (r: Option<nat>)
    ensures r.Some? ==> r.value < |s| && s[r.value] == '\n' && forall k :: 0 <= k < r.value ==> s[k] != '\n'
    ensures r.None? ==> forall k :: 0 <= k < |s| ==> s[k] != '\n'
  {
    if s == [] then None
    else if s[0] == '\n' then Some(0)
    else match NewlineIndex(s[1..])
      case None => None
      case Some(k) => Some(k + 1)
  }

  predicate NoNewline(s: string) {
    forall k :: 0 <= k < |s| ==> s[k] != '\n'
  }

  /** `s.split("\n")`: the lines, none holding a newline, that the newlines
      join back into `s`. */
  function Split(s: string): (r: seq<string>)
    ensures |r| >= 1
    ensures forall i :: 0 <= i < |r| ==> NoNewline(r[i])
    ensures Join(r, "\n") == s
    decreases |s|
  {
    match NewlineIndex(s)
    case None => [s]
    case Some(i) =>
      var rest := Split(s[i + 1..]);
      assert Join([s[..i]] + rest, "\n") == s[..i] + "\n" + Join(rest, "\n") by {
        assert ([s[..i]] + rest)[1..] == rest;
      }
      assert s == s[..i] + "\n" + s[i + 1..];
      [s[..i]] + rest
  }

  /** The first newline of `s` is the one at `i`. */
  lemma NewlineIndexAt(s: string, i: nat)
    requires i < |s| && s[i] == '\n' && forall k :: 0 <= k < i ==> s[k] != '\n'
    ensures NewlineIndex(s) == Some(i)
  {
  }

  /** Splitting at the newlines undoes joining lines that hold none. */
  lemma {:induction false} SplitJoin(lines: seq<string>)
    requires |lines| >= 1 && forall i :: 0 <= i < |lines| ==> NoNewline(lines[i])
    ensures Split(Join(lines, "\n")) == lines
  {
    if |lines| == 1 {
      assert NewlineIndex(lines[0]).None?;
    } else {
      var first := lines[0];
      var rest := lines[1..];
      var tail := Join(rest, "\n");
      var s := first + "\n" + tail;
      assert Join(lines, "\n") == s;
      SplitJoin(rest);
      forall k | 0 <= k < |first|
        ensures s[k] != '\n'
      {
        assert s[k] == first[k];
      }
      NewlineIndexAt(s, |first|);
      assert s[..|first|] == first;
      assert s[|first| + 1..] == tail;
      assert [first] + rest == lines;
    }
  }

  // ------------------------------------------------------------ one line

  predicate IsDigit(c: char) {
    '0' <= c <= '9'
  }

  // `^\d{2}:\d{2}:\d{2}.\d{3}.*` matches: a cue timing. The regular
  // expression's `.` admits any character but a line terminator.
  predicate IsCueTiming(s: string) {
    |s| >= 12 &&
    IsDigit(s[0]) && IsDigit(s[1]) && s[2] == ':' && IsDigit(s[3]) && IsDigit(s[4]) && s[5] == ':' &&
    IsDigit(s[6]) && IsDigit(s[7]) && !IsLineTerminator(s[8]) &&
    IsDigit(s[9]) && IsDigit(s[10]) && IsDigit(s[11])
  }

  /** `s.split(sub)[0]`: the text before the first occurrence of `sub`. */
  function Before(s: string, sub: string): (r: string)
    requires sub != []
    ensures |r| <= |s| && r == s[..|r|]
    ensures forall k :: 0 <= k < |r| ==> !StartsWith(s[k..], sub)
    ensures |r| < |s| ==> StartsWith(s[|r|..], sub)
  {
    if s == [] || StartsWith(s, sub) then []
    else
      var r := [s[0]] + Before(s[1..], sub);
      assert forall k :: 1 <= k < |r| ==> s[k..] == s[1..][k - 1..];
      r
  }

  /** The first `>` at or after `k`. */
  function CloseAfter(s: string, k: nat): (r: Option<nat>)
    requires k <= |s|
    ensures r.Some? ==> k <= r.value < |s| && s[r.value] == '>' && forall j :: k <= j < r.value ==> s[j] != '>'
    ensures r.None? ==> forall j :: k <= j < |s| ==> s[j] != '>'
    decreases |s| - k
  {
    if k == |s| then None
    else if s[k] == '>' then Some(k)
    else CloseAfter(s, k + 1)
  }

  /** `<v ([^>]+)>` matches at `i`: the tag opens there and the first `>`
      after it leaves a name of at least one character. */
  predicate VoiceAt(s: string, i: nat) {
    i + 3 <= |s| && s[i..i + 3] == "<v " &&
    var c := CloseAfter(s, i + 3); c.Some? && c.value > i + 3
  }

  /** The leftmost voice tag at or after `i`. */
  function FirstVoice(s: string, i: nat): (r: Option<nat>)
    requires i <= |s|
    ensures r.Some? ==> i <= r.value && VoiceAt(s, r.value) && forall j :: i <= j < r.value ==> !VoiceAt(s, j)
    ensures r.None? ==> forall j :: i <= j ==> !VoiceAt(s, j)
    decreases |s| - i
  {
    if VoiceAt(s, i) then Some(i)
    else if i == |s| then None
    else FirstVoice(s, i + 1)
  }

  /** `(.*)` from `k`: up to the first line terminator. */
  function RestOfLine(s: string, k: nat): (r: string)
    requires k <= |s|
    ensures |r| <= |s| - k && r == s[k..k + |r|]
    ensures forall j :: 0 <= j < |r| ==> !IsLineTerminator(r[j])
    ensures k + |r| < |s| ==> IsLineTerminator(s[k + |r|])
    decreases |s| - k
  {
    if k == |s| || IsLineTerminator(s[k]) then []
    else [s[k]] + RestOfLine(s, k + 1)
  }

  /** How one line of the transcript is written out. */
  datatype LineKind = Timing | Voice(name: string, words: string) | Plain

  /** Which branch of the loop body a trimmed line takes; a voice tag is
      read from the leftmost place `<v ([^>]+)>(.*)` matches. */
  function Classify(t: string): (k: LineKind)
    ensures k.Timing? <==> IsCueTiming(t)
    ensures k.Voice? ==> (k.name != [] && '>' !in k.name && exists i :: TagAt(t, i, k.name, k.words))
  {
    if IsCueTiming(t) then Timing
    else match FirstVoice(t, 0)
      case None => Plain
      case Some(i) =>
        var j := CloseAfter(t, i + 3).value;
        assert TagAt(t, i, t[i + 3..j], RestOfLine(t, j + 1));
        Voice(t[i + 3..j], RestOfLine(t, j + 1))
  }

  /** `<v name>` at `i`, followed by `words` up to the end of the line. */
  predicate TagAt(t: string, i: nat, name: string, words: string) {
    i + 3 + |name| < |t| && t[i..i + 3] == "<v " && t[i + 3..i + 3 + |name|] == name &&
    t[i + 3 + |name|] == '>' && words == RestOfLine(t, i + 4 + |name|)
  }

  /** One output line: a cue timing up to ` --> `, a voice tag's name, a
      colon and its trimmed words, or the trimmed line itself. */
  function FormatLine(line: string): string {
    var t := Trim(line);
    match Classify(t)
    case Timing => Before(t, " --> ")
    case Voice(name, words) => name + ": " + Trim(words)
    case Plain => t
  }

  /** What `FormatLine` writes for each kind of line. */
  lemma FormatLineCases(line: string)
    ensures var t := Trim(line); var r := FormatLine(line);
      (IsCueTiming(t) ==> (StartsWith(t, r) && (|r| < |t| <==> StartsWith(t[|r|..], " --> ")) &&
        forall k :: 0 <= k < |r| ==> !StartsWith(t[k..], " --> "))) &&
      (Classify(t).Voice? ==> r == Classify(t).name + ": " + Trim(Classify(t).words)) &&
      (Classify(t).Plain? ==> r == t)
  {
  }

  // ----------------------------------------------------- the whole transcript

  lemma TrimKeeps(s: string)
    requires NoNewline(s)
    ensures NoNewline(Trim(s))
  {
    var t := TrimStart(s);
    var r := TrimEnd(t);
    assert Trim(s) == r;
    forall k | 0 <= k < |r|
      ensures r[k] != '\n'
    {
      assert r[k] == t[k] == s[|s| - |t| + k];
    }
  }

  lemma SliceNoNewline(t: string, lo: nat, hi: nat)
    requires lo <= hi <= |t| && NoNewline(t)
    ensures NoNewline(t[lo..hi])
  {
    forall k | 0 <= k < hi - lo
      ensures t[lo..hi][k] != '\n'
    {
      assert t[lo..hi][k] == t[lo + k];
    }
  }

  lemma ConcatNoNewline(a: string, b: string)
    requires NoNewline(a) && NoNewline(b)
    ensures NoNewline(a + b)
  {
    forall k | 0 <= k < |a + b|
      ensures (a + b)[k] != '\n'
    {
      if k < |a| {
        assert (a + b)[k] == a[k];
      } else {
        assert (a + b)[k] == b[k - |a|];
      }
    }
  }

  /** A voice tag's name and words lie inside the line they were read from. */
  lemma TagKeeps(t: string, i: nat, name: string, words: string)
    requires NoNewline(t) && TagAt(t, i, name, words)
    ensures NoNewline(name + ": " + Trim(words))
  {
    var lo := i + 4 + |name|;
    SliceNoNewline(t, i + 3, i + 3 + |name|);
    assert name == t[i + 3..i + 3 + |name|];
    SliceNoNewline(t, lo, lo + |words|);
    assert words == t[lo..lo + |words|];
    TrimKeeps(words);
    ConcatNoNewline(name, ": ");
    ConcatNoNewline(name + ": ", Trim(words));
  }

  /** A line without a newline is written out without one. */
  lemma FormatLineNoNewline(line: string)
    requires NoNewline(line)
    ensures NoNewline(FormatLine(line))
  {
    var t := Trim(line);
    TrimKeeps(line);
    var c := Classify(t);
    match c
    case Voice(name, words) =>
      var i :| TagAt(t, i, name, words);
      TagKeeps(t, i, name, words);
    case Timing =>
      assert Before(t, " --> ") == t[..|Before(t, " --> ")|];
    case Plain =>
  }

  /** Every line written out in turn by `f`. */
  function MapLines(f: string -> string, lines: seq<string>): seq<string> {
    if lines == [] then [] else MapLines(f, lines[..|lines| - 1]) + [f(lines[|lines| - 1])]
  }

  /** Line `k` of the result is line `k` written out; when `f` adds no
      newline, no line of the result holds one. */
  lemma {:induction false} MapLinesIndex(f: string -> string, lines: seq<string>)
    ensures |MapLines(f, lines)| == |lines|
    ensures forall k :: 0 <= k < |lines| ==> MapLines(f, lines)[k] == f(lines[k])
    ensures ((forall k :: 0 <= k < |lines| ==> NoNewline(lines[k])) && (forall l :: NoNewline(l) ==> NoNewline(f(l))))
      ==> forall k :: 0 <= k < |lines| ==> NoNewline(MapLines(f, lines)[k])
  {
    if lines != [] {
      MapLinesIndex(f, lines[..|lines| - 1]);
    }
  }

  /** The loop of `formatWebVTT`. */
  method FormatLines(lines: seq<string>) returns (formatted: seq<string>)
    ensures formatted == MapLines(FormatLine, lines)
  {
    formatted := [];
    for i := 0 to |lines|
      invariant formatted == MapLines(FormatLine, lines[..i])
    {
      assert lines[..i + 1][..i] == lines[..i];
      formatted := formatted + [FormatLine(lines[i])];
    }
    assert lines[..|lines|] == lines;
  }

  /** `formatWebVTT(webVTTString)`: the lines written out one by one and
      joined again with newlines. */
  method FormatWebVTT(vtt: string) returns (r: string)
    ensures |Split(r)| == |Split(vtt)|
    ensures forall k :: 0 <= k < |Split(vtt)| ==> Split(r)[k] == FormatLine(Split(vtt)[k])
  {
    var lines := Split(vtt);
    var formatted := FormatLines(lines);
    forall l | NoNewline(l) ensures NoNewline(FormatLine(l)) {
      FormatLineNoNewline(l);
    }
    MapLinesIndex(FormatLine, lines);
    r := Join(formatted, "\n");
    SplitJoin(formatted);
  }
}
