/**
  What a recording must satisfy before it is downloaded: `checkSize` on
  the size the trigger reports, and the extension check and temporary
  path of `downloadToTmp`.

  Sizes are bytes. The download itself is a parameter: the error it
  threw, if any.
*/
module SizeGuard {
  import opened Wrappers
  import opened JsText
  import opened Paths

  // ------------------------------------------------------------ `checkSize`

  /** The check against the Notion plan when the file is to be attached
      (`dodac_plik`): none, a rejection (Kamil, Notatka) or only a flag
      (Nagraniepraw). `free` names the free plan as the settings form
      offers it; `freeText`/`paidText` are the limits in MB as the
      message prints them. */
  datatype PlanRule =
    | NoPlanCheck
    | PlanCheck(rejects: bool, free: string, freeLimit: nat, paidLimit: nat, freeText: string, paidText: string)

  datatype SizePolicy = SizePolicy(limit: nat, tooLarge: string, plan: PlanRule)

  const Mimes := [".mp3", ".m4a", ".wav", ".mp4", ".mpeg", ".mpga", ".webm"]

  const KamilSize := SizePolicy(500000000,
    "Plik jest zbyt du\U{017C}y. Pliki musz\U{0105} by\U{0107} mniejsze ni\U{017C} 500MB.",
    PlanCheck(true, "Darmowy (max 4.8MB)", 4800000, 1000000000, "4.8", "1000"))

  const NagraniaaSize := SizePolicy(500000000,
    "Plik jest zbyt du\U{017C}y. Pliki musz\U{0105} by\U{0107} mniejsze ni\U{017C} 500MB.", NoPlanCheck)

  const NagraniaprawSize := SizePolicy(500000000,
    "Plik jest zbyt du\U{017C}y. Pliki musz\U{0105} by\U{0107} mniejsze ni\U{017C} 500MB i by\U{0107} jednym z nast\U{0119}puj\U{0105}cych format\U{00F3}w: " +
    Join(Mimes, ", ") + ".\n        \n        Uwaga: Je\U{015B}li przesy\U{0142}asz szczeg\U{00F3}lnie du\U{017C}y plik " +
    "i pojawia si\U{0119} b\U{0142}\U{0105}d Out of Memory, spr\U{00F3}buj zwi\U{0119}kszy\U{0107} ustawienie RAM w Twoim workflow.",
    PlanCheck(false, "Darmowy (max 5MB)", 5000000, 100000000, "5", "100"))

  const VoiceNotesSize := SizePolicy(200000000,
    "File is too large. Files must be under 200mb and one of the following file types: " + Join(Mimes, ", ") +
    ".\n\t\t\t\t\t\n\t\t\t\t\tNote: If you upload a particularly large file and get an Out of Memory error, " +
    "try setting your workflow's RAM setting higher. Learn how to do this here: https://pipedream.com/docs/workflows/settings/#memory",
    NoPlanCheck)

  /** The Notion limit for the chosen plan: the free one only when the
      plan setting is exactly its name. */
  function PlanLimit(rule: PlanRule, plan: string): (limit: nat)
    requires rule.PlanCheck?
    ensures limit == rule.freeLimit || limit == rule.paidLimit
    ensures limit == rule.freeLimit <==> plan == rule.free || rule.freeLimit == rule.paidLimit
  {
    if plan == rule.free then rule.freeLimit else rule.paidLimit
  }

  /** Whether the file exceeds the Notion limit of the plan it is to be attached under. */
  predicate OverPlan(rule: PlanRule, size: nat, attach: bool, plan: string) {
    rule.PlanCheck? && attach && size > PlanLimit(rule, plan)
  }

  /** `checkSize`'s verdict. `Ok(tooLargeForNotion)`: the file may be processed, and
      whether the flagging variant marks it to be linked instead of
      attached. */
  function SizeCheck(p: SizePolicy, size: nat, attach: bool, plan: string): (r: Result<bool>)
    ensures r.Err? <==> size > p.limit || (OverPlan(p.plan, size, attach, plan) && p.plan.rejects)
    ensures r.Ok? ==> (r.value <==> OverPlan(p.plan, size, attach, plan) && !p.plan.rejects)
    ensures size > p.limit ==> r == Err(p.tooLarge)
  {
    if size > p.limit then Err(p.tooLarge)
    else if OverPlan(p.plan, size, attach, plan) then
      var limitText := if plan == p.plan.free then p.plan.freeText else p.plan.paidText;
      if p.plan.rejects then
        Err("Plik jest zbyt du\U{017C}y dla wybranego planu Notion. Maksymalny rozmiar dla planu " + plan + " to " + limitText + "MB.")
      else Ok(true)
    else Ok(false)
  }

  /** Where Kamil rejects a file for the free Notion plan, Nagraniepraw
      goes on and only marks it, and neither variant looks at the plan
      when the file is not to be attached. */
  lemma PlanOnlyMattersForAttachments(size: nat, plan: string)
    ensures SizeCheck(KamilSize, size, false, plan) == SizeCheck(NagraniaaSize, size, false, plan) == Ok(false)
      <==> size <= 500000000
    ensures size <= 500000000 && plan == KamilSize.plan.free && size > 4800000 ==>
      SizeCheck(KamilSize, size, true, plan).Err?
    ensures size <= 500000000 && plan == NagraniaprawSize.plan.free && size > 5000000 ==>
      SizeCheck(NagraniaprawSize, size, true, plan) == Ok(true)
  {
  }

  /** A file the paid plan refuses, the free plan refuses too. */
  lemma FreePlanIsStricter(p: SizePolicy, size: nat, other: string)
    requires p.plan.PlanCheck? && p.plan.freeLimit <= p.plan.paidLimit
    ensures OverPlan(p.plan, size, true, other) ==> OverPlan(p.plan, size, true, p.plan.free)
  {
  }

  /** `config`: the run's shared settings, of which `checkSize` in
      Nagraniepraw writes the flag that the file is too large for Notion. */
  class Config {
    var fileTooLargeForNotion: bool

    constructor ()
      ensures !fileTooLargeForNotion
    {
      fileTooLargeForNotion := false;
    }

    /** `checkSize` of the variant that flags instead of throwing: the
        flag is set, never cleared, when the file is over the plan limit. */
    method CheckSize(p: SizePolicy, size: nat, attach: bool, plan: string) returns (r: Result<()>)
      modifies this
      ensures r.Err? <==> SizeCheck(p, size, attach, plan).Err?
      ensures r.Err? ==> r.error == SizeCheck(p, size, attach, plan).error
      ensures r.Err? ==> fileTooLargeForNotion == old(fileTooLargeForNotion)
      ensures r.Ok? ==> fileTooLargeForNotion == (old(fileTooLargeForNotion) || SizeCheck(p, size, attach, plan).value)
    {
      var c := SizeCheck(p, size, attach, plan);
      match c
      case Err(e) =>
        r := Err(e);
      case Ok(flag) =>
        if flag {
          fileTooLargeForNotion := true;
        }
        r := Ok(());
    }
  }

  // -------------------------------------------------------- `downloadToTmp`

  /** `\w`: an ASCII letter, digit or underscore. */
  predicate IsWordChar(c: char) {
    'a' <= c <= 'z' || 'A' <= c <= 'Z' || '0' <= c <= '9' || c == '_'
  }

  /** `/\.\w+$/` matches from `k`: a dot and one or more word characters to the end. */
  predicate ExtensionAt(path: string, k: nat) {
    k + 2 <= |path| && path[k] == '.' && forall j :: k < j < |path| ==> IsWordChar(path[j])
  }

  /** `mime`: the match of `/\.\w+$/`. A dot is not a word character, so
      there is at most one place where it can start. */
  function Mime(path: string): (r: Option<string>)
    ensures r.Some? ==> |r.value| <= |path| && ExtensionAt(path, |path| - |r.value|) && r.value == path[|path| - |r.value|..]
    ensures r.None? <==> forall k :: !ExtensionAt(path, k)
  {
    match LastIndexOf(path, '.')
    case None => None
    case Some(k) =>
      if k + 2 <= |path| && forall j :: k < j < |path| ==> IsWordChar(path[j]) then
        assert |path| - |path[k..]| == k;
        assert ExtensionAt(path, k);
        Some(path[k..])
      else
        assert forall i: nat :: !ExtensionAt(path, i) by {
          forall i: nat ensures !ExtensionAt(path, i) {
            if i < k && i + 2 <= |path| && path[i] == '.' {
              assert !IsWordChar(path[k]);
            }
          }
        }
        None
  }

  /** `/[?$#&{}[\]<>*!@:+\\\/]/g`: the characters taken out of the temporary file name. */
  predicate Forbidden(c: char) {
    c == '?' || c == '$' || c == '#' || c == '&' || c == '{' || c == '}' || c == '[' || c == ']' ||
    c == '<' || c == '>' || c == '*' || c == '!' || c == '@' || c == ':' || c == '+' || c == '\\' || c == '/'
  }

  /** `.replace(..., "")` with that pattern. */
  function Sanitise(s: string): (r: string)
    ensures forall j :: 0 <= j < |r| ==> !Forbidden(r[j])
    ensures |r| <= |s|
  {
    if s == [] then []
    else if Forbidden(s[|s| - 1]) then Sanitise(s[..|s| - 1])
    else Sanitise(s[..|s| - 1]) + [s[|s| - 1]]
  }

  /** A name with none of the forbidden characters is kept as it is. */
  lemma {:induction false} SanitiseClean(s: string)
    requires forall j :: 0 <= j < |s| ==> !Forbidden(s[j])
    ensures Sanitise(s) == s
  {
    if s != [] {
      SanitiseClean(s[..|s| - 1]);
      assert s[..|s| - 1] + [s[|s| - 1]] == s;
    }
  }

  /** Sanitising twice is sanitising once. */
  lemma SanitiseIdempotent(s: string)
    ensures Sanitise(Sanitise(s)) == Sanitise(s)
  {
    SanitiseClean(Sanitise(s));
  }

  datatype Downloaded = Downloaded(path: string, mime: string)

  /** The texts a variant's `downloadToTmp` throws: the heading of every
      failure, and the rejection of an unsupported extension. */
  datatype DownloadTexts = DownloadTexts(failed: string, unsupported: string)

  const PolishDownload := DownloadTexts("Nie uda\U{0142}o si\U{0119} pobra\U{0107} pliku: ",
    "Nieobs\U{0142}ugiwany format pliku. Obs\U{0142}ugiwane: " + Join(Mimes, ", "))
  const VoiceNotesDownload := DownloadTexts("Failed to download file: ",
    "Unsupported file type. Supported file types include " + Join(Mimes, ", ") + ".")

  const NoMatch := "Cannot read properties of null (reading '0')"

  /** `downloadToTmp(fileLink, filePath, fileName)`: the extension is
      checked before anything is fetched; the file goes to `/tmp/` under
      its last path component, which holds the whole extension match,
      cleaned of the forbidden characters. `fetchError` is what the
      download pipeline threw, if anything. */
  function DownloadToTmp(texts: DownloadTexts, filePath: string, fetchError: Option<string>): (r: Result<Downloaded>)
    ensures r.Err? ==> StartsWith(r.error, texts.failed)
    ensures Mime(filePath).None? ==> r == Err(texts.failed + NoMatch)
    ensures Mime(filePath).Some? && Mime(filePath).value !in Mimes ==> r == Err(texts.failed + texts.unsupported)
    ensures r.Ok? <==> Mime(filePath).Some? && Mime(filePath).value in Mimes && fetchError.None?
    ensures r.Ok? ==> r.value.path == "/tmp/" + Sanitise(Basename(filePath))
    ensures r.Ok? ==> (r.value.mime == Mime(filePath).value && StartsWith(r.value.path, "/tmp/") &&
      forall j :: 5 <= j < |r.value.path| ==> !Forbidden(r.value.path[j]))
  {
    match Mime(filePath)
    case None => Err(texts.failed + NoMatch)
    case Some(mime) =>
      if mime !in Mimes then Err(texts.failed + texts.unsupported)
      else match fetchError
        case Some(e) => Err(texts.failed + e)
        case None =>
          var name := Sanitise(Basename(filePath));
          var path := "/tmp/" + name;
          assert forall j :: 5 <= j < |path| ==> path[j] == name[j - 5];
          Ok(Downloaded(path, mime))
  }

  /** The extension lies within the last path component, so the
      temporary name ends with it whenever it holds no forbidden
      character, as none of the supported ones does. */
  lemma TemporaryNameKeepsExtension(filePath: string)
    requires Mime(filePath).Some?
    ensures EndsWith("/tmp/" + Sanitise(Basename(filePath)), Mime(filePath).value)
  {
    var mime := Mime(filePath).value;
    var b := Basename(filePath);
    MimeClean(filePath);
    SuffixInBasename(filePath, mime);
    SanitiseSuffix(b, mime);
    EndsWithBehind("/tmp/", Sanitise(b), mime);
  }

  lemma EndsWithBehind(prefix: string, s: string, tail: string)
    requires EndsWith(s, tail)
    ensures EndsWith(prefix + s, tail)
  {
    assert (prefix + s)[|prefix + s| - |tail|..] == s[|s| - |tail|..];
  }

  /** An extension is a dot and word characters: nothing forbidden, no '/'. */
  lemma MimeClean(filePath: string)
    requires Mime(filePath).Some?
    ensures var mime := Mime(filePath).value; forall j :: 0 <= j < |mime| ==> !Forbidden(mime[j]) && mime[j] != '/'
  {
    var mime := Mime(filePath).value;
    var k := |filePath| - |mime|;
    assert ExtensionAt(filePath, k);
    forall j | 0 <= j < |mime|
      ensures !Forbidden(mime[j]) && mime[j] != '/'
    {
      assert mime[j] == filePath[k + j];
      if j > 0 {
        assert IsWordChar(filePath[k + j]);
      }
    }
  }

  lemma SuffixInBasename(path: string, tail: string)
    requires EndsWith(path, tail) && forall j :: 0 <= j < |tail| ==> tail[j] != '/'
    ensures EndsWith(Basename(path), tail)
  {
    var b := Basename(path);
    assert path[|path| - |tail|..] == b[|b| - |tail|..];
  }

  lemma {:induction false} SanitiseSuffix(s: string, tail: string)
    requires EndsWith(s, tail)
    requires forall j :: 0 <= j < |tail| ==> !Forbidden(tail[j])
    ensures EndsWith(Sanitise(s), tail)
  {
    if tail != [] {
      var init := s[..|s| - 1];
      assert EndsWith(init, tail[..|tail| - 1]);
      SanitiseSuffix(init, tail[..|tail| - 1]);
      assert !Forbidden(s[|s| - 1]);
    }
  }
}
