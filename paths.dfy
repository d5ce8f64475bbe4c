/** What the pipeline takes from Node's `path` module: the last
    component of a path and its extension. */
module Paths {
  import opened Wrappers
  import opened JsText

  function LastIndexOf(s: string, c: char): (r: Option<nat>)
    ensures r.Some? ==> r.value < |s| && s[r.value] == c && forall j :: r.value < j < |s| ==> s[j] != c
    ensures r.None? ==> forall j :: 0 <= j < |s| ==> s[j] != c
  {
    if s == [] then None
    else if s[|s| - 1] == c then Some(|s| - 1)
    else LastIndexOf(s[..|s| - 1], c)
  }

  /** The last component of a path without a trailing slash. */
  function Basename(path: string): (b: string)
    ensures EndsWith(path, b)
    ensures forall j :: 0 <= j < |b| ==> b[j] != '/'
    ensures |b| < |path| ==> path[|path| - |b| - 1] == '/'
  {
    match LastIndexOf(path, '/')
    case None => path
    case Some(i) => path[i + 1..]
  }

  /** `path.extname`: from the last `.` of the last component, unless that
      dot opens the component or the component is `..`. */
  function Extname(path: string): (e: string)
    ensures EndsWith(path, e)
    ensures e == "" || (e[0] == '.' && forall j :: 1 <= j < |e| ==> e[j] != '.' && e[j] != '/')
    ensures var b := Basename(path);
      e != "" <==> b != ".." && exists j :: 0 < j < |b| && b[j] == '.'
  {
    var b := Basename(path);
    match LastIndexOf(b, '.')
    case None => ""
    case Some(i) =>
      if i == 0 || b == ".." then ""
      else
        var e := b[i..];
        assert e[0] == b[i] == '.';
        assert EndsWith(b, e);
        EndsWithTail(path, b, e);
        e
  }

  lemma EndsWithTail(s: string, t: string, u: string)
    requires EndsWith(s, t) && EndsWith(t, u)
    ensures EndsWith(s, u)
  {
    assert s[|s| - |u|..] == s[|s| - |t|..][|t| - |u|..];
  }
}
