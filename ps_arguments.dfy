/** `LauncherButton.ExtractPSPathFromArgument`: splits a PowerShell argument string into the
    script named by `-File` and the remaining arguments. The two regular expressions of the
    source are written out as searches over positions; the argument is taken to hold no line
    break, so `.*` spans the whole string, and `\s` is one character of `IsWhiteSpace`. */
module PowerShellArguments {
  import opened Wrappers
  import opened Text

  const FileSwitch: string := "-File"

  /** `-File\s`: the switch followed by one white-space character, starting at `p`. */
  predicate SwitchAt(s: string, p: int) {
    0 <= p && p + 6 <= |s| && s[p..p + 5] == FileSwitch && IsWhiteSpace(s[p + 5])
  }

  /** The first position from `i` on whose character satisfies `stop`, or `|s|`. */
  function NextWhere(s: string, i: nat, stop: char -> bool): (k: nat)
    requires i <= |s|
    ensures i <= k <= |s|
    ensures k < |s| ==> stop(s[k])
    ensures forall j :: i <= j < k ==> !stop(s[j])
    decreases |s| - i
  {
    if i == |s| || stop(s[i]) then i else NextWhere(s, i + 1, stop)
  }

  /** The largest position in `lo..hi` that satisfies `ok`: what a greedy `.*` in front of the
      rest of a pattern settles on after backtracking. */
  function LastWhere(lo: int, hi: int, ok: int -> bool): (k: Option<int>)
    ensures k.Some? ==> lo <= k.value <= hi && ok(k.value) && forall j :: k.value < j <= hi ==> !ok(j)
    ensures k.None? ==> forall j :: lo <= j <= hi ==> !ok(j)
    decreases hi - lo + 1
  {
    if hi < lo then None else if ok(hi) then Some(hi) else LastWhere(lo, hi - 1, ok)
  }

  /** The rest of the quoted pattern, `-File\s"(?<path>[^"]*)"\s`, at `p`: the position of the
      closing quote. `[^"]*` can only stop at the first quote after the opening one, and that
      quote must be followed by white space. */
  function QuotedPathEnd(s: string, p: int): (q: Option<int>)
    ensures q.Some? ==>
      SwitchAt(s, p) && p + 7 <= q.value && q.value + 1 < |s| && s[p + 6] == '"' && s[q.value] == '"'
      && IsWhiteSpace(s[q.value + 1]) && forall j :: p + 7 <= j < q.value ==> s[j] != '"'
  {
    if SwitchAt(s, p) && p + 7 <= |s| && s[p + 6] == '"' then
      var q := NextWhere(s, p + 7, c => c == '"');
      if q + 1 < |s| && IsWhiteSpace(s[q + 1]) then Some(q) else None
    else None
  }

  /** The rest of the unquoted pattern, `-File\s(?<path>[^" ]*)\s`, at `p`: the position of the
      white space after the path. `[^" ]*` first runs to the next quote or space and then gives
      characters back until a white-space character follows, so the last such position in the
      run wins. */
  function UnquotedPathEnd(s: string, p: int): (e: Option<int>)
    ensures e.Some? ==>
      SwitchAt(s, p) && p + 6 <= e.value < |s| && IsWhiteSpace(s[e.value])
      && forall j :: p + 6 <= j < e.value ==> s[j] != '"' && s[j] != ' '
  {
    if SwitchAt(s, p) then
      var run := NextWhere(s, p + 6, c => c == '"' || c == ' ');
      LastWhere(p + 6, run, e => 0 <= e < |s| && IsWhiteSpace(s[e]))
    else None
  }

  /** The two patterns, in the order they are tried. */
  datatype Pattern = Quoted | Unquoted

  /** The rest of `pattern` after `startargs`, at `p`: where the path ends. */
  function PathEnd(pattern: Pattern, s: string, p: int): Option<int> {
    match pattern
    case Quoted => QuotedPathEnd(s, p)
    case Unquoted => UnquotedPathEnd(s, p)
  }

  /** Where a pattern matches: the switch position (the end of `startargs`) and the end of the
      path. The match always starts at 0, since `.*` can take any prefix. */
  datatype Match = Match(at: int, pathEnd: int)

  /** The largest position up to `hi` where the rest of `pattern` fits: the greedy `.*` of
      `startargs` gives characters back from the end until the rest matches. */
  function LastMatch(pattern: Pattern, s: string, hi: int): (m: Option<Match>)
    ensures m.Some? ==> 0 <= m.value.at <= hi && PathEnd(pattern, s, m.value.at) == Some(m.value.pathEnd)
    ensures m.Some? ==> forall p :: m.value.at < p <= hi ==> PathEnd(pattern, s, p).None?
    ensures m.None? ==> forall p :: 0 <= p <= hi ==> PathEnd(pattern, s, p).None?
    decreases hi + 1
  {
    if hi < 0 then None
    else match PathEnd(pattern, s, hi)
      case Some(e) => Some(Match(hi, e))
      case None => LastMatch(pattern, s, hi - 1)
  }

  /** The match of `pattern` in `s`, if there is one. */
  function FindMatch(pattern: Pattern, s: string): Option<Match> {
    LastMatch(pattern, s, |s|)
  }

  /** A position where the pattern fits, with no such position after it, is the match. */
  lemma LastMatchAt(pattern: Pattern, s: string, a: int, e: int)
    requires 0 <= a <= |s| && PathEnd(pattern, s, a) == Some(e)
    requires forall p :: a < p <= |s| ==> PathEnd(pattern, s, p).None?
    ensures FindMatch(pattern, s) == Some(Match(a, e))
  {
  }

  /** The remaining arguments of a quoted match: `startargs` and `endargs` joined by a space
      when both are non-empty, otherwise their concatenation. */
  function QuotedRest(startArgs: string, endArgs: string): string {
    if startArgs != "" && endArgs != "" then startArgs + " " + endArgs else startArgs + endArgs
  }

  /** The remaining arguments of an unquoted match. The fallback `startargs ?? endargs` never
      reaches `endargs`, because a group's value is never null, so `endargs` is lost whenever
      `startargs` is empty. */
  function UnquotedRest(startArgs: string, endArgs: string): string {
    if startArgs != "" && endArgs != "" then startArgs + " " + endArgs else startArgs
  }

  /** `ExtractPSPathFromArgument`: the script path and the other arguments. The quoted pattern
      is tried first; without any match the path is empty and the arguments are returned
      whole. */
  function ExtractPSPathFromArgument(argument: string): (parts: (string, string))
    ensures '"' !in parts.0
    ensures (forall p :: 0 <= p <= |argument| ==> !SwitchAt(argument, p)) ==> parts == ("", argument)
  {
    match FindMatch(Quoted, argument)
    case Some(m) =>
      var path := argument[m.at + 7..m.pathEnd];
      assert forall j :: 0 <= j < |path| ==> path[j] == argument[m.at + 7 + j];
      (path, QuotedRest(argument[..m.at], argument[m.pathEnd + 2..]))
    case None =>
      match FindMatch(Unquoted, argument)
      case Some(m) =>
        var path := argument[m.at + 6..m.pathEnd];
        assert forall j :: 0 <= j < |path| ==> path[j] == argument[m.at + 6 + j];
        (path, UnquotedRest(argument[..m.at], argument[m.pathEnd + 1..]))
      case None => ("", argument)
  }

  /** A quoted `-File` switch at `a` with its closing quote at `q`, no quote in between and
      none after the white space that follows: the quoted pattern matches there. */
  lemma {:induction false} QuotedMatchAt(s: string, a: int, q: int)
    requires 0 <= a && a + 7 <= q && q + 2 <= |s|
    requires SwitchAt(s, a) && s[a + 6] == '"' && s[q] == '"' && IsWhiteSpace(s[q + 1])
    requires forall j :: a + 7 <= j < q ==> s[j] != '"'
    requires forall j :: q + 2 <= j < |s| ==> s[j] != '"'
    ensures FindMatch(Quoted, s) == Some(Match(a, q))
  {
    assert QuotedPathEnd(s, a) == Some(q);
    forall p | a < p <= |s|
      ensures QuotedPathEnd(s, p).None?
    {
    }
    LastMatchAt(Quoted, s, a, q);
  }

  /** An unquoted `-File` switch at `a` in a string without quotes, whose path runs without
      white space up to the space at `e`, and with no `-File\s` after it: the quoted pattern
      matches nowhere and the unquoted one matches there. */
  lemma {:induction false} UnquotedMatchAt(s: string, a: int, e: int)
    requires 0 <= a && a + 6 <= e < |s|
    requires forall j :: 0 <= j < |s| ==> s[j] != '"'
    requires SwitchAt(s, a) && s[e] == ' '
    requires forall j :: a + 6 <= j < e ==> !IsWhiteSpace(s[j])
    requires forall p :: a < p <= |s| ==> !SwitchAt(s, p)
    ensures FindMatch(Quoted, s).None?
    ensures FindMatch(Unquoted, s) == Some(Match(a, e))
  {
    forall p | 0 <= p <= |s|
      ensures QuotedPathEnd(s, p).None?
    {
    }
    var run := NextWhere(s, a + 6, c => c == '"' || c == ' ');
    assert run == e;
    assert UnquotedPathEnd(s, a) == Some(e);
    LastMatchAt(Unquoted, s, a, e);
  }

  /** The argument string the quoted pattern is written for:
      `<startArgs>-File<w>"<path>"<w2><endArgs>`. */
  function QuotedArgument(startArgs: string, w: char, path: string, w2: char, endArgs: string): string {
    startArgs + FileSwitch + [w, '"'] + path + ['"', w2] + endArgs
  }

  /** The argument string the unquoted pattern is written for:
      `<startArgs>-File<w><path> <endArgs>`. */
  function UnquotedArgument(startArgs: string, w: char, path: string, endArgs: string): string {
    startArgs + FileSwitch + [w] + path + [' '] + endArgs
  }

  /** Where each piece of a quoted argument string sits. */
  lemma QuotedLayout(startArgs: string, w: char, path: string, w2: char, endArgs: string)
    ensures var s := QuotedArgument(startArgs, w, path, w2, endArgs);
      var a := |startArgs|;
      var q := a + 7 + |path|;
      |s| == q + 2 + |endArgs| && s[..a] == startArgs && s[a..a + 5] == FileSwitch
      && s[a + 5] == w && s[a + 6] == '"' && s[a + 7..q] == path && s[q] == '"' && s[q + 1] == w2
      && s[q + 2..] == endArgs
      && (forall j :: a + 7 <= j < q ==> s[j] == path[j - a - 7])
      && (forall j :: q + 2 <= j < |s| ==> s[j] == endArgs[j - q - 2])
  {
  }

  /** Where each piece of an unquoted argument string sits. */
  lemma UnquotedLayout(startArgs: string, w: char, path: string, endArgs: string)
    ensures var s := UnquotedArgument(startArgs, w, path, endArgs);
      var a := |startArgs|;
      var e := a + 6 + |path|;
      |s| == e + 1 + |endArgs| && s[..a] == startArgs && s[a..a + 5] == FileSwitch
      && s[a + 5] == w && s[a + 6..e] == path && s[e] == ' ' && s[e + 1..] == endArgs
      && s[a + 6..] == path + [' '] + endArgs
      && (forall j :: 0 <= j < a ==> s[j] == startArgs[j])
      && (forall j :: a + 6 <= j < e ==> s[j] == path[j - a - 6])
      && (forall j :: e + 1 <= j < |s| ==> s[j] == endArgs[j - e - 1])
  {
  }

  /** A `-File\s` inside a suffix of a string is one in the string itself, shifted. */
  lemma SwitchInSuffix(s: string, k: nat, p: int)
    requires k <= |s| && k <= p
    ensures SwitchAt(s, p) <==> SwitchAt(s[k..], p - k)
  {
    if p + 6 <= |s| {
      assert s[k..][p - k..p - k + 5] == s[p..p + 5];
    }
  }

  /** Two `-File\s` switches cannot overlap: no position inside one starts another. */
  lemma NoSwitchInsideSwitch(s: string, a: int, p: int)
    requires SwitchAt(s, a) && a < p < a + 6
    ensures !SwitchAt(s, p)
  {
    if p < a + 5 {
      assert s[p] == s[a..a + 5][p - a];
    }
    assert s[p] != '-';
    if p + 6 <= |s| {
      assert s[p..p + 5][0] == s[p];
    }
  }

  /** A quoted script path is extracted exactly, and the arguments around it are kept, joined
      by one space. Earlier `-File "..."` switches in `startArgs` do not matter: the last one
      wins. */
  lemma {:induction false} ExtractQuoted(startArgs: string, w: char, path: string, w2: char, endArgs: string)
    requires IsWhiteSpace(w) && IsWhiteSpace(w2)
    requires '"' !in path && '"' !in endArgs
    ensures ExtractPSPathFromArgument(QuotedArgument(startArgs, w, path, w2, endArgs))
            == (path, QuotedRest(startArgs, endArgs))
  {
    var s := QuotedArgument(startArgs, w, path, w2, endArgs);
    var a := |startArgs|;
    var q := a + 7 + |path|;
    QuotedLayout(startArgs, w, path, w2, endArgs);
    QuotedMatchAt(s, a, q);
  }

  /** An unquoted script path is extracted up to the space after it; the remaining arguments
      keep `startArgs`, and keep `endArgs` only when `startArgs` is non-empty. */
  lemma {:induction false} ExtractUnquoted(startArgs: string, w: char, path: string, endArgs: string)
    requires IsWhiteSpace(w)
    requires '"' !in startArgs && '"' !in path && '"' !in endArgs
    requires forall j :: 0 <= j < |path| ==> !IsWhiteSpace(path[j])
    requires forall p :: 0 <= p <= |path| + 1 + |endArgs| ==> !SwitchAt(path + [' '] + endArgs, p)
    ensures ExtractPSPathFromArgument(UnquotedArgument(startArgs, w, path, endArgs))
            == (path, UnquotedRest(startArgs, endArgs))
  {
    var s := UnquotedArgument(startArgs, w, path, endArgs);
    var a := |startArgs|;
    var e := a + 6 + |path|;
    UnquotedLayout(startArgs, w, path, endArgs);
    forall p | a < p <= |s|
      ensures !SwitchAt(s, p)
    {
      if a + 6 <= p {
        SwitchInSuffix(s, a + 6, p);
      } else {
        NoSwitchInsideSwitch(s, a, p);
      }
    }
    UnquotedMatchAt(s, a, e);
  }

  /** A quoted path with nothing after its closing quote is matched by neither pattern, so the
      whole string comes back as arguments and no script is found. */
  lemma {:induction false} TrailingQuotedPathUnmatched(w: char, path: string)
    requires IsWhiteSpace(w)
    requires '"' !in path
    requires forall j :: 0 <= j < |path| ==> !IsWhiteSpace(path[j])
    ensures var s := FileSwitch + [w, '"'] + path + ['"'];
      ExtractPSPathFromArgument(s) == ("", s)
  {
    var s := FileSwitch + [w, '"'] + path + ['"'];
    assert forall j :: 7 <= j < |s| - 1 ==> s[j] == path[j - 7];
    assert forall j :: 0 <= j < |path| ==> path[j] != '"';
    assert forall j :: 7 <= j < |s| - 1 ==> s[j] != '"' && !IsWhiteSpace(s[j]);
    assert s[|s| - 1] == '"';
    forall p | 0 <= p <= |s|
      ensures QuotedPathEnd(s, p).None? && UnquotedPathEnd(s, p).None?
    {
      if p != 0 {
        assert !SwitchAt(s, p) by {
          if p + 6 <= |s| {
            assert !IsWhiteSpace(s[p + 5]);
          }
        }
      } else {
        var k := NextWhere(s, 7, c => c == '"');
        assert k == |s| - 1;
        var run := NextWhere(s, 6, c => c == '"' || c == ' ');
        assert run == 6;
      }
    }
  }

  /** The example's text after the switch holds no `-File\s`. */
  lemma NoSwitchAfterExamplePath(t: string)
    requires t == "a.ps1 -NoExit"
    ensures forall p :: 0 <= p <= |t| ==> !SwitchAt(t, p)
  {
    assert t[6..] == "-NoExit";
    forall p | 0 <= p <= |t|
      ensures !SwitchAt(t, p)
    {
      if p + 6 <= |t| {
        if p == 0 {
          assert t[0..5][0] == 'a';
        } else {
          assert t[p + 5] == t[6..][p - 1];
        }
      }
    }
  }

  /** `-File a.ps1 -NoExit`: the script is found, and `-NoExit` is dropped because nothing
      precedes the switch. */
  lemma NoExitDropped(argument: string)
    requires argument == "-File a.ps1 -NoExit"
    ensures ExtractPSPathFromArgument(argument) == ("a.ps1", "")
  {
    NoSwitchAfterExamplePath("a.ps1" + [' '] + "-NoExit");
    ExtractUnquoted("", ' ', "a.ps1", "-NoExit");
    ExampleArgument();
  }

  /** The example is the unquoted layout with an empty `startArgs`. */
  lemma ExampleArgument()
    ensures UnquotedArgument("", ' ', "a.ps1", "-NoExit") == "-File a.ps1 -NoExit"
  {
    assert "" + FileSwitch + [' '] == "-File ";
    assert "-File " + "a.ps1" + [' '] == "-File a.ps1 ";
  }
}
