/** `LauncherButton` (namespace `Launcher8.Controls`): a button that launches a program, a
    folder, a web page, a PowerShell script or a file. The model keeps the fields the button
    persists and the logic that classifies and normalises its path and arguments; the file
    system and the URI parser it consults are passed in as an `Env`. */
module Controls {
  import opened Wrappers
  import opened Text
  import ModifierKeysConverter
  import KeyConverter
  import KeyInterop
  import opened PowerShellArguments

  /** `enum RefType`. An enum is an `int`, and the JSON reader casts stored numbers to it
      unchecked, so a value need not be one of the declared members. */
  newtype RefType = x: int | -0x8000_0000 <= x <= 0x7FFF_FFFF {
    static const Undetermined: RefType := 0
    static const Program: RefType := 1
    static const Folder: RefType := 2
    static const Webpage: RefType := 3
    static const Powershell: RefType := 4
    static const File: RefType := 5
  }

  predicate IsDeclaredType(t: RefType) {
    RefType.Undetermined <= t <= RefType.File
  }

  /** `enum Browser`, an `int` in the same way. */
  newtype Browser = x: int | -0x8000_0000 <= x <= 0x7FFF_FFFF {
    static const None: Browser := 0
    static const Edge: Browser := 1
    static const Firefox: Browser := 2
    static const Chrome: Browser := 3
  }

  predicate IsDeclaredBrowser(b: Browser) {
    Browser.None <= b <= Browser.Chrome
  }

  /** `System.Drawing.Point`. */
  datatype Point = Point(x: int, y: int)

  /** `System.Drawing.Color`: a colour known by name (a system or web colour, or any name
      given to `Color.FromName`), or one built from alpha, red, green and blue. */
  datatype Color = Named(name: string) | Argb(a: int, r: int, g: int, b: int)

  /** `SystemColors.Control`, the default `Background`. */
  const SystemControl: Color := Named("Control")

  /** `Color.Empty`, what `DefaultBack` holds until the constructor sets it. */
  const EmptyColor: Color := Argb(0, 0, 0, 0)

  /** `DefaultBack`: `ControlDarkDark` in dark mode, `Control` otherwise. */
  function DefaultBackColor(darkMode: bool): (c: Color)
    ensures c.Named?
  {
    if darkMode then Named("ControlDarkDark") else SystemControl
  }

  /** A single backslash, from which the Windows paths below are built. */
  const Backslash: string := ['\\']

  const EdgeProtocol: string := "microsoft-edge:"
  const FirefoxPath: string :=
    "C:" + Backslash + "Program Files (x86)" + Backslash + "Mozilla Firefox" + Backslash + "firefox.exe"
  const ChromePath: string :=
    "C:" + Backslash + "Program Files (x86)" + Backslash + "Google" + Backslash + "Chrome" + Backslash
    + "Application" + Backslash + "chrome.exe"
  const FirefoxExe: string := Backslash + "firefox.exe"
  const ChromeExe: string := Backslash + "chrome.exe"
  const PowerShellName: string := "powershell.exe"
  const PowerShellPath: string :=
    "C:" + Backslash + "Windows" + Backslash + "System32" + Backslash + "WindowsPowerShell" + Backslash
    + "v1.0" + Backslash + "powershell.exe"

  /** `BrowserPaths[b]`: what launches each declared browser, null for `None`. */
  function BrowserPath(b: Browser): (p: Option<string>)
    requires IsDeclaredBrowser(b)
    ensures p.None? <==> b == Browser.None
  {
    if b == Browser.Edge then Some(EdgeProtocol)
    else if b == Browser.Firefox then Some(FirefoxPath)
    else if b == Browser.Chrome then Some(ChromePath)
    else None
  }

  /** `BrowserPaths.Values.Contains(x)`; the null value counts. */
  predicate IsBrowserPath(x: Option<string>) {
    x == BrowserPath(Browser.None) || x == BrowserPath(Browser.Edge)
    || x == BrowserPath(Browser.Firefox) || x == BrowserPath(Browser.Chrome)
  }

  /** `string.IsNullOrEmpty`. */
  predicate IsNullOrEmpty(x: Option<string>) {
    x.None? || x.value == ""
  }

  /** `s.StartsWith(prefix)`. */
  predicate StartsWith(s: string, prefix: string) {
    |prefix| <= |s| && s[..|prefix|] == prefix
  }

  /** An unanchored regular expression `.*t` matches exactly when `t` occurs in `s`. */
  predicate Contains(s: string, t: string) {
    exists i :: 0 <= i <= |s| - |t| && OccursAt(s, t, i)
  }

  predicate OccursAt(s: string, t: string, i: int) {
    0 <= i <= |s| - |t| && s[i..i + |t|] == t
  }

  /** The `switch` on a path shared by `GetBrowser` and `SetBrowser`: a path holding
      `\firefox.exe` (tested first) is Firefox, one holding `\chrome.exe` is Chrome, exactly
      `microsoft-edge:` is Edge, and anything else is None. */
  function BrowserFromPath(path: string): (b: Browser)
    ensures IsDeclaredBrowser(b)
  {
    if Contains(path, FirefoxExe) then Browser.Firefox
    else if Contains(path, ChromeExe) then Browser.Chrome
    else if path == EdgeProtocol then Browser.Edge
    else Browser.None
  }

  /** `GetBrowser(button)`: the button's own browser when it has one, otherwise the one its
      path names. */
  function GetBrowser(targetBrowser: Browser, path: Option<string>): (b: Browser)
    ensures targetBrowser != Browser.None ==> b == targetBrowser
    ensures targetBrowser == Browser.None ==> IsDeclaredBrowser(b)
    ensures targetBrowser == Browser.None && path.None? ==> b == Browser.None
  {
    if targetBrowser != Browser.None then targetBrowser
    else if path.None? then Browser.None
    else BrowserFromPath(path.value)
  }

  /** `FirefoxPath` names Firefox. */
  lemma FirefoxPathNamesFirefox()
    ensures Contains(FirefoxPath, FirefoxExe)
  {
    assert OccursAt(FirefoxPath, FirefoxExe, |FirefoxPath| - |FirefoxExe|);
  }

  /** `ChromePath` names Chrome and not Firefox: it has no lower-case `f`. */
  lemma ChromePathNamesChrome()
    ensures !Contains(ChromePath, FirefoxExe) && Contains(ChromePath, ChromeExe)
  {
    assert OccursAt(ChromePath, ChromeExe, |ChromePath| - |ChromeExe|);
    assert forall j :: 0 <= j < |ChromePath| ==> ChromePath[j] != 'f';
    forall k | 0 <= k <= |ChromePath| - |FirefoxExe|
      ensures !OccursAt(ChromePath, FirefoxExe, k)
    {
      assert ChromePath[k..k + |FirefoxExe|][1] == ChromePath[k + 1];
    }
  }

  /** The Edge protocol has no backslash, so it names neither executable. */
  lemma EdgeProtocolNamesEdge()
    ensures !Contains(EdgeProtocol, FirefoxExe) && !Contains(EdgeProtocol, ChromeExe)
  {
    assert forall j :: 0 <= j < |EdgeProtocol| ==> EdgeProtocol[j] != '\\';
    forall k | 0 <= k <= |EdgeProtocol|
      ensures !OccursAt(EdgeProtocol, ChromeExe, k) && !OccursAt(EdgeProtocol, FirefoxExe, k)
    {
      if k + |ChromeExe| <= |EdgeProtocol| {
        assert EdgeProtocol[k..k + |ChromeExe|][0] == EdgeProtocol[k] != '\\';
      }
      if k + |FirefoxExe| <= |EdgeProtocol| {
        assert EdgeProtocol[k..k + |FirefoxExe|][0] == EdgeProtocol[k] != '\\';
      }
    }
  }

  /** `GetBrowser` inverts `BrowserPaths`: a button with no browser of its own whose path is
      the one `BrowserPaths` lists for a browser gets that browser back. */
  lemma BrowserPathRoundTrip(b: Browser)
    requires IsDeclaredBrowser(b)
    ensures GetBrowser(Browser.None, BrowserPath(b)) == b
  {
    if b == Browser.Edge {
      EdgeProtocolNamesEdge();
    } else if b == Browser.Firefox {
      FirefoxPathNamesFirefox();
    } else if b == Browser.Chrome {
      ChromePathNamesChrome();
    }
  }

  /** What a file-system probe of a path finds: a directory, or a file with the full name and
      the extension `FileInfo` reports. A path the probe throws on (missing, malformed,
      inaccessible) has no entry. */
  datatype FileEntry = Directory | File(fullName: string, extension: string)

  /** The parts of a parsed absolute URI that `DetermineType` inspects. */
  datatype UriHost = UriHost(hostIsDns: bool, isUnc: bool)

  /** The outside world the button consults: `File.GetAttributes` and `FileInfo` (`entry`),
      `Uri.IsWellFormedUriString(path, UriKind.Absolute)`, `new Uri(path)` (`None` when it
      throws) and `Uri.TryCreate(path, UriKind.Absolute, out _)`. */
  datatype Env = Env(
    entry: string -> Option<FileEntry>,
    isWellFormedAbsoluteUri: string -> bool,
    parseUri: string -> Option<UriHost>,
    tryCreateAbsoluteUri: string -> bool)

  /** The case where `DetermineType` assigns nothing: a path that is not on disk, is not a
      PowerShell invocation or the Edge protocol, and is a well-formed absolute URI whose host
      is not a DNS name or which is a UNC path. */
  predicate KeepsStaleType(path: Option<string>, arguments: Option<string>, env: Env) {
    path.Some? && env.entry(path.value).None?
    && !(path.value == PowerShellName && !IsNullOrEmpty(arguments))
    && path.value != EdgeProtocol
    && env.isWellFormedAbsoluteUri(path.value)
    && env.parseUri(path.value).Some?
    && !(env.parseUri(path.value).value.hostIsDns && !env.parseUri(path.value).value.isUnc)
  }

  /** The `ReferenceType` that `DetermineType` leaves, given the one the button had. */
  function TypeOfPath(path: Option<string>, arguments: Option<string>, current: RefType, env: Env): (t: RefType)
    ensures IsDeclaredType(current) ==> IsDeclaredType(t)
    ensures KeepsStaleType(path, arguments, env) ==> t == current
  {
    if path.None? then RefType.Undetermined
    else
      var p := path.value;
      match env.entry(p)
      case Some(Directory) => RefType.Folder
      case Some(File(fullName, extension)) =>
        if IsBrowserPath(Some(fullName)) || StartsWith(p, "http") then RefType.Webpage
        else if extension == ".exe" then RefType.Program
        else if extension == ".ps1" then RefType.Powershell
        else RefType.File
      case None =>
        if p == PowerShellName && !IsNullOrEmpty(arguments) then RefType.Powershell
        else UriType(p, if p == EdgeProtocol then RefType.Webpage else current, env)
  }

  /** The URI probes that end `DetermineType` for a path not on disk, given the type assigned
      so far: a path that is not a well-formed absolute URI, or that `new Uri` rejects, is
      undetermined, one with a DNS host that is not a UNC path is a web page, and any other
      URI keeps the type assigned so far. */
  function UriType(p: string, soFar: RefType, env: Env): (t: RefType)
    ensures t == RefType.Undetermined || t == RefType.Webpage || t == soFar
    ensures !env.isWellFormedAbsoluteUri(p) || env.parseUri(p).None? ==> t == RefType.Undetermined
    ensures t == RefType.Webpage && soFar != RefType.Webpage ==>
              env.isWellFormedAbsoluteUri(p) && env.parseUri(p).Some? &&
              env.parseUri(p).value.hostIsDns && !env.parseUri(p).value.isUnc
  {
    if !env.isWellFormedAbsoluteUri(p) then RefType.Undetermined
    else match env.parseUri(p)
      case None => RefType.Undetermined
      case Some(host) => if host.hostIsDns && !host.isUnc then RefType.Webpage else soFar
  }

  /** The type a button had matters only in the stale case: there it is kept, and otherwise
      every previous type gives the same answer. */
  lemma {:induction false} TypeOfPathIgnoresCurrent(path: Option<string>, arguments: Option<string>, c1: RefType, c2: RefType, env: Env)
    ensures !KeepsStaleType(path, arguments, env) ==>
      TypeOfPath(path, arguments, c1, env) == TypeOfPath(path, arguments, c2, env)
    ensures KeepsStaleType(path, arguments, env) ==>
      TypeOfPath(path, arguments, c1, env) == c1 && TypeOfPath(path, arguments, c2, env) == c2
  {
  }

  /** The Edge protocol is not on disk, so it is classified by the URI probes, which can
      overwrite the `Webpage` assigned to it: it stays a web page only when it parses as a
      well-formed absolute URI. */
  lemma EdgeProtocolType(arguments: Option<string>, current: RefType, env: Env)
    requires env.entry(EdgeProtocol).None?
    ensures TypeOfPath(Some(EdgeProtocol), arguments, current, env) ==
      if env.isWellFormedAbsoluteUri(EdgeProtocol) && env.parseUri(EdgeProtocol).Some?
      then RefType.Webpage else RefType.Undetermined
  {
  }

  /** `SetBrowser`: no path means no browser; a path that is an absolute URI keeps the
      button's browser or defaults to Edge; any other path sets the browser it names, even
      over one already chosen. */
  function BrowserAfterSet(path: Option<string>, current: Browser, env: Env): (b: Browser)
    ensures path.None? ==> b == Browser.None
  {
    if path.None? then Browser.None
    else if env.tryCreateAbsoluteUri(path.value) then
      if current == Browser.None then Browser.Edge else current
    else BrowserFromPath(path.value)
  }

  /** `SetBrowser` agrees with `GetBrowser` except on absolute URIs: for a path that is not
      one it ignores the browser already set and takes the one the path names, and for one
      that is, it keeps a chosen browser and otherwise picks Edge. */
  lemma SetBrowserAgreesWithGetBrowser(path: Option<string>, current: Browser, env: Env)
    requires path.Some?
    ensures !env.tryCreateAbsoluteUri(path.value) ==>
      BrowserAfterSet(path, current, env) == GetBrowser(Browser.None, path)
    ensures env.tryCreateAbsoluteUri(path.value) ==>
      BrowserAfterSet(path, current, env) ==
        if current == Browser.None then Browser.Edge else GetBrowser(current, path)
  {
  }

  /** Setting the browser twice is setting it once. */
  lemma SetBrowserIdempotent(path: Option<string>, current: Browser, env: Env)
    ensures BrowserAfterSet(path, BrowserAfterSet(path, current, env), env) == BrowserAfterSet(path, current, env)
  {
  }

  /** The persisted and runtime fields of a `LauncherButton` (`Caption` is the control's
      `Text`, `Location` its position on the form). */
  datatype ButtonState = ButtonState(
    caption: string,
    path: Option<string>,
    arguments: Option<string>,
    gridLocation: Point,
    location: Point,
    adminOnly: bool,
    background: Color,
    defaultBack: Color,
    referenceType: RefType,
    targetBrowser: Browser,
    hasHotKeySet: bool,
    keyModifiers: ModifierKeysConverter.ModifierKeys,
    keyTarget: KeyConverter.Key,
    hotKeyId: int)

  /** `t` differs from `s` at most in the type, the browser, the path and the arguments: the
      fields `NormalizeFields` may write. */
  predicate OnlyLaunchFieldsChanged(s: ButtonState, t: ButtonState) {
    t == s.(referenceType := t.referenceType, targetBrowser := t.targetBrowser,
            path := t.path, arguments := t.arguments)
  }

  /** The PowerShell step of `NormalizeFields`: the bare `powershell.exe` becomes the full
      Windows PowerShell path; then, with that path and non-empty arguments, the script named
      by `-File` (when one is found) becomes the path and the other arguments stay.
      `markPowershell` also records the type, as the `Program` branch does. */
  function ExpandPowerShell(s: ButtonState, markPowershell: bool): (t: ButtonState)
    ensures OnlyLaunchFieldsChanged(s, t) && t.targetBrowser == s.targetBrowser
    ensures t.path == s.path || s.path == Some(PowerShellName) || s.path == Some(PowerShellPath)
  {
    var s1 := if s.path == Some(PowerShellName) then s.(path := Some(PowerShellPath)) else s;
    if s1.path == Some(PowerShellPath) && !IsNullOrEmpty(s1.arguments) then
      var parsed := ExtractPSPathFromArgument(s1.arguments.value);
      var s2 := if parsed.0 != "" then s1.(path := Some(parsed.0)) else s1;
      var s3 := s2.(arguments := Some(parsed.1));
      if markPowershell then s3.(referenceType := RefType.Powershell) else s3
    else s1
  }

  /** The `Program` branch of `NormalizeFields`: a browser launched with arguments becomes a
      web page for those arguments; then the PowerShell step applies. */
  function NormalizeProgram(s: ButtonState, env: Env): (t: ButtonState)
    ensures OnlyLaunchFieldsChanged(s, t)
  {
    var s1 :=
      if IsBrowserPath(s.path) && !IsNullOrEmpty(s.arguments) then
        var w := s.(referenceType := RefType.Webpage);
        w.(targetBrowser := BrowserAfterSet(w.path, w.targetBrowser, env), path := w.arguments, arguments := Some(""))
      else s;
    ExpandPowerShell(s1, true)
  }

  /** The `Webpage` branch: set the browser; non-empty arguments that are an absolute URI
      become the path. */
  function NormalizeWebpage(s: ButtonState, env: Env): (t: ButtonState)
    ensures OnlyLaunchFieldsChanged(s, t) && t.referenceType == s.referenceType
  {
    var s1 := s.(targetBrowser := BrowserAfterSet(s.path, s.targetBrowser, env));
    if !IsNullOrEmpty(s1.arguments) && env.tryCreateAbsoluteUri(s1.arguments.value) then
      s1.(path := s1.arguments, arguments := Some(""))
    else s1
  }

  /** `NormalizeFields`: classify the path, then rewrite path and arguments by kind. */
  function Normalized(s: ButtonState, env: Env): (t: ButtonState)
    ensures OnlyLaunchFieldsChanged(s, t)
    ensures t.referenceType == TypeOfPath(s.path, s.arguments, s.referenceType, env)
            || t.referenceType in {RefType.Webpage, RefType.Powershell}
  {
    var typed := s.(referenceType := TypeOfPath(s.path, s.arguments, s.referenceType, env));
    if typed.referenceType == RefType.Program then NormalizeProgram(typed, env)
    else if typed.referenceType == RefType.Webpage then NormalizeWebpage(typed, env)
    else if typed.referenceType == RefType.Powershell then ExpandPowerShell(typed, false)
    else typed
  }

  /** Files, folders, undetermined paths and undeclared types only get their type recorded:
      path, arguments and browser are left alone. */
  lemma NormalizeLeavesOtherKinds(s: ButtonState, env: Env)
    requires TypeOfPath(s.path, s.arguments, s.referenceType, env) !in
      {RefType.Program, RefType.Webpage, RefType.Powershell}
    ensures Normalized(s, env) == s.(referenceType := TypeOfPath(s.path, s.arguments, s.referenceType, env))
  {
  }

  /** A PowerShell invocation with arguments is rewritten to run the script it names: the
      script becomes the path when `-File` names one (otherwise the full PowerShell path
      stays), the other arguments replace the arguments, and the type is `Powershell`. */
  lemma NormalizePowerShell(s: ButtonState, env: Env)
    requires TypeOfPath(s.path, s.arguments, s.referenceType, env) in {RefType.Program, RefType.Powershell}
    requires s.path == Some(PowerShellName) || s.path == Some(PowerShellPath)
    requires !IsNullOrEmpty(s.arguments)
    ensures var parsed := ExtractPSPathFromArgument(s.arguments.value);
      Normalized(s, env) == s.(referenceType := RefType.Powershell,
                                path := Some(if parsed.0 != "" then parsed.0 else PowerShellPath),
                                arguments := Some(parsed.1))
  {
    assert !IsBrowserPath(s.path);
  }

  /** The whole rewrite on the usual shortcut form: `powershell.exe` with
      `-NoProfile -File "<script>" <rest>` becomes the script with `-NoProfile <rest>`. */
  lemma NormalizeQuotedScript(s: ButtonState, env: Env, startArgs: string, script: string, endArgs: string)
    requires TypeOfPath(s.path, s.arguments, s.referenceType, env) in {RefType.Program, RefType.Powershell}
    requires s.path == Some(PowerShellName)
    requires script != "" && '"' !in script && '"' !in endArgs
    requires s.arguments == Some(QuotedArgument(startArgs, ' ', script, ' ', endArgs))
    ensures Normalized(s, env) == s.(referenceType := RefType.Powershell, path := Some(script),
                                      arguments := Some(QuotedRest(startArgs, endArgs)))
  {
    ExtractQuoted(startArgs, ' ', script, ' ', endArgs);
    NormalizePowerShell(s, env);
  }

  /** A web page whose arguments are an absolute URI moves them into the path. */
  lemma NormalizeWebpageArguments(s: ButtonState, env: Env)
    requires TypeOfPath(s.path, s.arguments, s.referenceType, env) == RefType.Webpage
    requires !IsNullOrEmpty(s.arguments) && env.tryCreateAbsoluteUri(s.arguments.value)
    ensures Normalized(s, env) == s.(referenceType := RefType.Webpage,
                                      targetBrowser := BrowserAfterSet(s.path, s.targetBrowser, env),
                                      path := s.arguments, arguments := Some(""))
  {
  }

  /** Normalising is not idempotent. `powershell.exe` run with `-File a.ps1 -NoExit` becomes
      the script `a.ps1`, of type `Powershell`; a second pass finds `a.ps1` neither on disk
      nor a URI and records it as `Undetermined`. */
  lemma NormalizeTwiceDiffers(s: ButtonState, env: Env)
    requires s.path == Some(PowerShellName) && s.arguments == Some("-File a.ps1 -NoExit")
    requires env.entry(PowerShellName).None? && env.entry("a.ps1").None?
    requires !env.isWellFormedAbsoluteUri("a.ps1")
    ensures Normalized(s, env).path == Some("a.ps1") && Normalized(s, env).referenceType == RefType.Powershell
    ensures Normalized(Normalized(s, env), env).referenceType == RefType.Undetermined
  {
    NormalizeExample(s, env);
    var once := Normalized(s, env);
    ScriptUndetermined(once.referenceType, env);
    NormalizeLeavesOtherKinds(once, env);
  }

  /** The first pass on the example: the script becomes the path and `-NoExit` is lost. */
  lemma NormalizeExample(s: ButtonState, env: Env)
    requires s.path == Some(PowerShellName) && s.arguments == Some("-File a.ps1 -NoExit")
    requires env.entry(PowerShellName).None?
    ensures Normalized(s, env) == s.(referenceType := RefType.Powershell, path := Some("a.ps1"), arguments := Some(""))
  {
    PowerShellInvocationType(s.arguments, s.referenceType, env);
    NoExitDropped("-File a.ps1 -NoExit");
    NormalizePowerShell(s, env);
  }

  /** `powershell.exe` off disk, run with arguments, is classified `Powershell`. */
  lemma PowerShellInvocationType(arguments: Option<string>, current: RefType, env: Env)
    requires env.entry(PowerShellName).None? && !IsNullOrEmpty(arguments)
    ensures TypeOfPath(Some(PowerShellName), arguments, current, env) == RefType.Powershell
  {
  }

  /** `a.ps1` with no arguments, off disk and not a URI, is classified `Undetermined`. */
  lemma ScriptUndetermined(current: RefType, env: Env)
    requires env.entry("a.ps1").None? && !env.isWellFormedAbsoluteUri("a.ps1")
    ensures TypeOfPath(Some("a.ps1"), Some(""), current, env) == RefType.Undetermined
  {
    assert "a.ps1" != PowerShellName && "a.ps1" != EdgeProtocol;
  }

  /** A path without a backslash names no browser by pattern. */
  lemma NoBackslashNoBrowser(path: string)
    requires path != EdgeProtocol
    requires forall j :: 0 <= j < |path| ==> path[j] != Backslash[0]
    ensures BrowserFromPath(path) == Browser.None
  {
    forall i | 0 <= i <= |path| - |FirefoxExe| ensures !OccursAt(path, FirefoxExe, i) {
      assert FirefoxExe[0] == Backslash[0] != path[i..i + |FirefoxExe|][0];
    }
    forall i | 0 <= i <= |path| - |ChromeExe| ensures !OccursAt(path, ChromeExe, i) {
      assert ChromeExe[0] == Backslash[0] != path[i..i + |ChromeExe|][0];
    }
  }

  /** A web page need not get a browser. A file on disk whose name starts with "http" is a
      web page by the prefix test; its path is not an absolute URI and names no browser, so
      `SetBrowser` leaves `None`. */
  lemma WebpageWithoutBrowser(s: ButtonState, env: Env)
    requires s.path == Some("httpnotes.txt") && s.arguments == Some("")
    requires env.entry("httpnotes.txt").Some? && env.entry("httpnotes.txt").value.File?
    requires !IsBrowserPath(Some(env.entry("httpnotes.txt").value.fullName))
    requires !env.tryCreateAbsoluteUri("httpnotes.txt")
    ensures Normalized(s, env).referenceType == RefType.Webpage
    ensures Normalized(s, env).targetBrowser == Browser.None
  {
    assert StartsWith("httpnotes.txt", "http");
    NoBackslashNoBrowser("httpnotes.txt");
  }

  /** `Assimilate(drone)`: the caption, path, arguments, grid cell, position and admin flag of
      `drone`; everything else stays. */
  function Assimilated(s: ButtonState, drone: ButtonState): ButtonState {
    s.(caption := drone.caption, path := drone.path, arguments := drone.arguments,
       gridLocation := drone.gridLocation, location := drone.location, adminOnly := drone.adminOnly)
  }

  /** Assimilating is idempotent, the last drone wins, and a button assimilating itself is
      unchanged. */
  lemma AssimilateProperties(s: ButtonState, d1: ButtonState, d2: ButtonState)
    ensures Assimilated(Assimilated(s, d1), d1) == Assimilated(s, d1)
    ensures Assimilated(Assimilated(s, d1), d2) == Assimilated(s, d2)
    ensures Assimilated(s, s) == s
    ensures Assimilated(s, d1).referenceType == s.referenceType
            && Assimilated(s, d1).targetBrowser == s.targetBrowser
            && Assimilated(s, d1).background == s.background
            && Assimilated(s, d1).hasHotKeySet == s.hasHotKeySet
  {
  }

  /** The state the constructor leaves: the given fields with the property defaults, the
      browser forced to Edge for a web page (the test sees the still-unset `None`), then
      `NormalizeFields`, then the default and actual background. */
  function Constructed(env: Env, darkMode: bool, caption: string, path: string, grid: Point,
                       arguments: string, adminOnly: bool, background: Option<Color>,
                       refType: RefType, browserTarget: Browser): (s: ButtonState)
    ensures s.defaultBack == DefaultBackColor(darkMode)
    ensures s.background == if background.Some? then background.value else DefaultBackColor(darkMode)
  {
    var initial := ButtonState(caption, Some(path), Some(arguments), grid, Point(0, 0), adminOnly,
                               SystemControl, EmptyColor, refType,
                               if refType == RefType.Webpage then Browser.Edge else browserTarget,
                               false, ModifierKeysConverter.NoModifiers, KeyConverter.Key.None, -1);
    var defaultBack := DefaultBackColor(darkMode);
    Normalized(initial, env).(defaultBack := defaultBack,
                              background := if background.Some? then background.value else defaultBack)
  }

  /** A web page's browser argument is never used: every choice builds the same button. */
  lemma ConstructorIgnoresWebpageBrowser(env: Env, darkMode: bool, caption: string, path: string, grid: Point,
                                         arguments: string, adminOnly: bool, background: Option<Color>,
                                         b1: Browser, b2: Browser)
    ensures Constructed(env, darkMode, caption, path, grid, arguments, adminOnly, background, RefType.Webpage, b1)
         == Constructed(env, darkMode, caption, path, grid, arguments, adminOnly, background, RefType.Webpage, b2)
  {
  }

  class LauncherButton {
    var caption: string
    var path: Option<string>
    var arguments: Option<string>
    var gridLocation: Point
    var location: Point
    var adminOnly: bool
    var background: Color
    var defaultBack: Color
    var referenceType: RefType
    var targetBrowser: Browser
    var hasHotKeySet: bool
    var keyModifiers: ModifierKeysConverter.ModifierKeys
    var keyTarget: KeyConverter.Key
    var hotKeyId: int

    function State(): ButtonState
      reads this
    {
      ButtonState(caption, path, arguments, gridLocation, location, adminOnly, background, defaultBack,
                  referenceType, targetBrowser, hasHotKeySet, keyModifiers, keyTarget, hotKeyId)
    }

    /** The `[JsonConstructor]` constructor; `darkMode` is `Program.UsingDarkMode`. The
        parameterless constructor is this one with `("", "", new Point())`. */
    constructor(env: Env, darkMode: bool, caption: string, path: string, grid: Point,
                arguments: string, adminOnly: bool, background: Option<Color>,
                refType: RefType, browserTarget: Browser)
      ensures State() == Constructed(env, darkMode, caption, path, grid, arguments, adminOnly,
                                     background, refType, browserTarget)
    {
      this.caption := caption;
      this.path := Some(path);
      this.arguments := Some(arguments);
      gridLocation := grid;
      location := Point(0, 0);
      this.adminOnly := adminOnly;
      this.background := SystemControl;
      defaultBack := EmptyColor;
      referenceType := refType;
      targetBrowser := Browser.None;
      hasHotKeySet := false;
      keyModifiers := ModifierKeysConverter.NoModifiers;
      keyTarget := KeyConverter.Key.None;
      hotKeyId := -1;
      new;
      if referenceType == RefType.Webpage && targetBrowser == Browser.None {
        targetBrowser := Browser.Edge;
      } else {
        targetBrowser := browserTarget;
      }
      NormalizeFields(env);
      defaultBack := DefaultBackColor(darkMode);
      this.background := if background.Some? then background.value else defaultBack;
    }

    /** The `Keys` property: the virtual-key code of `KeyTarget`, 0 for a key without one. */
    function Keys(): (code: int)
      reads this
      ensures code == 0 <==> KeyInterop.HasNoVirtualKey(keyTarget)
      ensures code != 0 ==> KeyInterop.KeyFromVirtualKey(code) == keyTarget
    {
      KeyInterop.KeyRoundTrip(keyTarget);
      KeyInterop.VirtualKeyFromKey(keyTarget)
    }

    /** `DetermineType()`: the file-system probe first; when it throws, the PowerShell and
        Edge special cases and then the URI probes. */
    method DetermineType(env: Env)
      modifies this
      ensures State() == old(State()).(referenceType := TypeOfPath(old(path), old(arguments), old(referenceType), env))
    {
      if path.None? {
        referenceType := RefType.Undetermined;
        return;
      }
      var p := path.value;
      match env.entry(p) {
        case Some(Directory) =>
          referenceType := RefType.Folder;
        case Some(File(fullName, extension)) =>
          if IsBrowserPath(Some(fullName)) || StartsWith(p, "http") {
            referenceType := RefType.Webpage;
          } else if extension == ".exe" {
            referenceType := RefType.Program;
          } else if extension == ".ps1" {
            referenceType := RefType.Powershell;
          } else {
            referenceType := RefType.File;
          }
        case None =>
          if p == PowerShellName && !IsNullOrEmpty(arguments) {
            referenceType := RefType.Powershell;
            return;
          } else if p == EdgeProtocol {
            referenceType := RefType.Webpage;
          }
          if env.isWellFormedAbsoluteUri(p) {
            match env.parseUri(p) {
              case None =>
                referenceType := RefType.Undetermined;
              case Some(host) =>
                if host.hostIsDns && !host.isUnc {
                  referenceType := RefType.Webpage;
                }
            }
          } else {
            referenceType := RefType.Undetermined;
          }
      }
    }

    /** `SetBrowser()`. */
    method SetBrowser(env: Env)
      modifies this
      ensures State() == old(State()).(targetBrowser := BrowserAfterSet(old(path), old(targetBrowser), env))
    {
      if path.None? {
        targetBrowser := Browser.None;
        return;
      }
      if env.tryCreateAbsoluteUri(path.value) {
        if targetBrowser == Browser.None {
          targetBrowser := Browser.Edge;
        }
      } else {
        targetBrowser := BrowserFromPath(path.value);
      }
    }

    /** The PowerShell block `NormalizeFields` runs in its `Program` and `Powershell`
        branches. */
    method ExpandPowerShellPath(markPowershell: bool)
      modifies this
      ensures State() == ExpandPowerShell(old(State()), markPowershell)
    {
      if path == Some(PowerShellName) {
        path := Some(PowerShellPath);
      }
      if path == Some(PowerShellPath) && !IsNullOrEmpty(arguments) {
        var parsed := ExtractPSPathFromArgument(arguments.value);
        if parsed.0 != "" {
          path := Some(parsed.0);
        }
        arguments := Some(parsed.1);
        if markPowershell {
          referenceType := RefType.Powershell;
        }
      }
    }

    /** `NormalizeFields()`. */
    method NormalizeFields(env: Env)
      modifies this
      ensures State() == Normalized(old(State()), env)
    {
      DetermineType(env);
      if referenceType == RefType.Program {
        if IsBrowserPath(path) && !IsNullOrEmpty(arguments) {
          referenceType := RefType.Webpage;
          SetBrowser(env);
          path := arguments;
          arguments := Some("");
        }
        ExpandPowerShellPath(true);
      } else if referenceType == RefType.Webpage {
        SetBrowser(env);
        if !IsNullOrEmpty(arguments) && env.tryCreateAbsoluteUri(arguments.value) {
          path := arguments;
          arguments := Some("");
        }
      } else if referenceType == RefType.Powershell {
        ExpandPowerShellPath(false);
      }
    }

    /** `Assimilate(drone)`. */
    method Assimilate(drone: LauncherButton)
      modifies this
      ensures State() == Assimilated(old(State()), old(drone.State()))
    {
      caption, path, arguments := drone.caption, drone.path, drone.arguments;
      gridLocation, location, adminOnly := drone.gridLocation, drone.location, drone.adminOnly;
    }
  }

  /** The static `DetermineType(button)`: classifies the button and returns its new type. */
  method DetermineTypeOf(button: LauncherButton, env: Env) returns (t: RefType)
    modifies button
    ensures t == button.referenceType
    ensures t == TypeOfPath(old(button.path), old(button.arguments), old(button.referenceType), env)
    ensures button.State() == old(button.State()).(referenceType := t)
  {
    button.DetermineType(env);
    t := button.referenceType;
  }
}
