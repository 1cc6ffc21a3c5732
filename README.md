# Launcher8 core, modelled in Dafny

Launcher8 is a Windows Forms launcher. It shows a grid of buttons, and each button starts a
program, a folder, a web page, a PowerShell script or a file. A button can also carry a
system-wide hot key. This project models the logic behind those buttons and proves
properties of it:

- **Modifier keys** (`modifier_keys.dfy`, module `ModifierKeysConverter`). The `[Flags]`
  enum `ModifierKeys` is a 32-bit pattern. The converter renders a pattern as text such as
  `Ctrl+Alt+Shift`, and reads such text back.
- **Keys** (`key_codec.dfy`, module `KeyConverter`). The launcher's copy of the `Key` enum
  and its `KeyConverter`. It writes a key as its name and reads key names, switch spellings
  and numbers back. `key_names.dfy` (module `KeyNames`) proves that the enum's names are
  told apart, ignoring case, from each other and from the switch's spellings, and from that
  the round trip for every named key.
- **Virtual-key codes** (`key_interop.dfy`, module `KeyInterop`). The two `switch` tables
  between `Key` values and Win32 virtual-key codes.
- **Hot keys** (`keyboard_hook.dfy`, module `KeyboardHook`). The `KeyboardHook` class hands
  out hot-key ids and releases them on `Dispose`. Its `WndProc` decodes `WM_HOTKEY` messages.
- **PowerShell arguments** (`ps_arguments.dfy`, module `PowerShellArguments`).
  `ExtractPSPathFromArgument` finds the script named by `-File` in a PowerShell command
  line. Its two regular expressions are written out as position searches.
- **Buttons** (`launcher_button.dfy`, module `Controls`). The `LauncherButton` class and its
  persisted fields. It classifies its path (`DetermineType`), picks a browser
  (`GetBrowser`, `SetBrowser`), rewrites path and arguments (`NormalizeFields`) and copies
  another button (`Assimilate`).
- **JSON** (`json_converters.dfy`, module `JsonConverters`). The JSON converters for one
  button and for the button collection. The reader is a token sequence with a cursor; the
  writer is an object that collects tokens.

Two further modules are support code. `wrappers.dfy` holds `Option` and `Result`.
`text.dfy` (module `Text`) holds the .NET string routines the core calls: `Trim`,
invariant `ToUpper`, `Split`, `IndexOf`, `int.Parse` and integer formatting.

The file system and the URI parser a button consults are passed in as an `Env` value.
Whether a native `RegisterHotKey` call succeeds is a parameter. Dark mode is a parameter.

The main results are:

- rendering defined modifiers and parsing the text back gives the same modifiers;
- every named key is written as a text that reads back as the same key
  (`KeyNames.KeyNameRoundTrip`), except `LineFeed`, which is written `Clear` and reads back
  as the key `Clear`;
- the virtual-key tables invert each other, except that the generic Shift, Control and Alt
  codes come back as the left-hand ones;
- a posted hot-key `lParam` decodes to the modifiers and key that were pressed;
- `Dispose` unregisters every id it ever handed out;
- a button written to JSON and read back gives the button the reader rebuilds;
- a collection written to JSON and read back gives the list of those buttons.

Where the documented behaviour and the code disagree, the model follows the code:

- A four-part `Background` string is read as alpha, red, green, blue (`Color.FromArgb(a, r,
  g, b)`), not as red, green, blue, alpha.
- `SetBrowser` on a rooted Windows path (`C:\...\chrome.exe`): .NET's `Uri.TryCreate` with
  `UriKind.Absolute` accepts such a path as a `file:` URI. So the code keeps the current
  browser, or picks Edge, instead of matching the Chrome or Firefox pattern. The model
  leaves that answer to `Env.tryCreateAbsoluteUri`, and `SetBrowserAgreesWithGetBrowser`
  states both cases.
- Normalising a button twice is not normalising it once. `powershell.exe` with arguments
  `-File a.ps1 -NoExit`, where neither file exists, becomes a Powershell button with path
  `a.ps1`; a second pass finds no file `a.ps1` and classifies it as Undetermined
  (`NormalizeTwiceDiffers`).
- A Webpage button need not get a browser. An existing file `httpnotes.txt` is classified as
  a Webpage because its path starts with `http`, and normalising leaves its browser at None
  (`WebpageWithoutBrowser`).

## Model

| member | source | states |
|---|---|---|
| ModifierKeysConverter.AsInt32 | SOURCE/Classes/Input.cs:48-49 | `(int)modifiers` of a 32-bit pattern is a value in the Int32 range (the number the `InvalidEnumArgumentException` reports) |
| ModifierKeysConverter.DefinedIffFourBits | SOURCE/Classes/Input.cs:124-129 | a pattern is defined exactly when no bit outside Windows, Shift, Alt and Control is set, i.e. when it is below 16 |
| ModifierKeysConverter.CanConvertToString | SOURCE/Classes/Input.cs:23-31 | conversion to string is offered exactly when there is a context instance and it is a defined pattern |
| ModifierKeysConverter.ConvertTo | SOURCE/Classes/Input.cs:40-82 | an undefined pattern throws `InvalidEnumArgumentException` with its Int32 value; a defined one gives the names of its set flags in the order Ctrl, Alt, Windows, Shift, joined by `+` |
| ModifierKeysConverter.RenderStep | SOURCE/Classes/Input.cs:57-62 | one flag's step appends the delimiter only after earlier text, then that flag's name |
| ModifierKeysConverter.GetModifierKeys | SOURCE/Classes/Input.cs:83-123 | the `do`/`while` loop over `+`-separated pieces computes the parse specification: OR of the flags named, stopping at an empty piece, `NotSupportedException` on an unknown piece |
| ModifierKeysConverter.ConvertFrom | SOURCE/Classes/Input.cs:32-39 | the source text is trimmed, then parsed by `GetModifierKeys` |
| ModifierKeysConverter.TokenCases | SOURCE/Classes/Input.cs:96-117 | the token table answers exactly the switch's cases: CONTROL and CTRL, SHIFT, ALT, WINDOWS and WIN, nothing else |
| ModifierKeysConverter.ParseTokensCons | SOURCE/Classes/Input.cs:88-120 | the parse of a piece list: an empty first piece stops with no flags, an unknown one throws, a known one adds its flag to the rest |
| ModifierKeysConverter.FinishPrepend | SOURCE/Classes/Input.cs:99-112 | OR-ing one flag into the accumulator first or last gives the same pattern |
| ModifierKeysConverter.ParseTokensAppend | SOURCE/Classes/Input.cs:87-120 | a run of modifier names followed by more pieces parses to their flags followed by the rest's result |
| ModifierKeysConverter.OrWithFlag | SOURCE/Classes/Input.cs:99-112 | after the OR-assignment a flag is set exactly when it was set or is the one added, and the pattern stays defined |
| ModifierKeysConverter.CombineBits | SOURCE/Classes/Input.cs:87-122 | OR-ing a list of flags keeps the pattern defined, and a flag ends up set exactly when it was set or is in the list |
| ModifierKeysConverter.ParseNames | SOURCE/Classes/Input.cs:83-123 | `+`-joined modifier names, in any order and with repeats, parse to the OR of their flags; the result is defined, and a flag is set exactly when some name names it |
| ModifierKeysConverter.EmptyPieceStops | SOURCE/Classes/Input.cs:93-94 | an empty or blank piece ends parsing: the names after it are ignored, even unknown ones |
| ModifierKeysConverter.UnknownPieceThrows | SOURCE/Classes/Input.cs:115-116 | the first unknown piece throws `NotSupportedException` quoting its trimmed upper-case text |
| ModifierKeysConverter.MatchModifiersReads | SOURCE/Classes/Input.cs:130-139 | the name `MatchModifiers` gives each single flag is a modifier name that parses back to that flag |
| ModifierKeysConverter.DisplayNamesAreModifierNames | SOURCE/Classes/Input.cs:133-136 | Ctrl, Alt, Windows and Shift are accepted spellings of their own flags |
| ModifierKeysConverter.FlagNamesRead | SOURCE/Classes/Input.cs:53-76 | the names rendered for a defined pattern OR back to exactly that pattern |
| ModifierKeysConverter.FourBits | SOURCE/Classes/Input.cs:53-76 | a defined pattern is the OR of its four tested flags, and it is None exactly when none is set |
| ModifierKeysConverter.ParseEmpty | SOURCE/Classes/Input.cs:84-85 | the empty text parses to None |
| ModifierKeysConverter.DisplayNamesParse | SOURCE/Classes/Input.cs:83-123 | rendered names joined by `+` parse to the OR of their flags |
| ModifierKeysConverter.RenderShape | SOURCE/Classes/Input.cs:51-78 | the rendered text is empty exactly for None, never starts or ends with `+`, and has no white space at its ends |
| ModifierKeysConverter.MatchModifiers | SOURCE/Classes/Input.cs:130-139 | the display name is non-empty exactly for a single flag |
| ModifierKeysConverter.ParseTokens | SOURCE/Classes/Input.cs:88-120 | a parsed piece list yields single flags only; a failure names a non-empty piece that is no modifier name |
| ModifierKeysConverter.ParseModifiers | SOURCE/Classes/Input.cs:83-123 | a parsed text is a defined pattern; a failure names a non-empty piece that is no modifier name |
| ModifierKeysConverter.RenderParseRoundTrip | SOURCE/Classes/Input.cs:32-123 | for every defined pattern, reading back the rendered text, trimmed or not, gives the same pattern |
| KeyConverter.EnumName | SOURCE/Classes/Input.cs:142-345 | a key value has an enum name exactly when it lies in the named range None..DeadCharProcessed |
| KeyConverter.FirstFromSpec | SOURCE/Classes/Input.cs:469 | the name search returns the first named value satisfying the test, and fails only when no value does |
| KeyConverter.CanConvertTo | SOURCE/Classes/Input.cs:354-365 | conversion to string is offered exactly for a context instance in the named range |
| KeyConverter.MatchKey | SOURCE/Classes/Input.cs:475-489 | a key has text exactly in the named range; Back is `Backspace`, LineFeed is `Clear`, Escape is `Esc`, and every other named key but None its enum name |
| KeyConverter.ConvertTo | SOURCE/Classes/Input.cs:378-401 | writing fails exactly for keys outside the named range, with `NotConvertible`; None is the empty text, and every named key other than a digit, a letter, Back, LineFeed or Escape is written as its enum name |
| KeyConverter.EnumParse | SOURCE/Classes/Input.cs:469 | `Enum.Parse` answers a value outside the named range only for a numeric token |
| KeyConverter.DigitKeyRoundTrip | SOURCE/Classes/Input.cs:388-390 | D0..D9 are written as their digit and read back from it |
| KeyConverter.LetterKeyRoundTrip | SOURCE/Classes/Input.cs:392-394 | A..Z are written as their capital letter, and read back from it and from the small letter |
| KeyConverter.BlankIsNone | SOURCE/Classes/Input.cs:384-386 | blank text reads as None, and None is written as the empty text |
| KeyConverter.GetKeyIgnoresCase | SOURCE/Classes/Input.cs:403-407 | `GetKey` upper-cases its token first, so the token's case does not matter |
| KeyConverter.ConvertFromIgnoresCase | SOURCE/Classes/Input.cs:366-377 | the key read from a text does not depend on the text's case; whether it throws does not either |
| KeyConverter.NotAShortcut | SOURCE/Classes/Input.cs:415-467 | a token not starting with a capital letter matches no case of the switch |
| KeyConverter.UndeclaredOnlyFromNumbers | SOURCE/Classes/Input.cs:403-473 | a key outside the named range is read only from a numeric text |
| KeyConverter.NumberIsRawValue | SOURCE/Classes/Input.cs:466-471 | a number of two or more characters reads as the key with that value, named or not, except -1 |
| KeyConverter.DigitIsDigitKey | SOURCE/Classes/Input.cs:408-410 | a one-digit text is the digit key, not the value of the number |
| KeyConverter.MinusOneIsUnsupported | SOURCE/Classes/Input.cs:469-472 | `-1` parses to the value the switch reserves for no key, so reading it throws `NotSupportedException` |
| KeyConverter.NumberShape | SOURCE/Classes/Input.cs:466 | the decimal text of an integer is numeric and has no small letters |
| KeyConverter.LongToken | SOURCE/Classes/Input.cs:407-414 | a token of two or more characters goes to the switch on its upper case |
| KeyConverter.SwitchShortcut | SOURCE/Classes/Input.cs:415-471 | a spelling the switch lists gives that case's key |
| KeyConverter.SwitchName | SOURCE/Classes/Input.cs:466-471 | a text the switch does not list that names a key, ignoring case, gives the first value with that name |
| KeyConverter.ReadsAsShortcut | SOURCE/Classes/Input.cs:366-471 | a text whose upper case is a switch spelling reads as that case's key |
| KeyConverter.ReadsAsName | SOURCE/Classes/Input.cs:366-471 | a text that is no switch spelling and names a key reads as that key |
| KeyConverter.ShortcutGroups | SOURCE/Classes/Input.cs:416-465 | the switch's cases are tried in source order, group by group |
| KeyConverter.EscapeRoundTrip | SOURCE/Classes/Input.cs:417-483 | Escape is written `Esc`, which reads back as Escape |
| KeyConverter.ReturnRoundTrip | SOURCE/Classes/Input.cs:416-487 | Return is written `Enter`, which reads back as Return |
| KeyConverter.BackRoundTrip | SOURCE/Classes/Input.cs:430-481 | Back is written `Backspace`, which reads back as Back |
| KeyConverter.LineFeedReadsAsClear | SOURCE/Classes/Input.cs:466-482 | LineFeed is written `Clear`, which reads back as the different key Clear |
| KeyConverter.SwitchKey | SOURCE/Classes/Input.cs:415-472 | after the switch and `Enum.Parse`, no key (the reserved -1) or an unnamed key comes only from a numeric token; an overflow only from a numeric token, an unknown name only from a non-numeric one |
| KeyConverter.GetKey | SOURCE/Classes/Input.cs:403-473 | the empty token is None; no key or an unnamed key comes only from a token whose upper case is numeric; a failure is the overflow or unknown-name error for the upper-cased token |
| KeyConverter.ConvertFrom | SOURCE/Classes/Input.cs:366-377 | blank text reads as None; an unnamed key comes only from numeric text; a failure is `NotSupportedException` for numeric text, an overflow or an unknown name, each for the trimmed text |
| KeyNames.NamedOnlyBy | SOURCE/Classes/Input.cs:142-345 | a text with the name fingerprint of a key names, ignoring case, no other key: the enum's names are distinct up to case |
| KeyNames.FindsCodedName | SOURCE/Classes/Input.cs:466 | `Enum.Parse` with ignoreCase finds exactly the key a text names |
| KeyNames.SwitchCoded | SOURCE/Classes/Input.cs:415-465 | the switch reads a text with the name fingerprint of a key as that key or not at all |
| KeyNames.FirstNameReadsBack | SOURCE/Classes/Input.cs:366-471 | a named key other than a letter, written as its first enum name, reads back as itself |
| KeyNames.KeyNameRoundTrip | SOURCE/Classes/Input.cs:366-489 | every named key except LineFeed is written without error, as a text that reads back as the same key |
| KeyInterop.KeyFromVirtualKey | SOURCE/Classes/Input.cs:668-1325 | every code maps to a named key, and a code outside 0..255 to None |
| KeyInterop.VirtualKeyFromKey | SOURCE/Classes/Input.cs:1327-1981 | every key maps to a code in 0..255, and an unnamed key to 0 |
| KeyInterop.KeyRoundTrip | SOURCE/Classes/Input.cs:1327-1981 | a key has no virtual-key code exactly when it is None, LineFeed, AbntC1, AbntC2, System..OemBackTab, DeadCharProcessed or unnamed; otherwise the code maps back to the key |
| KeyInterop.CodeRoundTrip | SOURCE/Classes/Input.cs:668-1325 | every code maps to a named key, and a listed code maps to a key whose own code is that code, with the generic modifier codes replaced by the left-hand ones |
| KeyInterop.GenericModifierCodes | SOURCE/Classes/Input.cs:1128-1153 | VK_SHIFT, VK_CONTROL and VK_MENU map to LeftShift, LeftCtrl and LeftAlt, which map back to VK_LSHIFT, VK_LCONTROL and VK_LMENU |
| KeyboardHook.AsUInt32 | SOURCE/Classes/KeyboardHook.cs:43 | `(uint)` of a 32-bit value is its bit pattern: in range, congruent modulo 2^32, unchanged when non-negative |
| KeyboardHook.AsInt32Bits | SOURCE/Classes/KeyboardHook.cs:20-21 | reading a 32-bit pattern as a signed value inverts `(uint)` |
| KeyboardHook.HotKeyWords | SOURCE/Classes/KeyboardHook.cs:20-21 | the masked low word and shifted high word are 16-bit values that rebuild the unsigned `lParam` |
| KeyboardHook.HotKeyArgs | SOURCE/Classes/KeyboardHook.cs:19-22 | the event's key is a 16-bit code and its modifiers are the low word |
| KeyboardHook.WndProc | SOURCE/Classes/KeyboardHook.cs:17-24 | an event is raised exactly for `WM_HOTKEY`, with the decoded arguments |
| KeyboardHook.HotKeyLParam | SOURCE/Classes/KeyboardHook.cs:20-21 | the posted `lParam` holds the key in the high word and the modifiers in the low word |
| KeyboardHook.DecodeEncode | SOURCE/Classes/KeyboardHook.cs:19-22 | decoding a posted `lParam` gives back the pressed modifiers and key |
| KeyboardHook.EncodeDecode | SOURCE/Classes/KeyboardHook.cs:20-21 | every 32-bit `lParam` is the one posted for the words it decodes to |
| KeyboardHook.CountdownContents | SOURCE/Classes/KeyboardHook.cs:53-55 | the loop's ids are currentId, currentId-1, ..., 1, each once |
| KeyboardHook.KeyboardHook.constructor | SOURCE/Classes/KeyboardHook.cs:32-39 | a new hook has id counter 0, no hot keys and an open window |
| KeyboardHook.KeyboardHook.RegisterHotKey | SOURCE/Classes/KeyboardHook.cs:41-46 | the counter advances either way; on success the new id is fresh and is bound to the modifiers and `(uint)key`, on refusal nothing is bound and `InvalidOperationException` is raised |
| KeyboardHook.KeyboardHook.UnregisterHotKey | SOURCE/Classes/KeyboardHook.cs:47-49 | the id is released if held, and unknown ids are accepted silently |
| KeyboardHook.KeyboardHook.Dispose | SOURCE/Classes/KeyboardHook.cs:52-57 | every id from currentId down to 1 is unregistered in that order, no hot key is left, and the window is closed |
| KeyboardHook.RegisterTwice | SOURCE/Classes/KeyboardHook.cs:41-46 | two registrations hand out consecutive ids, whatever became of the first |
| PowerShellArguments.QuotedPathEnd | SOURCE/Controls/LauncherButton.cs:202 | the quoted pattern after `startargs` needs `-File`, white space, a quote, a path without quotes, a quote and white space |
| PowerShellArguments.UnquotedPathEnd | SOURCE/Controls/LauncherButton.cs:203 | the unquoted pattern needs `-File`, white space, a path without quotes or spaces and white space |
| PowerShellArguments.LastMatch | SOURCE/Controls/LauncherButton.cs:202-203 | the greedy `(?<startargs>.*)` makes the match start at the last position where the rest of the pattern fits |
| PowerShellArguments.LastMatchAt | SOURCE/Controls/LauncherButton.cs:206-208 | a position where the pattern fits with none after it is the match |
| PowerShellArguments.ExtractPSPathFromArgument | SOURCE/Controls/LauncherButton.cs:201-229 | the path never holds a quote, and without any `-File` switch the path is empty and the arguments are returned whole |
| PowerShellArguments.QuotedMatchAt | SOURCE/Controls/LauncherButton.cs:202-208 | a quoted switch followed by no further quote is where the quoted pattern matches |
| PowerShellArguments.UnquotedMatchAt | SOURCE/Controls/LauncherButton.cs:203-217 | in a string without quotes, the last `-File` switch is where the unquoted pattern matches, and the quoted one does not |
| PowerShellArguments.NoSwitchInsideSwitch | SOURCE/Controls/LauncherButton.cs:202-203 | two `-File` switches cannot overlap |
| PowerShellArguments.ExtractQuoted | SOURCE/Controls/LauncherButton.cs:206-214 | a quoted script path is extracted exactly, and the arguments around it are kept, joined by one space when both are non-empty |
| PowerShellArguments.ExtractUnquoted | SOURCE/Controls/LauncherButton.cs:215-223 | an unquoted path is extracted up to the space after it; the arguments after it are kept only when some come before it, because `??` never falls through to `endargs` |
| PowerShellArguments.TrailingQuotedPathUnmatched | SOURCE/Controls/LauncherButton.cs:202-227 | a quoted path with nothing after its closing quote matches neither pattern, so no script is found and the whole string comes back as arguments |
| PowerShellArguments.NoExitDropped | SOURCE/Controls/LauncherButton.cs:215-223 | `-File a.ps1 -NoExit` gives the script `a.ps1` and loses `-NoExit` |
| Controls.DefaultBackColor | SOURCE/Controls/LauncherButton.cs:86-92 | the default back colour is a named system colour |
| Controls.BrowserPath | SOURCE/Controls/LauncherButton.cs:36-41 | `BrowserPaths` holds null exactly for `Browser.None` |
| Controls.BrowserFromPath | SOURCE/Controls/LauncherButton.cs:177-182 | the path `switch` always answers a declared browser |
| Controls.GetBrowser | SOURCE/Controls/LauncherButton.cs:173-183 | a button's own browser wins; otherwise the answer comes from the path, and no path gives None |
| Controls.BrowserPathRoundTrip | SOURCE/Controls/LauncherButton.cs:36-41 | for a button with no browser of its own, `GetBrowser` on each browser's `BrowserPaths` entry names that browser |
| Controls.FirefoxPathNamesFirefox | SOURCE/Controls/LauncherButton.cs:39 | the Firefox entry matches the Firefox pattern |
| Controls.ChromePathNamesChrome | SOURCE/Controls/LauncherButton.cs:40 | the Chrome entry matches the Chrome pattern and not the Firefox one, which is tried first |
| Controls.EdgeProtocolNamesEdge | SOURCE/Controls/LauncherButton.cs:38 | the Edge protocol matches neither executable pattern, so it reaches its own case |
| Controls.TypeOfPath | SOURCE/Controls/LauncherButton.cs:130-172 | classification gives a declared type when the old one was declared, and keeps the old type in the one case where no branch assigns |
| Controls.TypeOfPathIgnoresCurrent | SOURCE/Controls/LauncherButton.cs:158-164 | the previous type matters only when a well-formed absolute URI is not a DNS host or is UNC; there it is kept, otherwise any previous type gives the same answer |
| Controls.EdgeProtocolType | SOURCE/Controls/LauncherButton.cs:155-164 | the Edge protocol's Webpage type is overwritten by the URI probes that follow |
| Controls.BrowserAfterSet | SOURCE/Controls/LauncherButton.cs:184-188 | `SetBrowser` with no path leaves no browser |
| Controls.SetBrowserAgreesWithGetBrowser | SOURCE/Controls/LauncherButton.cs:184-200 | for a path that is not an absolute URI `SetBrowser` picks what `GetBrowser` does without a browser; for an absolute URI it keeps the browser, or picks Edge for none |
| Controls.SetBrowserIdempotent | SOURCE/Controls/LauncherButton.cs:184-200 | setting the browser twice is setting it once |
| Controls.ExpandPowerShell | SOURCE/Controls/LauncherButton.cs:240-248 | the PowerShell step changes only the launch fields, and changes the path only for `powershell.exe` or its full path |
| Controls.NormalizeProgram | SOURCE/Controls/LauncherButton.cs:233-249 | the Program branch changes only type, browser, path and arguments |
| Controls.NormalizeWebpage | SOURCE/Controls/LauncherButton.cs:250-256 | the Webpage branch changes only browser, path and arguments |
| Controls.Normalized | SOURCE/Controls/LauncherButton.cs:230-276 | normalising changes only the launch fields, and the type it records comes from classifying the path |
| Controls.NormalizeLeavesOtherKinds | SOURCE/Controls/LauncherButton.cs:267-273 | files, folders, undetermined and undeclared types only get their type recorded |
| Controls.NormalizePowerShell | SOURCE/Controls/LauncherButton.cs:240-265 | a PowerShell invocation with arguments gets the extracted script as path when it is non-empty, and the remaining arguments |
| Controls.NormalizeQuotedScript | SOURCE/Controls/LauncherButton.cs:240-248 | `powershell.exe` with a quoted `-File` script becomes a Powershell button running that script with the remaining arguments |
| Controls.NormalizeWebpageArguments | SOURCE/Controls/LauncherButton.cs:250-255 | a web page whose arguments are an absolute URI moves them into the path |
| Controls.AssimilateProperties | SOURCE/Controls/LauncherButton.cs:277-284 | assimilating is idempotent, the last drone wins, a button assimilating itself is unchanged, and type, browser, background and hot-key flag are kept |
| Controls.Constructed | SOURCE/Controls/LauncherButton.cs:64-94 | the constructor sets the default back colour by mode, and the background to the given colour or that default |
| Controls.ConstructorIgnoresWebpageBrowser | SOURCE/Controls/LauncherButton.cs:79-83 | for a Webpage button the browser argument is never used, because `TargetBrowser` is still None when tested |
| Controls.LauncherButton.constructor | SOURCE/Controls/LauncherButton.cs:64-94 | the new button's state is the constructed state |
| Controls.LauncherButton.Keys | SOURCE/Controls/LauncherButton.cs:58 | the `Keys` property is 0 exactly for keys without a virtual-key code; otherwise the code maps back to `KeyTarget` |
| Controls.LauncherButton.DetermineType | SOURCE/Controls/LauncherButton.cs:130-172 | only the type changes, to the classification of the old path |
| Controls.LauncherButton.SetBrowser | SOURCE/Controls/LauncherButton.cs:184-200 | only the browser changes, as `BrowserAfterSet` says |
| Controls.LauncherButton.ExpandPowerShellPath | SOURCE/Controls/LauncherButton.cs:240-248 | the new state is the PowerShell step of the old one |
| Controls.LauncherButton.NormalizeFields | SOURCE/Controls/LauncherButton.cs:230-276 | the new state is the normalised old state |
| Controls.LauncherButton.Assimilate | SOURCE/Controls/LauncherButton.cs:277-284 | the new state copies caption, path, arguments, grid cell, position and admin flag from the drone and keeps the rest |
| Controls.UriType | SOURCE/Controls/LauncherButton.cs:158-167 | a path that is not a well-formed absolute URI, or does not parse, is Undetermined; a Webpage answer not already given needs a DNS host that is not UNC; otherwise the type so far is kept |
| Controls.NormalizeTwiceDiffers | SOURCE/Controls/LauncherButton.cs:130-276 | normalising is not idempotent: `powershell.exe -File a.ps1 -NoExit`, with neither file present, becomes the Powershell button `a.ps1`, which a second pass classifies as Undetermined |
| Controls.WebpageWithoutBrowser | SOURCE/Controls/LauncherButton.cs:130-276 | an existing file whose path starts with `http` is classified as a Webpage and keeps the browser None |
| Controls.DetermineTypeOf | SOURCE/Controls/LauncherButton.cs:126-129 | the static form returns the new type and changes nothing else |
| JsonConverters.GetString | SOURCE/Classes/JsonConverters.cs:23 | `GetString` succeeds exactly on strings, property names and null, and answers null exactly for null |
| JsonConverters.GetBoolean | SOURCE/Classes/JsonConverters.cs:47 | `GetBoolean` succeeds exactly on true and false |
| JsonConverters.GetUnsigned | SOURCE/Classes/JsonConverters.cs:77-89 | `GetUInt16` and `GetUInt32` succeed exactly on numbers in range; other numbers are out of range, other tokens the wrong type |
| JsonConverters.ParsePoint | SOURCE/Classes/JsonConverters.cs:42-43 | a parsed grid location has Int32 coordinates; a text without a comma fails |
| JsonConverters.Component | SOURCE/Classes/JsonConverters.cs:63 | a colour component that is read is a byte |
| JsonConverters.ParseColor | SOURCE/Classes/JsonConverters.cs:53-75 | one part is a named colour; three or four parts that are all bytes give the colour `Color.FromArgb` builds, opaque for three and alpha first for four; an unparsable or out-of-range part, or two or five or more parts, keep the current colour |
| JsonConverters.ColorOfPieces | SOURCE/Classes/JsonConverters.cs:58-74 | three byte pieces give the opaque colour of red, green and blue, four give alpha, red, green and blue; a piece that is no byte, or another count, keeps the current colour |
| JsonConverters.FormatPoint | SOURCE/Classes/JsonConverters.cs:112 | a grid location is written as two comma-separated pieces, X and then Y after a space, and is not blank |
| JsonConverters.ColorToString | SOURCE/Classes/JsonConverters.cs:130-134 | a named colour is written as its name; an unnamed one as red, green and blue, comma-separated with a space before the last two, and never blank |
| JsonConverters.NewButton | SOURCE/Controls/LauncherButton.cs:55-94 | the parameterless button has an empty caption, grid cell and position (0, 0), no admin flag, the default back colour as background, no hot key, key None and hot-key id -1 |
| JsonConverters.ApplyProperty | SOURCE/Classes/JsonConverters.cs:27-93 | a member that is read changes only persisted fields |
| JsonConverters.ReadProperties | SOURCE/Classes/JsonConverters.cs:18-94 | the member loop ends inside the tokens, at an end of object or the last token, and changes only persisted fields |
| JsonConverters.ReadObject | SOURCE/Classes/JsonConverters.cs:11-96 | a button not starting with `{` throws; a read button differs from the new one only in persisted fields |
| JsonConverters.ReadProperty | SOURCE/Classes/JsonConverters.cs:27-93 | the `switch` updates the button as `ApplyProperty` says, or throws its error |
| JsonConverters.ReadTextProperty | SOURCE/Classes/JsonConverters.cs:28-36 | Caption, Path and Arguments update the button as their specification says |
| JsonConverters.ReadGridLocation | SOURCE/Classes/JsonConverters.cs:37-45 | GridLocation updates the button as its specification says |
| JsonConverters.ReadBackground | SOURCE/Classes/JsonConverters.cs:49-75 | Background updates the button as its specification says |
| JsonConverters.ReadBooleanProperty | SOURCE/Classes/JsonConverters.cs:46-84 | AdminOnly and HasHotKeySet update the button as their specification says |
| JsonConverters.ReadShortProperty | SOURCE/Classes/JsonConverters.cs:76-87 | ReferenceType, TargetBrowser and KeyModifiers update the button as their specification says |
| JsonConverters.ReadKeyTarget | SOURCE/Classes/JsonConverters.cs:88-90 | KeyTarget updates the button as its specification says |
| JsonConverters.ReadButton | SOURCE/Classes/JsonConverters.cs:11-96 | the reader loop builds a fresh button whose state is what `ReadObject` gives from the parameterless constructor's state, or throws its error |
| JsonConverters.States | SOURCE/Classes/JsonConverters.cs:141-157 | the states of a button list, element by element |
| JsonConverters.ReadElements | SOURCE/Classes/JsonConverters.cs:150-156 | the element loop only appends to the buttons already read |
| JsonConverters.ReadArray | SOURCE/Classes/JsonConverters.cs:147-148 | a collection not starting with `[` throws |
| JsonConverters.ReadCollection | SOURCE/Classes/JsonConverters.cs:137-158 | the reader loop builds fresh buttons whose states are what `ReadArray` gives, or throws its error |
| JsonConverters.JsonWriter.constructor | SOURCE/Classes/JsonConverters.cs:97-100 | a new writer holds no tokens |
| JsonConverters.JsonWriter.WriteStartObject | SOURCE/Classes/JsonConverters.cs:104 | appends `{` |
| JsonConverters.JsonWriter.WriteEndObject | SOURCE/Classes/JsonConverters.cs:127 | appends `}` |
| JsonConverters.JsonWriter.WriteStartArray | SOURCE/Classes/JsonConverters.cs:163 | appends `[` |
| JsonConverters.JsonWriter.WriteEndArray | SOURCE/Classes/JsonConverters.cs:167 | appends `]` |
| JsonConverters.JsonWriter.WritePropertyName | SOURCE/Classes/JsonConverters.cs:105 | appends the member name |
| JsonConverters.JsonWriter.WriteStringValue | SOURCE/Classes/JsonConverters.cs:106 | appends the string |
| JsonConverters.JsonWriter.WriteBooleanValue | SOURCE/Classes/JsonConverters.cs:114 | appends true or false |
| JsonConverters.JsonWriter.WriteNumberValue | SOURCE/Classes/JsonConverters.cs:118 | appends the number |
| JsonConverters.JsonWriter.WriteNullValue | SOURCE/Classes/JsonConverters.cs:102 | appends null |
| JsonConverters.MemberTokens | SOURCE/Classes/JsonConverters.cs:105-126 | every member is written as two tokens, a name and a value |
| JsonConverters.MembersShape | SOURCE/Classes/JsonConverters.cs:104-127 | the writer's member list holds the eleven members in source order, each name with its value token |
| JsonConverters.MembersSpelled | SOURCE/Classes/JsonConverters.cs:104-127 | the members are spelled as name and value tokens in source order between `{` and `}` |
| JsonConverters.ButtonTokensSpelled | SOURCE/Classes/JsonConverters.cs:104-127 | a button is written as `{`, the eleven members in source order with their values, and `}` |
| JsonConverters.WriteButton | SOURCE/Classes/JsonConverters.cs:97-129 | writing appends null for no button, otherwise the button's object tokens |
| JsonConverters.ObjectList | SOURCE/Classes/JsonConverters.cs:164-166 | one object per button |
| JsonConverters.WriteCollection | SOURCE/Classes/JsonConverters.cs:159-168 | writing appends `[`, each button's object in order, and `]` |
| JsonConverters.ReadMembers | SOURCE/Classes/JsonConverters.cs:18-94 | reading a run of well-named members applies them in order |
| JsonConverters.UnknownMemberSkipped | SOURCE/Classes/JsonConverters.cs:91-92 | an unknown member name is skipped together with its value |
| JsonConverters.StrayTokenThrows | SOURCE/Classes/JsonConverters.cs:21-22 | a token that is neither `}` nor a member name throws |
| JsonConverters.BlankValues | SOURCE/Classes/JsonConverters.cs:28-52 | null text reads as the empty text, a blank or null grid location as (0, 0), and a blank or null background changes nothing |
| JsonConverters.UndefinedModifiersKept | SOURCE/Classes/JsonConverters.cs:85-87 | an unsigned 16-bit number of 16 or more is stored as the modifiers unchecked, although it is an undefined pattern |
| JsonConverters.WrappedKeyTargetUnreadable | SOURCE/Classes/JsonConverters.cs:88-90 | a `KeyTarget` above Int32 wraps to a negative key, and that key, once written, no longer reads |
| JsonConverters.PointRoundTrip | SOURCE/Classes/JsonConverters.cs:37-45 | a written grid location is not blank and reads back as the same point |
| JsonConverters.ArgbText | SOURCE/Classes/JsonConverters.cs:133 | the text of red, green and blue splits at commas into the three numbers, the last two after a space, and is not blank |
| JsonConverters.ComponentRoundTrip | SOURCE/Classes/JsonConverters.cs:63 | a written byte reads back, with or without a leading space |
| JsonConverters.ColorRoundTrip | SOURCE/Classes/JsonConverters.cs:49-75 | a written colour is not blank and reads back: a named colour by name, an unnamed one as the opaque colour with its red, green and blue |
| JsonConverters.ModifiersNumberRoundTrip | SOURCE/Classes/JsonConverters.cs:86-124 | the `(int)` written for modifiers casts back to the same pattern |
| JsonConverters.TextsApplied | SOURCE/Classes/JsonConverters.cs:28-36 | a written text member reads back into its field |
| JsonConverters.GridLocationApplied | SOURCE/Classes/JsonConverters.cs:37-45 | a written grid location reads back into its field |
| JsonConverters.BooleansApplied | SOURCE/Classes/JsonConverters.cs:46-84 | a written boolean member reads back into its field |
| JsonConverters.BackgroundApplied | SOURCE/Classes/JsonConverters.cs:49-75 | a written background reads back as the reloaded colour |
| JsonConverters.EnumsApplied | SOURCE/Classes/JsonConverters.cs:76-81 | a written type or browser in the 16-bit range reads back |
| JsonConverters.HotKeyApplied | SOURCE/Classes/JsonConverters.cs:85-90 | written modifiers in the 16-bit range and a non-negative key read back |
| JsonConverters.AppliedWritten | SOURCE/Classes/JsonConverters.cs:27-93 | applying the written members in order to any button gives the reloaded button |
| JsonConverters.ReadObjectOfMembers | SOURCE/Classes/JsonConverters.cs:11-96 | an object of well-named members reads as those members applied in order |
| JsonConverters.WriteReadRoundTrip | SOURCE/Classes/JsonConverters.cs:11-129 | a persistable button, written and read back, gives the reloaded button and stops at its `}` |
| JsonConverters.ReloadedAll | SOURCE/Classes/JsonConverters.cs:150-156 | reloading a list reloads each button in place |
| JsonConverters.ReadRuns | SOURCE/Classes/JsonConverters.cs:150-156 | reading consecutive objects up to `]` gives their buttons in order |
| JsonConverters.ObjectReadsBack | SOURCE/Classes/JsonConverters.cs:153 | each written object in a collection reads back as its reloaded button |
| JsonConverters.CollectionRoundTrip | SOURCE/Classes/JsonConverters.cs:137-168 | a collection of persistable buttons, written and read back, gives the list of reloaded buttons, and reading stops at the closing `]` |
| Text.TrimShape | SOURCE/Classes/Input.cs:34 | `Trim` removes white space from both ends only, and gives empty exactly for blank text |
| Text.UpperIdempotent | SOURCE/Classes/Input.cs:407 | upper-casing twice is upper-casing once |
| Text.TrimUpper | SOURCE/Classes/Input.cs:90-91 | trimming and upper-casing commute |
| Text.IndexOf | SOURCE/Classes/Input.cs:88 | `IndexOf` is -1 exactly when the character is absent, otherwise its first position |
| Text.Split | SOURCE/Classes/JsonConverters.cs:42 | `Split` gives at least one part, no part holds the separator, and joining the parts gives the text back |
| Text.SplitJoin | SOURCE/Classes/JsonConverters.cs:53 | splitting parts joined by a separator they do not hold gives the parts back |
| Text.FormatParseRoundTrip | SOURCE/Classes/JsonConverters.cs:43 | `int.Parse` of a written Int32 gives it back |

## Left out

- User interface: painting, colours chosen for contrast (`SetForeColor`, `ColorCheck`), the
  reflection indexer and the form code. They only draw.
- Native calls: `RegisterHotKey`, `UnregisterHotKey` and the message window are not modelled
  as code. Whether registration succeeds is a parameter, and what the window holds is a map.
  The `KeyPressed` event is the value `WndProc` returns.
- KeyboardHook.KeyboardHook.RegisterHotKey: the id counter is an unbounded integer, so 32-bit
  wrap-around after 2^31 registrations is not modelled.
- KeyboardHook.KeyboardHook.Dispose: registering after `Dispose`, on the destroyed window, is
  not modelled; the model only records that the window is closed.
- File system and URIs: `File.GetAttributes`, `FileInfo`, `Uri.IsWellFormedUriString`,
  `new Uri` and `Uri.TryCreate` are the fields of an `Env` value. The model does not decide
  what they answer.
- Controls.TypeOfPath: `Path.StartsWith("http")` is modelled as an ordinal prefix test. The
  current culture's comparison rules, which .NET applies to this overload, are not modelled.
- Controls.TypeOfPath: the outer `catch` of `DetermineType` is not modelled, because the
  probes it guards are all inside the inner `try`.
- Controls.Constructed: the parameterless constructor is modelled as the main constructor
  with its defaults, which is what it calls.
- `InitializeComponent`, the `Location` the form assigns, and `HotKeyId` bookkeeping outside
  these files are not modelled.
- PowerShellArguments.ExtractPSPathFromArgument: arguments holding line breaks are not
  modelled, because `.` in the source's patterns does not cross them; the model treats `.`
  as any character.
- KeyConverter.EnumParse: comma-separated lists of names, which `Enum.Parse` also accepts,
  are treated as unknown names.
- KeyConverter.EnumName: when a value has several names, the model writes the first declared
  one; .NET leaves the choice unspecified. Every name of the value reads back to it.
- Text.Upper: only ASCII letters are upper-cased. The invariant culture upper-cases every
  cased letter, including `ı` to `I` and `ſ` to `S`, so a token such as `ſhift` or `ınsert`,
  which .NET reads as Shift or Insert, is rejected by the model.
- Culture: `int.Parse` accepts only an optional sign and ASCII digits, with no thousands
  separators or culture-specific signs.
- JSON: the reader's own well-formedness checks are not modelled. The tokens are given as a
  sequence, values are flat (no nested arrays or objects as member values), and numbers are
  integers.
- JsonConverters.ReadButton: the serializer's check that a converter consumed exactly one
  value is not modelled.
- JsonConverters.ParseColor: `Color.FromName` is modelled as a colour that carries its name;
  canonical names and known-colour lookup are not modelled.
- JsonConverters.ReadCollection: the caller's options are taken to hold the button
  converter, since the options the source builds are never used. The `ButtonCollection` is
  a sequence of buttons.
- JsonConverters.WriteCollection: the collection holds non-null buttons, so the null branch
  of the button writer is not reached from it.
