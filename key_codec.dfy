/** The launcher's own copy of the WPF `Key` enumeration and its `KeyConverter`, which turns
    keys into the names written in configuration files and back. */
module KeyConverter {
  import opened Wrappers
  import opened Text

  /** `enum Key : int`: the named values run from None (0) to DeadCharProcessed (172); several
      names share one value (Enter and Return are both 6). Any other int is still a Key value,
      as a C# cast from int allows. */
  newtype Key = int {
    static const None: DeclaredKey := 0
    static const Cancel: DeclaredKey := 1
    static const Back: DeclaredKey := 2
    static const Tab: DeclaredKey := 3
    static const LineFeed: DeclaredKey := 4
    static const Clear: DeclaredKey := 5
    static const Enter: DeclaredKey := 6
    static const Return: DeclaredKey := 6
    static const Pause: DeclaredKey := 7
    static const Capital: DeclaredKey := 8
    static const CapsLock: DeclaredKey := 8
    static const HangulMode: DeclaredKey := 9
    static const KanaMode: DeclaredKey := 9
    static const JunjaMode: DeclaredKey := 10
    static const FinalMode: DeclaredKey := 11
    static const HanjaMode: DeclaredKey := 12
    static const KanjiMode: DeclaredKey := 12
    static const Escape: DeclaredKey := 13
    static const ImeConvert: DeclaredKey := 14
    static const ImeNonConvert: DeclaredKey := 15
    static const ImeAccept: DeclaredKey := 16
    static const ImeModeChange: DeclaredKey := 17
    static const Space: DeclaredKey := 18
    static const PageUp: DeclaredKey := 19
    static const Prior: DeclaredKey := 19
    static const Next: DeclaredKey := 20
    static const PageDown: DeclaredKey := 20
    static const End: DeclaredKey := 21
    static const Home: DeclaredKey := 22
    static const Left: DeclaredKey := 23
    static const Up: DeclaredKey := 24
    static const Right: DeclaredKey := 25
    static const Down: DeclaredKey := 26
    static const Select: DeclaredKey := 27
    static const Print: DeclaredKey := 28
    static const Execute: DeclaredKey := 29
    static const PrintScreen: DeclaredKey := 30
    static const Snapshot: DeclaredKey := 30
    static const Insert: DeclaredKey := 31
    static const Delete: DeclaredKey := 32
    static const Help: DeclaredKey := 33
    static const D0: DeclaredKey := 34
    static const D1: DeclaredKey := 35
    static const D2: DeclaredKey := 36
    static const D3: DeclaredKey := 37
    static const D4: DeclaredKey := 38
    static const D5: DeclaredKey := 39
    static const D6: DeclaredKey := 40
    static const D7: DeclaredKey := 41
    static const D8: DeclaredKey := 42
    static const D9: DeclaredKey := 43
    static const A: DeclaredKey := 44
    static const B: DeclaredKey := 45
    static const C: DeclaredKey := 46
    static const D: DeclaredKey := 47
    static const E: DeclaredKey := 48
    static const F: DeclaredKey := 49
    static const G: DeclaredKey := 50
    static const H: DeclaredKey := 51
    static const I: DeclaredKey := 52
    static const J: DeclaredKey := 53
    static const K: DeclaredKey := 54
    static const L: DeclaredKey := 55
    static const M: DeclaredKey := 56
    static const N: DeclaredKey := 57
    static const O: DeclaredKey := 58
    static const P: DeclaredKey := 59
    static const Q: DeclaredKey := 60
    static const R: DeclaredKey := 61
    static const S: DeclaredKey := 62
    static const T: DeclaredKey := 63
    static const U: DeclaredKey := 64
    static const V: DeclaredKey := 65
    static const W: DeclaredKey := 66
    static const X: DeclaredKey := 67
    static const Y: DeclaredKey := 68
    static const Z: DeclaredKey := 69
    static const LWin: DeclaredKey := 70
    static const RWin: DeclaredKey := 71
    static const Apps: DeclaredKey := 72
    static const Sleep: DeclaredKey := 73
    static const NumPad0: DeclaredKey := 74
    static const NumPad1: DeclaredKey := 75
    static const NumPad2: DeclaredKey := 76
    static const NumPad3: DeclaredKey := 77
    static const NumPad4: DeclaredKey := 78
    static const NumPad5: DeclaredKey := 79
    static const NumPad6: DeclaredKey := 80
    static const NumPad7: DeclaredKey := 81
    static const NumPad8: DeclaredKey := 82
    static const NumPad9: DeclaredKey := 83
    static const Multiply: DeclaredKey := 84
    static const Add: DeclaredKey := 85
    static const Separator: DeclaredKey := 86
    static const Subtract: DeclaredKey := 87
    static const Decimal: DeclaredKey := 88
    static const Divide: DeclaredKey := 89
    static const F1: DeclaredKey := 90
    static const F2: DeclaredKey := 91
    static const F3: DeclaredKey := 92
    static const F4: DeclaredKey := 93
    static const F5: DeclaredKey := 94
    static const F6: DeclaredKey := 95
    static const F7: DeclaredKey := 96
    static const F8: DeclaredKey := 97
    static const F9: DeclaredKey := 98
    static const F10: DeclaredKey := 99
    static const F11: DeclaredKey := 100
    static const F12: DeclaredKey := 101
    static const F13: DeclaredKey := 102
    static const F14: DeclaredKey := 103
    static const F15: DeclaredKey := 104
    static const F16: DeclaredKey := 105
    static const F17: DeclaredKey := 106
    static const F18: DeclaredKey := 107
    static const F19: DeclaredKey := 108
    static const F20: DeclaredKey := 109
    static const F21: DeclaredKey := 110
    static const F22: DeclaredKey := 111
    static const F23: DeclaredKey := 112
    static const F24: DeclaredKey := 113
    static const NumLock: DeclaredKey := 114
    static const Scroll: DeclaredKey := 115
    static const LeftShift: DeclaredKey := 116
    static const RightShift: DeclaredKey := 117
    static const LeftCtrl: DeclaredKey := 118
    static const RightCtrl: DeclaredKey := 119
    static const LeftAlt: DeclaredKey := 120
    static const RightAlt: DeclaredKey := 121
    static const BrowserBack: DeclaredKey := 122
    static const BrowserForward: DeclaredKey := 123
    static const BrowserRefresh: DeclaredKey := 124
    static const BrowserStop: DeclaredKey := 125
    static const BrowserSearch: DeclaredKey := 126
    static const BrowserFavorites: DeclaredKey := 127
    static const BrowserHome: DeclaredKey := 128
    static const VolumeMute: DeclaredKey := 129
    static const VolumeDown: DeclaredKey := 130
    static const VolumeUp: DeclaredKey := 131
    static const MediaNextTrack: DeclaredKey := 132
    static const MediaPreviousTrack: DeclaredKey := 133
    static const MediaStop: DeclaredKey := 134
    static const MediaPlayPause: DeclaredKey := 135
    static const LaunchMail: DeclaredKey := 136
    static const SelectMedia: DeclaredKey := 137
    static const LaunchApplication1: DeclaredKey := 138
    static const LaunchApplication2: DeclaredKey := 139
    static const Oem1: DeclaredKey := 140
    static const OemSemicolon: DeclaredKey := 140
    static const OemPlus: DeclaredKey := 141
    static const OemComma: DeclaredKey := 142
    static const OemMinus: DeclaredKey := 143
    static const OemPeriod: DeclaredKey := 144
    static const Oem2: DeclaredKey := 145
    static const OemQuestion: DeclaredKey := 145
    static const Oem3: DeclaredKey := 146
    static const OemTilde: DeclaredKey := 146
    static const AbntC1: DeclaredKey := 147
    static const AbntC2: DeclaredKey := 148
    static const Oem4: DeclaredKey := 149
    static const OemOpenBrackets: DeclaredKey := 149
    static const Oem5: DeclaredKey := 150
    static const OemPipe: DeclaredKey := 150
    static const Oem6: DeclaredKey := 151
    static const OemCloseBrackets: DeclaredKey := 151
    static const Oem7: DeclaredKey := 152
    static const OemQuotes: DeclaredKey := 152
    static const Oem8: DeclaredKey := 153
    static const Oem102: DeclaredKey := 154
    static const OemBackslash: DeclaredKey := 154
    static const ImeProcessed: DeclaredKey := 155
    static const System: DeclaredKey := 156
    static const DbeAlphanumeric: DeclaredKey := 157
    static const OemAttn: DeclaredKey := 157
    static const DbeKatakana: DeclaredKey := 158
    static const OemFinish: DeclaredKey := 158
    static const DbeHiragana: DeclaredKey := 159
    static const OemCopy: DeclaredKey := 159
    static const DbeSbcsChar: DeclaredKey := 160
    static const OemAuto: DeclaredKey := 160
    static const DbeDbcsChar: DeclaredKey := 161
    static const OemEnlw: DeclaredKey := 161
    static const DbeRoman: DeclaredKey := 162
    static const OemBackTab: DeclaredKey := 162
    static const Attn: DeclaredKey := 163
    static const DbeNoRoman: DeclaredKey := 163
    static const CrSel: DeclaredKey := 164
    static const DbeEnterWordRegisterMode: DeclaredKey := 164
    static const DbeEnterImeConfigureMode: DeclaredKey := 165
    static const ExSel: DeclaredKey := 165
    static const DbeFlushString: DeclaredKey := 166
    static const EraseEof: DeclaredKey := 166
    static const DbeCodeInput: DeclaredKey := 167
    static const Play: DeclaredKey := 167
    static const DbeNoCodeInput: DeclaredKey := 168
    static const Zoom: DeclaredKey := 168
    static const DbeDetermineString: DeclaredKey := 169
    static const NoName: DeclaredKey := 169
    static const DbeEnterDialogConversionMode: DeclaredKey := 170
    static const Pa1: DeclaredKey := 170
    static const OemClear: DeclaredKey := 171
    static const DeadCharProcessed: DeclaredKey := 172
  }

  /** The named values of the enumeration. */
  predicate IsDeclared(k: Key) {
    0 <= k <= 172
  }

  /** A value in the named range. */
  type DeclaredKey = k: Key | IsDeclared(k)

  /** An enumeration name or a switch spelling: it starts with an upper-case ASCII letter. */
  type Spelling = s: string | |s| > 0 && 'A' <= s[0] <= 'Z' witness "A"

  /** The names the enumeration declares for a named value, in declaration order: the first
      one and any later aliases. The table is kept in blocks of twenty values, so that
      looking one value up unfolds a single block. */
  function NamesOf(v: DeclaredKey): (string, seq<string>) {
    if v < 20 then NamesFrom0(v)
    else if v < 40 then NamesFrom20(v)
    else if v < 60 then NamesFrom40(v)
    else if v < 80 then NamesFrom60(v)
    else if v < 100 then NamesFrom80(v)
    else if v < 120 then NamesFrom100(v)
    else if v < 140 then NamesFrom120(v)
    else if v < 160 then NamesFrom140(v)
    else NamesFrom160(v)
  }

  function NamesFrom0(v: DeclaredKey): (string, seq<string>)
    requires v < 20
  {
    match v
    case 0 => ("None", [])
    case 1 => ("Cancel", [])
    case 2 => ("Back", [])
    case 3 => ("Tab", [])
    case 4 => ("LineFeed", [])
    case 5 => ("Clear", [])
    case 6 => ("Enter", ["Return"])
    case 7 => ("Pause", [])
    case 8 => ("Capital", ["CapsLock"])
    case 9 => ("HangulMode", ["KanaMode"])
    case 10 => ("JunjaMode", [])
    case 11 => ("FinalMode", [])
    case 12 => ("HanjaMode", ["KanjiMode"])
    case 13 => ("Escape", [])
    case 14 => ("ImeConvert", [])
    case 15 => ("ImeNonConvert", [])
    case 16 => ("ImeAccept", [])
    case 17 => ("ImeModeChange", [])
    case 18 => ("Space", [])
    case _ => ("PageUp", ["Prior"])
  }

  function NamesFrom20(v: DeclaredKey): (string, seq<string>)
    requires 20 <= v < 40
  {
    match v
    case 20 => ("Next", ["PageDown"])
    case 21 => ("End", [])
    case 22 => ("Home", [])
    case 23 => ("Left", [])
    case 24 => ("Up", [])
    case 25 => ("Right", [])
    case 26 => ("Down", [])
    case 27 => ("Select", [])
    case 28 => ("Print", [])
    case 29 => ("Execute", [])
    case 30 => ("PrintScreen", ["Snapshot"])
    case 31 => ("Insert", [])
    case 32 => ("Delete", [])
    case 33 => ("Help", [])
    case 34 => ("D0", [])
    case 35 => ("D1", [])
    case 36 => ("D2", [])
    case 37 => ("D3", [])
    case 38 => ("D4", [])
    case _ => ("D5", [])
  }

  function NamesFrom40(v: DeclaredKey): (string, seq<string>)
    requires 40 <= v < 60
  {
    match v
    case 40 => ("D6", [])
    case 41 => ("D7", [])
    case 42 => ("D8", [])
    case 43 => ("D9", [])
    case 44 => ("A", [])
    case 45 => ("B", [])
    case 46 => ("C", [])
    case 47 => ("D", [])
    case 48 => ("E", [])
    case 49 => ("F", [])
    case 50 => ("G", [])
    case 51 => ("H", [])
    case 52 => ("I", [])
    case 53 => ("J", [])
    case 54 => ("K", [])
    case 55 => ("L", [])
    case 56 => ("M", [])
    case 57 => ("N", [])
    case 58 => ("O", [])
    case _ => ("P", [])
  }

  function NamesFrom60(v: DeclaredKey): (string, seq<string>)
    requires 60 <= v < 80
  {
    match v
    case 60 => ("Q", [])
    case 61 => ("R", [])
    case 62 => ("S", [])
    case 63 => ("T", [])
    case 64 => ("U", [])
    case 65 => ("V", [])
    case 66 => ("W", [])
    case 67 => ("X", [])
    case 68 => ("Y", [])
    case 69 => ("Z", [])
    case 70 => ("LWin", [])
    case 71 => ("RWin", [])
    case 72 => ("Apps", [])
    case 73 => ("Sleep", [])
    case 74 => ("NumPad0", [])
    case 75 => ("NumPad1", [])
    case 76 => ("NumPad2", [])
    case 77 => ("NumPad3", [])
    case 78 => ("NumPad4", [])
    case _ => ("NumPad5", [])
  }

  function NamesFrom80(v: DeclaredKey): (string, seq<string>)
    requires 80 <= v < 100
  {
    match v
    case 80 => ("NumPad6", [])
    case 81 => ("NumPad7", [])
    case 82 => ("NumPad8", [])
    case 83 => ("NumPad9", [])
    case 84 => ("Multiply", [])
    case 85 => ("Add", [])
    case 86 => ("Separator", [])
    case 87 => ("Subtract", [])
    case 88 => ("Decimal", [])
    case 89 => ("Divide", [])
    case 90 => ("F1", [])
    case 91 => ("F2", [])
    case 92 => ("F3", [])
    case 93 => ("F4", [])
    case 94 => ("F5", [])
    case 95 => ("F6", [])
    case 96 => ("F7", [])
    case 97 => ("F8", [])
    case 98 => ("F9", [])
    case _ => ("F10", [])
  }

  function NamesFrom100(v: DeclaredKey): (string, seq<string>)
    requires 100 <= v < 120
  {
    match v
    case 100 => ("F11", [])
    case 101 => ("F12", [])
    case 102 => ("F13", [])
    case 103 => ("F14", [])
    case 104 => ("F15", [])
    case 105 => ("F16", [])
    case 106 => ("F17", [])
    case 107 => ("F18", [])
    case 108 => ("F19", [])
    case 109 => ("F20", [])
    case 110 => ("F21", [])
    case 111 => ("F22", [])
    case 112 => ("F23", [])
    case 113 => ("F24", [])
    case 114 => ("NumLock", [])
    case 115 => ("Scroll", [])
    case 116 => ("LeftShift", [])
    case 117 => ("RightShift", [])
    case 118 => ("LeftCtrl", [])
    case _ => ("RightCtrl", [])
  }

  function NamesFrom120(v: DeclaredKey): (string, seq<string>)
    requires 120 <= v < 140
  {
    match v
    case 120 => ("LeftAlt", [])
    case 121 => ("RightAlt", [])
    case 122 => ("BrowserBack", [])
    case 123 => ("BrowserForward", [])
    case 124 => ("BrowserRefresh", [])
    case 125 => ("BrowserStop", [])
    case 126 => ("BrowserSearch", [])
    case 127 => ("BrowserFavorites", [])
    case 128 => ("BrowserHome", [])
    case 129 => ("VolumeMute", [])
    case 130 => ("VolumeDown", [])
    case 131 => ("VolumeUp", [])
    case 132 => ("MediaNextTrack", [])
    case 133 => ("MediaPreviousTrack", [])
    case 134 => ("MediaStop", [])
    case 135 => ("MediaPlayPause", [])
    case 136 => ("LaunchMail", [])
    case 137 => ("SelectMedia", [])
    case 138 => ("LaunchApplication1", [])
    case _ => ("LaunchApplication2", [])
  }

  function NamesFrom140(v: DeclaredKey): (string, seq<string>)
    requires 140 <= v < 160
  {
    match v
    case 140 => ("Oem1", ["OemSemicolon"])
    case 141 => ("OemPlus", [])
    case 142 => ("OemComma", [])
    case 143 => ("OemMinus", [])
    case 144 => ("OemPeriod", [])
    case 145 => ("Oem2", ["OemQuestion"])
    case 146 => ("Oem3", ["OemTilde"])
    case 147 => ("AbntC1", [])
    case 148 => ("AbntC2", [])
    case 149 => ("Oem4", ["OemOpenBrackets"])
    case 150 => ("Oem5", ["OemPipe"])
    case 151 => ("Oem6", ["OemCloseBrackets"])
    case 152 => ("Oem7", ["OemQuotes"])
    case 153 => ("Oem8", [])
    case 154 => ("Oem102", ["OemBackslash"])
    case 155 => ("ImeProcessed", [])
    case 156 => ("System", [])
    case 157 => ("DbeAlphanumeric", ["OemAttn"])
    case 158 => ("DbeKatakana", ["OemFinish"])
    case _ => ("DbeHiragana", ["OemCopy"])
  }

  function NamesFrom160(v: DeclaredKey): (string, seq<string>)
    requires 160 <= v
  {
    match v
    case 160 => ("DbeSbcsChar", ["OemAuto"])
    case 161 => ("DbeDbcsChar", ["OemEnlw"])
    case 162 => ("DbeRoman", ["OemBackTab"])
    case 163 => ("Attn", ["DbeNoRoman"])
    case 164 => ("CrSel", ["DbeEnterWordRegisterMode"])
    case 165 => ("DbeEnterImeConfigureMode", ["ExSel"])
    case 166 => ("DbeFlushString", ["EraseEof"])
    case 167 => ("DbeCodeInput", ["Play"])
    case 168 => ("DbeNoCodeInput", ["Zoom"])
    case 169 => ("DbeDetermineString", ["NoName"])
    case 170 => ("DbeEnterDialogConversionMode", ["Pa1"])
    case 171 => ("OemClear", [])
    case _ => ("DeadCharProcessed", [])
  }

  /** `Key.ToString()` for a named value: its first declared name. An unnamed value has no
      name here (the source never asks for one, see MatchKey). */
  function EnumName(k: Key): (name: Option<string>)
    ensures name.Some? <==> IsDeclared(k)
  {
    if IsDeclared(k) then Some(NamesOf(k).0) else None
  }

  /** All the names of a named value. */
  function AllNames(v: DeclaredKey): seq<string> {
    [NamesOf(v).0] + NamesOf(v).1
  }

  /** Whether one of `names` equals `token` ignoring case. */
  predicate AnyNameMatches(names: seq<string>, token: string) {
    |names| > 0 && (EqualsIgnoreCase(names[0], token) || AnyNameMatches(names[1..], token))
  }

  /** Whether one of the names of `v` equals `token` ignoring case. */
  predicate NamedAs(v: DeclaredKey, token: string) {
    AnyNameMatches(AllNames(v), token)
  }

  /** The first named value, from `v` on, that satisfies `p`. */
  function FirstFrom(p: DeclaredKey -> bool, v: nat): Option<DeclaredKey>
    decreases 173 - v
  {
    if v > 172 then None
    else if p(v as Key) then Some(v as Key)
    else FirstFrom(p, v + 1)
  }

  /** The search succeeds with the first value, from `v` on, that satisfies `p`, and fails
      only when none does. */
  lemma {:induction false} FirstFromSpec(p: DeclaredKey -> bool, v: nat)
    ensures FirstFrom(p, v).Some? ==>
      v <= FirstFrom(p, v).value as int && p(FirstFrom(p, v).value)
      && forall u: DeclaredKey :: v <= u as int < FirstFrom(p, v).value as int ==> !p(u)
    ensures FirstFrom(p, v).None? ==> forall u: DeclaredKey :: v <= u as int ==> !p(u)
    decreases 173 - v
  {
    if v <= 172 && !p(v as Key) {
      FirstFromSpec(p, v + 1);
      forall u: DeclaredKey | v <= u as int && (FirstFrom(p, v).None? || u as int < FirstFrom(p, v).value as int)
        ensures !p(u)
      {
        if u as int > v {
        }
      }
    }
  }

  /** The value `Enum.Parse` finds for a token by name: the first value with a name equal to
      the token ignoring case. The declaration lists the values in increasing order, so this
      is the value of the first declared name that matches. */
  function FindName(token: string): Option<DeclaredKey> {
    FirstFrom((v: DeclaredKey) => NamedAs(v, token), 0)
  }

  /** What the converter may throw: an ArgumentException for a token no branch accepts, an
      OverflowException for a number outside Int32, a NotSupportedException for a token that
      names no key or a key with no text. */
  datatype KeyError =
    | ArgumentError(token: string)
    | Overflow(token: string)
    | UnsupportedKey(token: string)
    | NotConvertible(key: Key)

  /** `KeyConverter.CanConvertTo(string)` for a context instance: only the named range. */
  predicate CanConvertTo(instance: Option<Key>): (b: bool)
    ensures b <==> instance.Some? && 0 <= instance.value <= 172
  {
    instance.Some? && IsDeclared(instance.value)
  }

  /** `MatchKey`: the text of a key that is not a digit or a letter. Three keys have spellings
      of their own; the rest of the named range uses the enumeration name; other values have
      none. */
  function MatchKey(k: Key): (text: Option<string>)
    ensures text.Some? <==> IsDeclared(k)
    ensures k == Key.Back ==> text == Some("Backspace")
    ensures k == Key.LineFeed ==> text == Some("Clear")
    ensures k == Key.Escape ==> text == Some("Esc")
    ensures IsDeclared(k) && k !in {Key.None, Key.Back, Key.LineFeed, Key.Escape} ==> text == EnumName(k)
  {
    if k == Key.None then Some("")
    else if k == Key.Back then Some("Backspace")
    else if k == Key.LineFeed then Some("Clear")
    else if k == Key.Escape then Some("Esc")
    else if IsDeclared(k) then EnumName(k)
    else None
  }

  predicate IsDigitKey(k: Key) {
    Key.D0 <= k <= Key.D9
  }

  predicate IsLetterKey(k: Key) {
    Key.A <= k <= Key.Z
  }

  /** `KeyConverter.ConvertTo(string)`: None is the empty text, D0 to D9 and A to Z are their
      single characters, the rest goes through MatchKey, and a key without text throws. */
  function ConvertTo(k: Key): (r: Result<string, KeyError>)
    ensures r.Failure? <==> !IsDeclared(k)
    ensures r.Failure? ==> r.error == NotConvertible(k)
    ensures k == Key.None ==> r == Success("")
    ensures IsDeclared(k) && !IsDigitKey(k) && !IsLetterKey(k) && k !in {Key.None, Key.Back, Key.LineFeed, Key.Escape}
      ==> r == Success(EnumName(k).value)
  {
    if k == Key.None then Success("")
    else if IsDigitKey(k) then Success([('0' as int + (k - Key.D0) as int) as char])
    else if IsLetterKey(k) then Success([('A' as int + (k - Key.A) as int) as char])
    else
      match MatchKey(k)
      case Some(text) => Success(text)
      case None => Failure(NotConvertible(k))
  }

  /** Spellings of the navigation and editing keys. */
  const NavigationSpellings: seq<(Spelling, DeclaredKey)> := [
    ("ENTER", Key.Return),
    ("ESC", Key.Escape),
    ("PGUP", Key.PageUp),
    ("PGDN", Key.PageDown),
    ("PRTSC", Key.PrintScreen),
    ("INS", Key.Insert),
    ("DEL", Key.Delete)
  ]

  /** Spellings of the Windows and application keys. */
  const SystemSpellings: seq<(Spelling, DeclaredKey)> := [
    ("WINDOWS", Key.LWin),
    ("WIN", Key.LWin),
    ("LEFTWINDOWS", Key.LWin),
    ("RIGHTWINDOWS", Key.RWin),
    ("APPS", Key.Apps),
    ("APPLICATION", Key.Apps)
  ]

  /** Spellings of Break and Backspace. */
  const BackSpellings: seq<(Spelling, DeclaredKey)> := [
    ("BREAK", Key.Cancel),
    ("BACKSPACE", Key.Back),
    ("BKSP", Key.Back),
    ("BS", Key.Back)
  ]

  /** Spellings of the left and right modifier keys. */
  const ModifierSpellings: seq<(Spelling, DeclaredKey)> := [
    ("SHIFT", Key.LeftShift),
    ("LEFTSHIFT", Key.LeftShift),
    ("RIGHTSHIFT", Key.RightShift),
    ("CONTROL", Key.LeftCtrl),
    ("CTRL", Key.LeftCtrl),
    ("LEFTCTRL", Key.LeftCtrl),
    ("RIGHTCTRL", Key.RightCtrl),
    ("ALT", Key.LeftAlt),
    ("LEFTALT", Key.LeftAlt),
    ("RIGHTALT", Key.RightAlt)
  ]

  /** Spellings of the OEM punctuation keys. */
  const PunctuationSpellings: seq<(Spelling, DeclaredKey)> := [
    ("SEMICOLON", Key.OemSemicolon),
    ("PLUS", Key.OemPlus),
    ("COMMA", Key.OemComma),
    ("MINUS", Key.OemMinus),
    ("PERIOD", Key.OemPeriod),
    ("QUESTION", Key.OemQuestion),
    ("TILDE", Key.OemTilde),
    ("OPENBRACKETS", Key.OemOpenBrackets),
    ("PIPE", Key.OemPipe),
    ("CLOSEBRACKETS", Key.OemCloseBrackets),
    ("QUOTES", Key.OemQuotes),
    ("BACKSLASH", Key.OemBackslash)
  ]

  /** Spellings of the terminal and media keys. */
  const TerminalSpellings: seq<(Spelling, DeclaredKey)> := [
    ("FINISH", Key.OemFinish),
    ("ATTN", Key.Attn),
    ("CRSEL", Key.CrSel),
    ("EXSEL", Key.ExSel),
    ("ERASEEOF", Key.EraseEof),
    ("PLAY", Key.Play),
    ("ZOOM", Key.Zoom),
    ("PA1", Key.Pa1)
  ]

  /** The cases of GetKey's `switch`, in source order: upper-cased spellings and the keys
      they stand for. */
  const Shortcuts: seq<(Spelling, DeclaredKey)> :=
    NavigationSpellings + SystemSpellings + BackSpellings + ModifierSpellings + PunctuationSpellings + TerminalSpellings

  /** Whether `Enum.Parse` reads the token as a number: an optional sign and decimal digits. */
  predicate IsNumeric(token: string) {
    var digits := if |token| > 0 && (token[0] == '-' || token[0] == '+') then token[1..] else token;
    |digits| > 0 && AllDigits(digits)
  }

  /** `Enum.Parse(typeof(Key), token, ignoreCase: true)` on a trimmed token: a number in the
      Int32 range is taken as the value whatever it is, a longer number overflows, and anything
      else must equal one of the declared names ignoring case. */
  function EnumParse(token: string): (r: Result<Key, KeyError>)
    ensures r.Success? && !IsNumeric(token) ==> IsDeclared(r.value)
  {
    if IsNumeric(token) then
      match ParseInt32(token)
      case Some(v) => Success(v as Key)
      case None => Failure(Overflow(token))
    else
      match FindName(token)
      case Some(k) => Success(k)
      case None => Failure(ArgumentError(token))
  }

  /** GetKey on a one-character upper-cased token: an ASCII digit or letter is its key; any
      other character throws (as a letter or digit the source rejects outright, as anything
      else `Enum.Parse` finds no name for it). */
  function SingleCharKey(c: char): Result<Option<Key>, KeyError> {
    if IsDigit(c) then Success(Some(Key.D0 + (c as int - '0' as int) as Key))
    else if 'A' <= c <= 'Z' then Success(Some(Key.A + (c as int - 'A' as int) as Key))
    else Failure(ArgumentError([c]))
  }

  /** GetKey's `switch` on a longer upper-cased token: a spelling of the switch, else
      `Enum.Parse`; the value -1 stands for no key (`null`). */
  function SwitchKey(token: string): (r: Result<Option<Key>, KeyError>)
    ensures r.Success? && (r.value.None? || !IsDeclared(r.value.value)) ==> IsNumeric(token)
    ensures r.Failure? ==> (r.error == Overflow(token) && IsNumeric(token)) || (r.error == ArgumentError(token) && !IsNumeric(token))
  {
    match Lookup(Shortcuts, token, false)
    case Some(k) => Success(Some(k))
    case None =>
      match EnumParse(token)
      case Failure(e) => Failure(e)
      case Success(k) => if k == -1 then Success(None) else Success(Some(k))
  }

  /** `GetKey` on a trimmed token: the empty token is None; otherwise the token is
      upper-cased and read as one character or through the switch. */
  function GetKey(keyToken: string): (r: Result<Option<Key>, KeyError>)
    ensures keyToken == "" ==> r == Success(Some(Key.None))
    ensures r.Success? && (r.value.None? || !IsDeclared(r.value.value)) ==> IsNumeric(Upper(keyToken))
    ensures r.Failure? ==> r.error == Overflow(Upper(keyToken)) || r.error == ArgumentError(Upper(keyToken))
  {
    if keyToken == "" then Success(Some(Key.None))
    else
      var token := Upper(keyToken);
      if |token| == 1 then
        assert token == [token[0]];
        SingleCharKey(token[0])
      else SwitchKey(token)
  }

  /** `KeyConverter.ConvertFrom(string)`: trims the text, then GetKey; no key throws. */
  function ConvertFrom(source: string): (r: Result<Key, KeyError>)
    ensures Trim(source) == "" ==> r == Success(Key.None)
    ensures r.Success? && !IsDeclared(r.value) ==> IsNumeric(Upper(Trim(source)))
    ensures r.Failure? ==> r.error == UnsupportedKey(Trim(source)) || r.error == Overflow(Upper(Trim(source))) || r.error == ArgumentError(Upper(Trim(source)))
    ensures r.Failure? && r.error.UnsupportedKey? ==> IsNumeric(Upper(Trim(source)))
  {
    var fullName := Trim(source);
    match GetKey(fullName)
    case Failure(e) => Failure(e)
    case Success(None) => Failure(UnsupportedKey(fullName))
    case Success(Some(k)) => Success(k)
  }

  // ---------------------------------------------------------------------------------------
  // Properties

  /** Digit keys are written as their digit and read back from it. */
  lemma DigitKeyRoundTrip(k: Key)
    requires IsDigitKey(k)
    ensures ConvertTo(k) == Success([DigitChar((k - Key.D0) as nat)])
    ensures ConvertFrom(ConvertTo(k).value) == Success(k)
  {
    var t := ConvertTo(k).value;
    TrimNoEdge(t);
    UpperNoLower(t);
  }

  /** Letter keys are written as their capital letter and read back from it, and from the
      small letter too. */
  lemma LetterKeyRoundTrip(k: Key)
    requires IsLetterKey(k)
    ensures ConvertTo(k) == Success([('A' as int + (k - Key.A) as int) as char])
    ensures ConvertFrom(ConvertTo(k).value) == Success(k)
    ensures ConvertFrom([('a' as int + (k - Key.A) as int) as char]) == Success(k)
  {
    var t := ConvertTo(k).value;
    TrimNoEdge(t);
    UpperNoLower(t);
    var small := [('a' as int + (k - Key.A) as int) as char];
    TrimNoEdge(small);
  }

  /** Blank text is the key None, and None is written as the empty text. */
  lemma BlankIsNone(s: string)
    requires AllWhiteSpace(s)
    ensures ConvertFrom(s) == Success(Key.None)
    ensures ConvertTo(Key.None) == Success("")
  {
    TrimShape(s);
  }

  /** GetKey upper-cases the token before looking at it, so its case does not matter. */
  lemma GetKeyIgnoresCase(keyToken: string)
    ensures GetKey(Upper(keyToken)) == GetKey(keyToken)
  {
    UpperIdempotent(keyToken);
  }

  /** The key read from a text does not depend on the case of the text; only the message of
      the NotSupportedException, which quotes the text, does. */
  lemma ConvertFromIgnoresCase(s: string)
    ensures ConvertFrom(s).Success? ==> ConvertFrom(Upper(s)) == ConvertFrom(s)
    ensures ConvertFrom(s).Failure? <==> ConvertFrom(Upper(s)).Failure?
  {
    TrimUpper(s);
    GetKeyIgnoresCase(Trim(s));
  }

  /** No switch spelling starts with anything but a letter. */
  lemma NotAShortcut(token: string)
    requires |token| > 0 && !('A' <= token[0] <= 'Z')
    ensures Lookup(Shortcuts, token, false).None?
  {
    LookupFirst(Shortcuts, token, false);
  }

  /** A key outside the named range is read only from a number. */
  lemma UndeclaredOnlyFromNumbers(s: string)
    requires ConvertFrom(s).Success? && !IsDeclared(ConvertFrom(s).value)
    ensures IsNumeric(Upper(Trim(s)))
  {
  }

  /** A number of two or more characters is read as the key with that value, named or not,
      except -1, which the converter reserves for "no key". */
  lemma NumberIsRawValue(n: int)
    requires IsInt32(n) && n != -1 && |FormatInt(n)| >= 2
    ensures ConvertFrom(FormatInt(n)) == Success(n as Key)
  {
    var t := FormatInt(n);
    TrimNoEdge(t);
    NumberShape(n);
    UpperNoLower(t);
    NotAShortcut(t);
    FormatParseRoundTrip(n);
  }

  /** A single digit is the digit key instead: "5" is D5, while "05" is the value 5 (Clear). */
  lemma DigitIsDigitKey(d: nat)
    requires d < 10
    ensures ConvertFrom(FormatInt(d)) == Success(Key.D0 + d as Key)
  {
    var t := FormatInt(d);
    assert t == [DigitChar(d)];
    TrimNoEdge(t);
  }

  /** "-1" names no key: the converter throws NotSupportedException. */
  lemma MinusOneIsUnsupported()
    ensures ConvertFrom("-1") == Failure(UnsupportedKey("-1"))
  {
    NumberShape(-1);
    TrimNoEdge("-1");
    UpperNoLower("-1");
    NotAShortcut("-1");
    FormatParseRoundTrip(-1);
  }

  /** The decimal text of an integer is numeric and has no letters. */
  lemma NumberShape(n: int)
    ensures IsNumeric(FormatInt(n))
    ensures forall i :: 0 <= i < |FormatInt(n)| ==> !('a' <= FormatInt(n)[i] <= 'z')
  {
    if n < 0 {
      assert FormatInt(n)[1..] == NatToDecimal(-n);
    }
  }

  /** GetKey on a token of two or more characters is the switch on its upper case. */
  lemma LongToken(keyToken: string)
    requires |keyToken| >= 2
    ensures GetKey(keyToken) == SwitchKey(Upper(keyToken))
  {
  }

  /** The switch gives the key of a case it has. */
  lemma SwitchShortcut(token: string, k: Key)
    requires Lookup(Shortcuts, token, false) == Some(k)
    ensures SwitchKey(token) == Success(Some(k))
  {
  }

  /** Past the cases, the switch gives the key of a declared name. */
  lemma SwitchName(token: string, k: Key)
    requires Lookup(Shortcuts, token, false).None? && !IsNumeric(token)
    requires FindName(token) == Some(k)
    ensures SwitchKey(token) == Success(Some(k))
  {
  }

  /** A text whose upper case is one of the switch's spellings reads as that case's key. */
  lemma ReadsAsShortcut(s: string, k: Key)
    requires |s| >= 2 && NoEdgeWhiteSpace(s)
    requires Lookup(Shortcuts, Upper(s), false) == Some(k)
    ensures ConvertFrom(s) == Success(k)
  {
    TrimNoEdge(s);
    LongToken(s);
    SwitchShortcut(Upper(s), k);
  }

  /** A text that is no spelling of the switch and equals a declared name ignoring case reads
      as the first value with that name. */
  lemma ReadsAsName(s: string, k: Key)
    requires |s| >= 2 && NoEdgeWhiteSpace(s)
    requires Lookup(Shortcuts, Upper(s), false).None? && !IsNumeric(Upper(s))
    requires FindName(Upper(s)) == Some(k)
    ensures ConvertFrom(s) == Success(k)
  {
    TrimNoEdge(s);
    LongToken(s);
    SwitchName(Upper(s), k);
  }

  /** The switch tries its groups of cases in source order. */
  lemma ShortcutGroups(token: string)
    ensures Lookup(Shortcuts, token, false) ==
      var nav := Lookup(NavigationSpellings, token, false);
      var sys := Lookup(SystemSpellings, token, false);
      var back := Lookup(BackSpellings, token, false);
      var mods := Lookup(ModifierSpellings, token, false);
      var punct := Lookup(PunctuationSpellings, token, false);
      if nav.Some? then nav else if sys.Some? then sys else if back.Some? then back
      else if mods.Some? then mods else if punct.Some? then punct
      else Lookup(TerminalSpellings, token, false)
  {
    var g1 := NavigationSpellings + SystemSpellings;
    var g2 := g1 + BackSpellings;
    var g3 := g2 + ModifierSpellings;
    var g4 := g3 + PunctuationSpellings;
    LookupAppend(g4, TerminalSpellings, token, false);
    LookupAppend(g3, PunctuationSpellings, token, false);
    LookupAppend(g2, ModifierSpellings, token, false);
    LookupAppend(g1, BackSpellings, token, false);
    LookupAppend(NavigationSpellings, SystemSpellings, token, false);
  }

  /** Escape is written "Esc", which the switch reads back as Escape. */
  lemma EscapeRoundTrip()
    ensures ConvertTo(Key.Escape) == Success("Esc")
    ensures ConvertFrom("Esc") == Success(Key.Escape)
  {
    UpperShape("Esc");
    assert Upper("Esc") == "ESC";
    ShortcutGroups("ESC");
    ReadsAsShortcut("Esc", Key.Escape);
  }

  /** Return is written by its first name, "Enter", which the switch reads back as Return. */
  lemma ReturnRoundTrip()
    ensures ConvertTo(Key.Return) == Success("Enter")
    ensures ConvertFrom("Enter") == Success(Key.Return)
  {
    UpperShape("Enter");
    assert Upper("Enter") == "ENTER";
    ShortcutGroups("ENTER");
    ReadsAsShortcut("Enter", Key.Return);
  }

  lemma BackspaceUpper()
    ensures Upper("Backspace") == "BACKSPACE"
  {
    UpperShape("Backspace");
  }

  lemma BackspaceIsShortcut()
    ensures Lookup(Shortcuts, "BACKSPACE", false) == Some(Key.Back)
  {
    ShortcutGroups("BACKSPACE");
    LookupFirst(NavigationSpellings, "BACKSPACE", false);
    LookupFirst(SystemSpellings, "BACKSPACE", false);
  }

  /** Back is written "Backspace", which the switch reads back as Back. */
  lemma BackRoundTrip()
    ensures ConvertTo(Key.Back) == Success("Backspace")
    ensures ConvertFrom("Backspace") == Success(Key.Back)
  {
    BackspaceUpper();
    BackspaceIsShortcut();
    ReadsAsShortcut("Backspace", Key.Back);
  }

  lemma ClearIsNoShortcut()
    ensures Lookup(Shortcuts, "CLEAR", false).None?
  {
    ShortcutGroups("CLEAR");
    ClearMissesFirstGroups();
    ClearMissesLastGroups();
  }

  lemma ClearMissesFirstGroups()
    ensures Lookup(NavigationSpellings, "CLEAR", false).None?
    ensures Lookup(SystemSpellings, "CLEAR", false).None?
    ensures Lookup(BackSpellings, "CLEAR", false).None?
  {
    LookupFirst(NavigationSpellings, "CLEAR", false);
    LookupFirst(SystemSpellings, "CLEAR", false);
    LookupFirst(BackSpellings, "CLEAR", false);
  }

  lemma ClearMissesLastGroups()
    ensures Lookup(ModifierSpellings, "CLEAR", false).None?
    ensures Lookup(PunctuationSpellings, "CLEAR", false).None?
    ensures Lookup(TerminalSpellings, "CLEAR", false).None?
  {
    LookupFirst(ModifierSpellings, "CLEAR", false);
    LookupFirst(PunctuationSpellings, "CLEAR", false);
    LookupFirst(TerminalSpellings, "CLEAR", false);
  }

  lemma ClearIsFifth()
    ensures FindName("CLEAR") == Some(Key.Clear)
  {
    var p := (v: DeclaredKey) => NamedAs(v, "CLEAR");
    assert !AnyNameMatches(["None"], "CLEAR");
    assert !NamedAs(Key.None, "CLEAR");
    assert FirstFrom(p, 0) == FirstFrom(p, 1);
    assert FirstFrom(p, 1) == FirstFrom(p, 2);
    assert FirstFrom(p, 2) == FirstFrom(p, 3);
    assert FirstFrom(p, 3) == FirstFrom(p, 4);
    assert FirstFrom(p, 4) == FirstFrom(p, 5);
    UpperShape("Clear");
    assert Upper("Clear") == "CLEAR";
  }

  /** LineFeed is written "Clear", which reads back as the key Clear: LineFeed does not
      survive a round trip. */
  lemma LineFeedReadsAsClear()
    ensures ConvertTo(Key.LineFeed) == Success("Clear")
    ensures ConvertFrom("Clear") == Success(Key.Clear) && Key.Clear != Key.LineFeed
  {
    UpperShape("Clear");
    assert Upper("Clear") == "CLEAR";
    ClearIsNoShortcut();
    ClearIsFifth();
    ReadsAsName("Clear", Key.Clear);
  }
}
