/** `KeyInterop`: the two `switch` tables between the launcher's `Key` values and Win32
    virtual-key codes. */
module KeyInterop {
  import opened KeyConverter

  /** `enum VirtualKeys`: the Win32 virtual-key codes the tables name. VK_KANA and VK_HANGUL
      share a value, and so do VK_HANJA and VK_KANJI. */
  newtype VirtualKeys = int {
    static const VK_LBUTTON: VirtualKeys := 0x01
    static const VK_RBUTTON: VirtualKeys := 0x02
    static const VK_CANCEL: VirtualKeys := 0x03
    static const VK_MBUTTON: VirtualKeys := 0x04
    static const VK_XBUTTON1: VirtualKeys := 0x05
    static const VK_XBUTTON2: VirtualKeys := 0x06
    static const VK_BACK: VirtualKeys := 0x08
    static const VK_TAB: VirtualKeys := 0x09
    static const VK_CLEAR: VirtualKeys := 0x0C
    static const VK_RETURN: VirtualKeys := 0x0D
    static const VK_SHIFT: VirtualKeys := 0x10
    static const VK_CONTROL: VirtualKeys := 0x11
    static const VK_MENU: VirtualKeys := 0x12
    static const VK_PAUSE: VirtualKeys := 0x13
    static const VK_CAPITAL: VirtualKeys := 0x14
    static const VK_KANA: VirtualKeys := 0x15
    static const VK_HANGUL: VirtualKeys := 0x15
    static const VK_IME_ON: VirtualKeys := 0x16
    static const VK_JUNJA: VirtualKeys := 0x17
    static const VK_FINAL: VirtualKeys := 0x18
    static const VK_HANJA: VirtualKeys := 0x19
    static const VK_KANJI: VirtualKeys := 0x19
    static const VK_IME_OFF: VirtualKeys := 0x1A
    static const VK_ESCAPE: VirtualKeys := 0x1B
    static const VK_CONVERT: VirtualKeys := 0x1C
    static const VK_NONCONVERT: VirtualKeys := 0x1D
    static const VK_ACCEPT: VirtualKeys := 0x1E
    static const VK_MODECHANGE: VirtualKeys := 0x1F
    static const VK_SPACE: VirtualKeys := 0x20
    static const VK_PRIOR: VirtualKeys := 0x21
    static const VK_NEXT: VirtualKeys := 0x22
    static const VK_END: VirtualKeys := 0x23
    static const VK_HOME: VirtualKeys := 0x24
    static const VK_LEFT: VirtualKeys := 0x25
    static const VK_UP: VirtualKeys := 0x26
    static const VK_RIGHT: VirtualKeys := 0x27
    static const VK_DOWN: VirtualKeys := 0x28
    static const VK_SELECT: VirtualKeys := 0x29
    static const VK_PRINT: VirtualKeys := 0x2A
    static const VK_EXECUTE: VirtualKeys := 0x2B
    static const VK_SNAPSHOT: VirtualKeys := 0x2C
    static const VK_INSERT: VirtualKeys := 0x2D
    static const VK_DELETE: VirtualKeys := 0x2E
    static const VK_HELP: VirtualKeys := 0x2F
    static const VK_0: VirtualKeys := 0x30
    static const VK_1: VirtualKeys := 0x31
    static const VK_2: VirtualKeys := 0x32
    static const VK_3: VirtualKeys := 0x33
    static const VK_4: VirtualKeys := 0x34
    static const VK_5: VirtualKeys := 0x35
    static const VK_6: VirtualKeys := 0x36
    static const VK_7: VirtualKeys := 0x37
    static const VK_8: VirtualKeys := 0x38
    static const VK_9: VirtualKeys := 0x39
    static const VK_A: VirtualKeys := 0x41
    static const VK_B: VirtualKeys := 0x42
    static const VK_C: VirtualKeys := 0x43
    static const VK_D: VirtualKeys := 0x44
    static const VK_E: VirtualKeys := 0x45
    static const VK_F: VirtualKeys := 0x46
    static const VK_G: VirtualKeys := 0x47
    static const VK_H: VirtualKeys := 0x48
    static const VK_I: VirtualKeys := 0x49
    static const VK_J: VirtualKeys := 0x4A
    static const VK_K: VirtualKeys := 0x4B
    static const VK_L: VirtualKeys := 0x4C
    static const VK_M: VirtualKeys := 0x4D
    static const VK_N: VirtualKeys := 0x4E
    static const VK_O: VirtualKeys := 0x4F
    static const VK_P: VirtualKeys := 0x50
    static const VK_Q: VirtualKeys := 0x51
    static const VK_R: VirtualKeys := 0x52
    static const VK_S: VirtualKeys := 0x53
    static const VK_T: VirtualKeys := 0x54
    static const VK_U: VirtualKeys := 0x55
    static const VK_V: VirtualKeys := 0x56
    static const VK_W: VirtualKeys := 0x57
    static const VK_X: VirtualKeys := 0x58
    static const VK_Y: VirtualKeys := 0x59
    static const VK_Z: VirtualKeys := 0x5A
    static const VK_LWIN: VirtualKeys := 0x5B
    static const VK_RWIN: VirtualKeys := 0x5C
    static const VK_APPS: VirtualKeys := 0x5D
    static const VK_SLEEP: VirtualKeys := 0x5F
    static const VK_NUMPAD0: VirtualKeys := 0x60
    static const VK_NUMPAD1: VirtualKeys := 0x61
    static const VK_NUMPAD2: VirtualKeys := 0x62
    static const VK_NUMPAD3: VirtualKeys := 0x63
    static const VK_NUMPAD4: VirtualKeys := 0x64
    static const VK_NUMPAD5: VirtualKeys := 0x65
    static const VK_NUMPAD6: VirtualKeys := 0x66
    static const VK_NUMPAD7: VirtualKeys := 0x67
    static const VK_NUMPAD8: VirtualKeys := 0x68
    static const VK_NUMPAD9: VirtualKeys := 0x69
    static const VK_MULTIPLY: VirtualKeys := 0x6A
    static const VK_ADD: VirtualKeys := 0x6B
    static const VK_SEPARATOR: VirtualKeys := 0x6C
    static const VK_SUBTRACT: VirtualKeys := 0x6D
    static const VK_DECIMAL: VirtualKeys := 0x6E
    static const VK_DIVIDE: VirtualKeys := 0x6F
    static const VK_F1: VirtualKeys := 0x70
    static const VK_F2: VirtualKeys := 0x71
    static const VK_F3: VirtualKeys := 0x72
    static const VK_F4: VirtualKeys := 0x73
    static const VK_F5: VirtualKeys := 0x74
    static const VK_F6: VirtualKeys := 0x75
    static const VK_F7: VirtualKeys := 0x76
    static const VK_F8: VirtualKeys := 0x77
    static const VK_F9: VirtualKeys := 0x78
    static const VK_F10: VirtualKeys := 0x79
    static const VK_F11: VirtualKeys := 0x7A
    static const VK_F12: VirtualKeys := 0x7B
    static const VK_F13: VirtualKeys := 0x7C
    static const VK_F14: VirtualKeys := 0x7D
    static const VK_F15: VirtualKeys := 0x7E
    static const VK_F16: VirtualKeys := 0x7F
    static const VK_F17: VirtualKeys := 0x80
    static const VK_F18: VirtualKeys := 0x81
    static const VK_F19: VirtualKeys := 0x82
    static const VK_F20: VirtualKeys := 0x83
    static const VK_F21: VirtualKeys := 0x84
    static const VK_F22: VirtualKeys := 0x85
    static const VK_F23: VirtualKeys := 0x86
    static const VK_F24: VirtualKeys := 0x87
    static const VK_NUMLOCK: VirtualKeys := 0x90
    static const VK_SCROLL: VirtualKeys := 0x91
    static const VK_LSHIFT: VirtualKeys := 0xA0
    static const VK_RSHIFT: VirtualKeys := 0xA1
    static const VK_LCONTROL: VirtualKeys := 0xA2
    static const VK_RCONTROL: VirtualKeys := 0xA3
    static const VK_LMENU: VirtualKeys := 0xA4
    static const VK_RMENU: VirtualKeys := 0xA5
    static const VK_BROWSER_BACK: VirtualKeys := 0xA6
    static const VK_BROWSER_FORWARD: VirtualKeys := 0xA7
    static const VK_BROWSER_REFRESH: VirtualKeys := 0xA8
    static const VK_BROWSER_STOP: VirtualKeys := 0xA9
    static const VK_BROWSER_SEARCH: VirtualKeys := 0xAA
    static const VK_BROWSER_FAVORITES: VirtualKeys := 0xAB
    static const VK_BROWSER_HOME: VirtualKeys := 0xAC
    static const VK_VOLUME_MUTE: VirtualKeys := 0xAD
    static const VK_VOLUME_DOWN: VirtualKeys := 0xAE
    static const VK_VOLUME_UP: VirtualKeys := 0xAF
    static const VK_MEDIA_NEXT_TRACK: VirtualKeys := 0xB0
    static const VK_MEDIA_PREV_TRACK: VirtualKeys := 0xB1
    static const VK_MEDIA_STOP: VirtualKeys := 0xB2
    static const VK_MEDIA_PLAY_PAUSE: VirtualKeys := 0xB3
    static const VK_LAUNCH_MAIL: VirtualKeys := 0xB4
    static const VK_LAUNCH_MEDIA_SELECT: VirtualKeys := 0xB5
    static const VK_LAUNCH_APP1: VirtualKeys := 0xB6
    static const VK_LAUNCH_APP2: VirtualKeys := 0xB7
    static const VK_OEM_1: VirtualKeys := 0xBA
    static const VK_OEM_PLUS: VirtualKeys := 0xBB
    static const VK_OEM_COMMA: VirtualKeys := 0xBC
    static const VK_OEM_MINUS: VirtualKeys := 0xBD
    static const VK_OEM_PERIOD: VirtualKeys := 0xBE
    static const VK_OEM_2: VirtualKeys := 0xBF
    static const VK_OEM_3: VirtualKeys := 0xC0
    static const VK_OEM_4: VirtualKeys := 0xDB
    static const VK_OEM_5: VirtualKeys := 0xDC
    static const VK_OEM_6: VirtualKeys := 0xDD
    static const VK_OEM_7: VirtualKeys := 0xDE
    static const VK_OEM_8: VirtualKeys := 0xDF
    static const VK_OEM_102: VirtualKeys := 0xE2
    static const VK_PROCESSKEY: VirtualKeys := 0xE5
    static const VK_PACKET: VirtualKeys := 0xE7
    static const VK_ATTN: VirtualKeys := 0xF6
    static const VK_CRSEL: VirtualKeys := 0xF7
    static const VK_EXSEL: VirtualKeys := 0xF8
    static const VK_EREOF: VirtualKeys := 0xF9
    static const VK_PLAY: VirtualKeys := 0xFA
    static const VK_ZOOM: VirtualKeys := 0xFB
    static const VK_NONAME: VirtualKeys := 0xFC
    static const VK_PA1: VirtualKeys := 0xFD
    static const VK_OEM_CLEAR: VirtualKeys := 0xFE
  }

  /** `KeyFromVirtualKey`: the key of a virtual-key code; codes the switch does not list give
      None. VK_SHIFT, VK_CONTROL and VK_MENU give the left-hand keys. The switch's cases are
      grouped below by code, 32 codes to a group; a code has at most one case, so the grouping
      does not change the answer. */
  function KeyFromVirtualKey(virtualKey: int): (k: Key)
    ensures IsDeclared(k)
    ensures virtualKey < 0 || virtualKey > 0xFF ==> k == Key.None
  {
    if virtualKey < 0 then Key.None
    else if virtualKey <= 0x1F then KeyFromVirtualKey00To1F(virtualKey)
    else if virtualKey <= 0x3F then KeyFromVirtualKey20To3F(virtualKey)
    else if virtualKey <= 0x5F then KeyFromVirtualKey40To5F(virtualKey)
    else if virtualKey <= 0x7F then KeyFromVirtualKey60To7F(virtualKey)
    else if virtualKey <= 0x9F then KeyFromVirtualKey80To9F(virtualKey)
    else if virtualKey <= 0xBF then KeyFromVirtualKeyA0ToBF(virtualKey)
    else if virtualKey <= 0xDF then KeyFromVirtualKeyC0ToDF(virtualKey)
    else if virtualKey <= 0xFF then KeyFromVirtualKeyE0ToFF(virtualKey)
    else Key.None
  }

  function KeyFromVirtualKey00To1F(virtualKey: int): (k: Key)
    ensures IsDeclared(k)
  {
    match virtualKey
    case 0x03 => 1  // VK_CANCEL -> Key.Cancel
    case 0x08 => 2  // VK_BACK -> Key.Back
    case 0x09 => 3  // VK_TAB -> Key.Tab
    case 0x0C => 5  // VK_CLEAR -> Key.Clear
    case 0x0D => 6  // VK_RETURN -> Key.Return
    case 0x10 => 116  // VK_SHIFT -> Key.LeftShift
    case 0x11 => 118  // VK_CONTROL -> Key.LeftCtrl
    case 0x12 => 120  // VK_MENU -> Key.LeftAlt
    case 0x13 => 7  // VK_PAUSE -> Key.Pause
    case 0x14 => 8  // VK_CAPITAL -> Key.Capital
    case 0x15 => 9  // VK_KANA -> Key.KanaMode
    case 0x17 => 10  // VK_JUNJA -> Key.JunjaMode
    case 0x18 => 11  // VK_FINAL -> Key.FinalMode
    case 0x19 => 12  // VK_KANJI -> Key.KanjiMode
    case 0x1B => 13  // VK_ESCAPE -> Key.Escape
    case 0x1C => 14  // VK_CONVERT -> Key.ImeConvert
    case 0x1D => 15  // VK_NONCONVERT -> Key.ImeNonConvert
    case 0x1E => 16  // VK_ACCEPT -> Key.ImeAccept
    case 0x1F => 17  // VK_MODECHANGE -> Key.ImeModeChange
    case _ => 0
  }

  function KeyFromVirtualKey20To3F(virtualKey: int): (k: Key)
    ensures IsDeclared(k)
  {
    match virtualKey
    case 0x20 => 18  // VK_SPACE -> Key.Space
    case 0x21 => 19  // VK_PRIOR -> Key.Prior
    case 0x22 => 20  // VK_NEXT -> Key.Next
    case 0x23 => 21  // VK_END -> Key.End
    case 0x24 => 22  // VK_HOME -> Key.Home
    case 0x25 => 23  // VK_LEFT -> Key.Left
    case 0x26 => 24  // VK_UP -> Key.Up
    case 0x27 => 25  // VK_RIGHT -> Key.Right
    case 0x28 => 26  // VK_DOWN -> Key.Down
    case 0x29 => 27  // VK_SELECT -> Key.Select
    case 0x2A => 28  // VK_PRINT -> Key.Print
    case 0x2B => 29  // VK_EXECUTE -> Key.Execute
    case 0x2C => 30  // VK_SNAPSHOT -> Key.Snapshot
    case 0x2D => 31  // VK_INSERT -> Key.Insert
    case 0x2E => 32  // VK_DELETE -> Key.Delete
    case 0x2F => 33  // VK_HELP -> Key.Help
    case 0x30 => 34  // VK_0 -> Key.D0
    case 0x31 => 35  // VK_1 -> Key.D1
    case 0x32 => 36  // VK_2 -> Key.D2
    case 0x33 => 37  // VK_3 -> Key.D3
    case 0x34 => 38  // VK_4 -> Key.D4
    case 0x35 => 39  // VK_5 -> Key.D5
    case 0x36 => 40  // VK_6 -> Key.D6
    case 0x37 => 41  // VK_7 -> Key.D7
    case 0x38 => 42  // VK_8 -> Key.D8
    case 0x39 => 43  // VK_9 -> Key.D9
    case _ => 0
  }

  function KeyFromVirtualKey40To5F(virtualKey: int): (k: Key)
    ensures IsDeclared(k)
  {
    match virtualKey
    case 0x41 => 44  // VK_A -> Key.A
    case 0x42 => 45  // VK_B -> Key.B
    case 0x43 => 46  // VK_C -> Key.C
    case 0x44 => 47  // VK_D -> Key.D
    case 0x45 => 48  // VK_E -> Key.E
    case 0x46 => 49  // VK_F -> Key.F
    case 0x47 => 50  // VK_G -> Key.G
    case 0x48 => 51  // VK_H -> Key.H
    case 0x49 => 52  // VK_I -> Key.I
    case 0x4A => 53  // VK_J -> Key.J
    case 0x4B => 54  // VK_K -> Key.K
    case 0x4C => 55  // VK_L -> Key.L
    case 0x4D => 56  // VK_M -> Key.M
    case 0x4E => 57  // VK_N -> Key.N
    case 0x4F => 58  // VK_O -> Key.O
    case 0x50 => 59  // VK_P -> Key.P
    case 0x51 => 60  // VK_Q -> Key.Q
    case 0x52 => 61  // VK_R -> Key.R
    case 0x53 => 62  // VK_S -> Key.S
    case 0x54 => 63  // VK_T -> Key.T
    case 0x55 => 64  // VK_U -> Key.U
    case 0x56 => 65  // VK_V -> Key.V
    case 0x57 => 66  // VK_W -> Key.W
    case 0x58 => 67  // VK_X -> Key.X
    case 0x59 => 68  // VK_Y -> Key.Y
    case 0x5A => 69  // VK_Z -> Key.Z
    case 0x5B => 70  // VK_LWIN -> Key.LWin
    case 0x5C => 71  // VK_RWIN -> Key.RWin
    case 0x5D => 72  // VK_APPS -> Key.Apps
    case 0x5F => 73  // VK_SLEEP -> Key.Sleep
    case _ => 0
  }

  function KeyFromVirtualKey60To7F(virtualKey: int): (k: Key)
    ensures IsDeclared(k)
  {
    match virtualKey
    case 0x60 => 74  // VK_NUMPAD0 -> Key.NumPad0
    case 0x61 => 75  // VK_NUMPAD1 -> Key.NumPad1
    case 0x62 => 76  // VK_NUMPAD2 -> Key.NumPad2
    case 0x63 => 77  // VK_NUMPAD3 -> Key.NumPad3
    case 0x64 => 78  // VK_NUMPAD4 -> Key.NumPad4
    case 0x65 => 79  // VK_NUMPAD5 -> Key.NumPad5
    case 0x66 => 80  // VK_NUMPAD6 -> Key.NumPad6
    case 0x67 => 81  // VK_NUMPAD7 -> Key.NumPad7
    case 0x68 => 82  // VK_NUMPAD8 -> Key.NumPad8
    case 0x69 => 83  // VK_NUMPAD9 -> Key.NumPad9
    case 0x6A => 84  // VK_MULTIPLY -> Key.Multiply
    case 0x6B => 85  // VK_ADD -> Key.Add
    case 0x6C => 86  // VK_SEPARATOR -> Key.Separator
    case 0x6D => 87  // VK_SUBTRACT -> Key.Subtract
    case 0x6E => 88  // VK_DECIMAL -> Key.Decimal
    case 0x6F => 89  // VK_DIVIDE -> Key.Divide
    case 0x70 => 90  // VK_F1 -> Key.F1
    case 0x71 => 91  // VK_F2 -> Key.F2
    case 0x72 => 92  // VK_F3 -> Key.F3
    case 0x73 => 93  // VK_F4 -> Key.F4
    case 0x74 => 94  // VK_F5 -> Key.F5
    case 0x75 => 95  // VK_F6 -> Key.F6
    case 0x76 => 96  // VK_F7 -> Key.F7
    case 0x77 => 97  // VK_F8 -> Key.F8
    case 0x78 => 98  // VK_F9 -> Key.F9
    case 0x79 => 99  // VK_F10 -> Key.F10
    case 0x7A => 100  // VK_F11 -> Key.F11
    case 0x7B => 101  // VK_F12 -> Key.F12
    case 0x7C => 102  // VK_F13 -> Key.F13
    case 0x7D => 103  // VK_F14 -> Key.F14
    case 0x7E => 104  // VK_F15 -> Key.F15
    case 0x7F => 105  // VK_F16 -> Key.F16
    case _ => 0
  }

  function KeyFromVirtualKey80To9F(virtualKey: int): (k: Key)
    ensures IsDeclared(k)
  {
    match virtualKey
    case 0x80 => 106  // VK_F17 -> Key.F17
    case 0x81 => 107  // VK_F18 -> Key.F18
    case 0x82 => 108  // VK_F19 -> Key.F19
    case 0x83 => 109  // VK_F20 -> Key.F20
    case 0x84 => 110  // VK_F21 -> Key.F21
    case 0x85 => 111  // VK_F22 -> Key.F22
    case 0x86 => 112  // VK_F23 -> Key.F23
    case 0x87 => 113  // VK_F24 -> Key.F24
    case 0x90 => 114  // VK_NUMLOCK -> Key.NumLock
    case 0x91 => 115  // VK_SCROLL -> Key.Scroll
    case _ => 0
  }

  function KeyFromVirtualKeyA0ToBF(virtualKey: int): (k: Key)
    ensures IsDeclared(k)
  {
    match virtualKey
    case 0xA0 => 116  // VK_LSHIFT -> Key.LeftShift
    case 0xA1 => 117  // VK_RSHIFT -> Key.RightShift
    case 0xA2 => 118  // VK_LCONTROL -> Key.LeftCtrl
    case 0xA3 => 119  // VK_RCONTROL -> Key.RightCtrl
    case 0xA4 => 120  // VK_LMENU -> Key.LeftAlt
    case 0xA5 => 121  // VK_RMENU -> Key.RightAlt
    case 0xA6 => 122  // VK_BROWSER_BACK -> Key.BrowserBack
    case 0xA7 => 123  // VK_BROWSER_FORWARD -> Key.BrowserForward
    case 0xA8 => 124  // VK_BROWSER_REFRESH -> Key.BrowserRefresh
    case 0xA9 => 125  // VK_BROWSER_STOP -> Key.BrowserStop
    case 0xAA => 126  // VK_BROWSER_SEARCH -> Key.BrowserSearch
    case 0xAB => 127  // VK_BROWSER_FAVORITES -> Key.BrowserFavorites
    case 0xAC => 128  // VK_BROWSER_HOME -> Key.BrowserHome
    case 0xAD => 129  // VK_VOLUME_MUTE -> Key.VolumeMute
    case 0xAE => 130  // VK_VOLUME_DOWN -> Key.VolumeDown
    case 0xAF => 131  // VK_VOLUME_UP -> Key.VolumeUp
    case 0xB0 => 132  // VK_MEDIA_NEXT_TRACK -> Key.MediaNextTrack
    case 0xB1 => 133  // VK_MEDIA_PREV_TRACK -> Key.MediaPreviousTrack
    case 0xB2 => 134  // VK_MEDIA_STOP -> Key.MediaStop
    case 0xB3 => 135  // VK_MEDIA_PLAY_PAUSE -> Key.MediaPlayPause
    case 0xB4 => 136  // VK_LAUNCH_MAIL -> Key.LaunchMail
    case 0xB5 => 137  // VK_LAUNCH_MEDIA_SELECT -> Key.SelectMedia
    case 0xB6 => 138  // VK_LAUNCH_APP1 -> Key.LaunchApplication1
    case 0xB7 => 139  // VK_LAUNCH_APP2 -> Key.LaunchApplication2
    case 0xBA => 140  // VK_OEM_1 -> Key.OemSemicolon
    case 0xBB => 141  // VK_OEM_PLUS -> Key.OemPlus
    case 0xBC => 142  // VK_OEM_COMMA -> Key.OemComma
    case 0xBD => 143  // VK_OEM_MINUS -> Key.OemMinus
    case 0xBE => 144  // VK_OEM_PERIOD -> Key.OemPeriod
    case 0xBF => 145  // VK_OEM_2 -> Key.OemQuestion
    case _ => 0
  }

  function KeyFromVirtualKeyC0ToDF(virtualKey: int): (k: Key)
    ensures IsDeclared(k)
  {
    match virtualKey
    case 0xC0 => 146  // VK_OEM_3 -> Key.OemTilde
    case 0xDB => 149  // VK_OEM_4 -> Key.OemOpenBrackets
    case 0xDC => 150  // VK_OEM_5 -> Key.OemPipe
    case 0xDD => 151  // VK_OEM_6 -> Key.OemCloseBrackets
    case 0xDE => 152  // VK_OEM_7 -> Key.OemQuotes
    case 0xDF => 153  // VK_OEM_8 -> Key.Oem8
    case _ => 0
  }

  function KeyFromVirtualKeyE0ToFF(virtualKey: int): (k: Key)
    ensures IsDeclared(k)
  {
    match virtualKey
    case 0xE2 => 154  // VK_OEM_102 -> Key.OemBackslash
    case 0xE5 => 155  // VK_PROCESSKEY -> Key.ImeProcessed
    case 0xF6 => 163  // VK_ATTN -> Key.Attn
    case 0xF7 => 164  // VK_CRSEL -> Key.CrSel
    case 0xF8 => 165  // VK_EXSEL -> Key.ExSel
    case 0xF9 => 166  // VK_EREOF -> Key.EraseEof
    case 0xFA => 167  // VK_PLAY -> Key.Play
    case 0xFB => 168  // VK_ZOOM -> Key.Zoom
    case 0xFC => 169  // VK_NONAME -> Key.NoName
    case 0xFD => 170  // VK_PA1 -> Key.Pa1
    case 0xFE => 171  // VK_OEM_CLEAR -> Key.OemClear
    case _ => 0
  }


  /** `VirtualKeyFromKey`: the virtual-key code of a key; keys the switch does not list give 0.
      The cases are grouped by key value, 20 values to a group. */
  function VirtualKeyFromKey(key: Key): (code: int)
    ensures 0 <= code <= 0xFF
    ensures !IsDeclared(key) ==> code == 0
  {
    if key < 0 then 0
    else if key <= 19 then VirtualKeyFromKey0To19(key)
    else if key <= 39 then VirtualKeyFromKey20To39(key)
    else if key <= 59 then VirtualKeyFromKey40To59(key)
    else if key <= 79 then VirtualKeyFromKey60To79(key)
    else if key <= 99 then VirtualKeyFromKey80To99(key)
    else if key <= 119 then VirtualKeyFromKey100To119(key)
    else if key <= 139 then VirtualKeyFromKey120To139(key)
    else if key <= 159 then VirtualKeyFromKey140To159(key)
    else if key <= 172 then VirtualKeyFromKey160To172(key)
    else 0
  }

  function VirtualKeyFromKey0To19(key: Key): (code: int)
    ensures 0 <= code <= 0xFF
  {
    match key
    case 1 => 0x03  // Key.Cancel -> VK_CANCEL
    case 2 => 0x08  // Key.Back -> VK_BACK
    case 3 => 0x09  // Key.Tab -> VK_TAB
    case 5 => 0x0C  // Key.Clear -> VK_CLEAR
    case 6 => 0x0D  // Key.Return -> VK_RETURN
    case 7 => 0x13  // Key.Pause -> VK_PAUSE
    case 8 => 0x14  // Key.Capital -> VK_CAPITAL
    case 9 => 0x15  // Key.KanaMode -> VK_KANA
    case 10 => 0x17  // Key.JunjaMode -> VK_JUNJA
    case 11 => 0x18  // Key.FinalMode -> VK_FINAL
    case 12 => 0x19  // Key.KanjiMode -> VK_KANJI
    case 13 => 0x1B  // Key.Escape -> VK_ESCAPE
    case 14 => 0x1C  // Key.ImeConvert -> VK_CONVERT
    case 15 => 0x1D  // Key.ImeNonConvert -> VK_NONCONVERT
    case 16 => 0x1E  // Key.ImeAccept -> VK_ACCEPT
    case 17 => 0x1F  // Key.ImeModeChange -> VK_MODECHANGE
    case 18 => 0x20  // Key.Space -> VK_SPACE
    case 19 => 0x21  // Key.Prior -> VK_PRIOR
    case _ => 0
  }

  function VirtualKeyFromKey20To39(key: Key): (code: int)
    ensures 0 <= code <= 0xFF
  {
    match key
    case 20 => 0x22  // Key.Next -> VK_NEXT
    case 21 => 0x23  // Key.End -> VK_END
    case 22 => 0x24  // Key.Home -> VK_HOME
    case 23 => 0x25  // Key.Left -> VK_LEFT
    case 24 => 0x26  // Key.Up -> VK_UP
    case 25 => 0x27  // Key.Right -> VK_RIGHT
    case 26 => 0x28  // Key.Down -> VK_DOWN
    case 27 => 0x29  // Key.Select -> VK_SELECT
    case 28 => 0x2A  // Key.Print -> VK_PRINT
    case 29 => 0x2B  // Key.Execute -> VK_EXECUTE
    case 30 => 0x2C  // Key.Snapshot -> VK_SNAPSHOT
    case 31 => 0x2D  // Key.Insert -> VK_INSERT
    case 32 => 0x2E  // Key.Delete -> VK_DELETE
    case 33 => 0x2F  // Key.Help -> VK_HELP
    case 34 => 0x30  // Key.D0 -> VK_0
    case 35 => 0x31  // Key.D1 -> VK_1
    case 36 => 0x32  // Key.D2 -> VK_2
    case 37 => 0x33  // Key.D3 -> VK_3
    case 38 => 0x34  // Key.D4 -> VK_4
    case 39 => 0x35  // Key.D5 -> VK_5
    case _ => 0
  }

  function VirtualKeyFromKey40To59(key: Key): (code: int)
    ensures 0 <= code <= 0xFF
  {
    match key
    case 40 => 0x36  // Key.D6 -> VK_6
    case 41 => 0x37  // Key.D7 -> VK_7
    case 42 => 0x38  // Key.D8 -> VK_8
    case 43 => 0x39  // Key.D9 -> VK_9
    case 44 => 0x41  // Key.A -> VK_A
    case 45 => 0x42  // Key.B -> VK_B
    case 46 => 0x43  // Key.C -> VK_C
    case 47 => 0x44  // Key.D -> VK_D
    case 48 => 0x45  // Key.E -> VK_E
    case 49 => 0x46  // Key.F -> VK_F
    case 50 => 0x47  // Key.G -> VK_G
    case 51 => 0x48  // Key.H -> VK_H
    case 52 => 0x49  // Key.I -> VK_I
    case 53 => 0x4A  // Key.J -> VK_J
    case 54 => 0x4B  // Key.K -> VK_K
    case 55 => 0x4C  // Key.L -> VK_L
    case 56 => 0x4D  // Key.M -> VK_M
    case 57 => 0x4E  // Key.N -> VK_N
    case 58 => 0x4F  // Key.O -> VK_O
    case 59 => 0x50  // Key.P -> VK_P
    case _ => 0
  }

  function VirtualKeyFromKey60To79(key: Key): (code: int)
    ensures 0 <= code <= 0xFF
  {
    match key
    case 60 => 0x51  // Key.Q -> VK_Q
    case 61 => 0x52  // Key.R -> VK_R
    case 62 => 0x53  // Key.S -> VK_S
    case 63 => 0x54  // Key.T -> VK_T
    case 64 => 0x55  // Key.U -> VK_U
    case 65 => 0x56  // Key.V -> VK_V
    case 66 => 0x57  // Key.W -> VK_W
    case 67 => 0x58  // Key.X -> VK_X
    case 68 => 0x59  // Key.Y -> VK_Y
    case 69 => 0x5A  // Key.Z -> VK_Z
    case 70 => 0x5B  // Key.LWin -> VK_LWIN
    case 71 => 0x5C  // Key.RWin -> VK_RWIN
    case 72 => 0x5D  // Key.Apps -> VK_APPS
    case 73 => 0x5F  // Key.Sleep -> VK_SLEEP
    case 74 => 0x60  // Key.NumPad0 -> VK_NUMPAD0
    case 75 => 0x61  // Key.NumPad1 -> VK_NUMPAD1
    case 76 => 0x62  // Key.NumPad2 -> VK_NUMPAD2
    case 77 => 0x63  // Key.NumPad3 -> VK_NUMPAD3
    case 78 => 0x64  // Key.NumPad4 -> VK_NUMPAD4
    case 79 => 0x65  // Key.NumPad5 -> VK_NUMPAD5
    case _ => 0
  }

  function VirtualKeyFromKey80To99(key: Key): (code: int)
    ensures 0 <= code <= 0xFF
  {
    match key
    case 80 => 0x66  // Key.NumPad6 -> VK_NUMPAD6
    case 81 => 0x67  // Key.NumPad7 -> VK_NUMPAD7
    case 82 => 0x68  // Key.NumPad8 -> VK_NUMPAD8
    case 83 => 0x69  // Key.NumPad9 -> VK_NUMPAD9
    case 84 => 0x6A  // Key.Multiply -> VK_MULTIPLY
    case 85 => 0x6B  // Key.Add -> VK_ADD
    case 86 => 0x6C  // Key.Separator -> VK_SEPARATOR
    case 87 => 0x6D  // Key.Subtract -> VK_SUBTRACT
    case 88 => 0x6E  // Key.Decimal -> VK_DECIMAL
    case 89 => 0x6F  // Key.Divide -> VK_DIVIDE
    case 90 => 0x70  // Key.F1 -> VK_F1
    case 91 => 0x71  // Key.F2 -> VK_F2
    case 92 => 0x72  // Key.F3 -> VK_F3
    case 93 => 0x73  // Key.F4 -> VK_F4
    case 94 => 0x74  // Key.F5 -> VK_F5
    case 95 => 0x75  // Key.F6 -> VK_F6
    case 96 => 0x76  // Key.F7 -> VK_F7
    case 97 => 0x77  // Key.F8 -> VK_F8
    case 98 => 0x78  // Key.F9 -> VK_F9
    case 99 => 0x79  // Key.F10 -> VK_F10
    case _ => 0
  }

  function VirtualKeyFromKey100To119(key: Key): (code: int)
    ensures 0 <= code <= 0xFF
  {
    match key
    case 100 => 0x7A  // Key.F11 -> VK_F11
    case 101 => 0x7B  // Key.F12 -> VK_F12
    case 102 => 0x7C  // Key.F13 -> VK_F13
    case 103 => 0x7D  // Key.F14 -> VK_F14
    case 104 => 0x7E  // Key.F15 -> VK_F15
    case 105 => 0x7F  // Key.F16 -> VK_F16
    case 106 => 0x80  // Key.F17 -> VK_F17
    case 107 => 0x81  // Key.F18 -> VK_F18
    case 108 => 0x82  // Key.F19 -> VK_F19
    case 109 => 0x83  // Key.F20 -> VK_F20
    case 110 => 0x84  // Key.F21 -> VK_F21
    case 111 => 0x85  // Key.F22 -> VK_F22
    case 112 => 0x86  // Key.F23 -> VK_F23
    case 113 => 0x87  // Key.F24 -> VK_F24
    case 114 => 0x90  // Key.NumLock -> VK_NUMLOCK
    case 115 => 0x91  // Key.Scroll -> VK_SCROLL
    case 116 => 0xA0  // Key.LeftShift -> VK_LSHIFT
    case 117 => 0xA1  // Key.RightShift -> VK_RSHIFT
    case 118 => 0xA2  // Key.LeftCtrl -> VK_LCONTROL
    case 119 => 0xA3  // Key.RightCtrl -> VK_RCONTROL
    case _ => 0
  }

  function VirtualKeyFromKey120To139(key: Key): (code: int)
    ensures 0 <= code <= 0xFF
  {
    match key
    case 120 => 0xA4  // Key.LeftAlt -> VK_LMENU
    case 121 => 0xA5  // Key.RightAlt -> VK_RMENU
    case 122 => 0xA6  // Key.BrowserBack -> VK_BROWSER_BACK
    case 123 => 0xA7  // Key.BrowserForward -> VK_BROWSER_FORWARD
    case 124 => 0xA8  // Key.BrowserRefresh -> VK_BROWSER_REFRESH
    case 125 => 0xA9  // Key.BrowserStop -> VK_BROWSER_STOP
    case 126 => 0xAA  // Key.BrowserSearch -> VK_BROWSER_SEARCH
    case 127 => 0xAB  // Key.BrowserFavorites -> VK_BROWSER_FAVORITES
    case 128 => 0xAC  // Key.BrowserHome -> VK_BROWSER_HOME
    case 129 => 0xAD  // Key.VolumeMute -> VK_VOLUME_MUTE
    case 130 => 0xAE  // Key.VolumeDown -> VK_VOLUME_DOWN
    case 131 => 0xAF  // Key.VolumeUp -> VK_VOLUME_UP
    case 132 => 0xB0  // Key.MediaNextTrack -> VK_MEDIA_NEXT_TRACK
    case 133 => 0xB1  // Key.MediaPreviousTrack -> VK_MEDIA_PREV_TRACK
    case 134 => 0xB2  // Key.MediaStop -> VK_MEDIA_STOP
    case 135 => 0xB3  // Key.MediaPlayPause -> VK_MEDIA_PLAY_PAUSE
    case 136 => 0xB4  // Key.LaunchMail -> VK_LAUNCH_MAIL
    case 137 => 0xB5  // Key.SelectMedia -> VK_LAUNCH_MEDIA_SELECT
    case 138 => 0xB6  // Key.LaunchApplication1 -> VK_LAUNCH_APP1
    case 139 => 0xB7  // Key.LaunchApplication2 -> VK_LAUNCH_APP2
    case _ => 0
  }

  function VirtualKeyFromKey140To159(key: Key): (code: int)
    ensures 0 <= code <= 0xFF
  {
    match key
    case 140 => 0xBA  // Key.OemSemicolon -> VK_OEM_1
    case 141 => 0xBB  // Key.OemPlus -> VK_OEM_PLUS
    case 142 => 0xBC  // Key.OemComma -> VK_OEM_COMMA
    case 143 => 0xBD  // Key.OemMinus -> VK_OEM_MINUS
    case 144 => 0xBE  // Key.OemPeriod -> VK_OEM_PERIOD
    case 145 => 0xBF  // Key.OemQuestion -> VK_OEM_2
    case 146 => 0xC0  // Key.OemTilde -> VK_OEM_3
    case 149 => 0xDB  // Key.OemOpenBrackets -> VK_OEM_4
    case 150 => 0xDC  // Key.OemPipe -> VK_OEM_5
    case 151 => 0xDD  // Key.OemCloseBrackets -> VK_OEM_6
    case 152 => 0xDE  // Key.OemQuotes -> VK_OEM_7
    case 153 => 0xDF  // Key.Oem8 -> VK_OEM_8
    case 154 => 0xE2  // Key.OemBackslash -> VK_OEM_102
    case 155 => 0xE5  // Key.ImeProcessed -> VK_PROCESSKEY
    case _ => 0
  }

  function VirtualKeyFromKey160To172(key: Key): (code: int)
    ensures 0 <= code <= 0xFF
  {
    match key
    case 163 => 0xF6  // Key.Attn -> VK_ATTN
    case 164 => 0xF7  // Key.CrSel -> VK_CRSEL
    case 165 => 0xF8  // Key.ExSel -> VK_EXSEL
    case 166 => 0xF9  // Key.EraseEof -> VK_EREOF
    case 167 => 0xFA  // Key.Play -> VK_PLAY
    case 168 => 0xFB  // Key.Zoom -> VK_ZOOM
    case 169 => 0xFC  // Key.NoName -> VK_NONAME
    case 170 => 0xFD  // Key.Pa1 -> VK_PA1
    case 171 => 0xFE  // Key.OemClear -> VK_OEM_CLEAR
    case _ => 0
  }


  /** The keys VirtualKeyFromKey leaves at 0: None, LineFeed, AbntC1, AbntC2, the pseudo-keys
      System to OemBackTab (156 to 162), DeadCharProcessed, and every unnamed value. */
  predicate HasNoVirtualKey(key: Key) {
    !IsDeclared(key) || key == Key.None || key == Key.LineFeed || key == Key.AbntC1
    || key == Key.AbntC2 || Key.System <= key <= Key.OemBackTab || key == Key.DeadCharProcessed
  }

  /** The code KeyFromVirtualKey's answer maps back to: the generic VK_SHIFT, VK_CONTROL and
      VK_MENU come back as their left-hand codes, every other code as itself. */
  function SidedCode(virtualKey: int): int {
    if virtualKey == 0x10 then 0xA0       // VK_SHIFT -> VK_LSHIFT
    else if virtualKey == 0x11 then 0xA2  // VK_CONTROL -> VK_LCONTROL
    else if virtualKey == 0x12 then 0xA4  // VK_MENU -> VK_LMENU
    else virtualKey
  }

  /** A key has a virtual-key code exactly when it is not one of HasNoVirtualKey's, and reading
      that code back gives the key again. */
  lemma KeyRoundTrip(key: Key)
    ensures VirtualKeyFromKey(key) == 0 <==> HasNoVirtualKey(key)
    ensures VirtualKeyFromKey(key) != 0 ==> KeyFromVirtualKey(VirtualKeyFromKey(key)) == key
  {
    if key < 0 || key > 172 {
    } else if key <= 39 {
      KeyRoundTrip0To39(key);
    } else if key <= 79 {
      KeyRoundTrip40To79(key);
    } else if key <= 119 {
      KeyRoundTrip80To119(key);
    } else if key <= 159 {
      KeyRoundTrip120To159(key);
    } else if key <= 172 {
      KeyRoundTrip160To172(key);
    }
  }

  /** Every code reads as a declared key, and a code KeyFromVirtualKey knows maps to a key whose
      own code is the same one, except that the generic shift, control and alt codes come back
      as the left-hand ones. */
  lemma CodeRoundTrip(virtualKey: int)
    ensures IsDeclared(KeyFromVirtualKey(virtualKey))
    ensures KeyFromVirtualKey(virtualKey) != Key.None ==>
              VirtualKeyFromKey(KeyFromVirtualKey(virtualKey)) == SidedCode(virtualKey)
  {
    if virtualKey < 0 || virtualKey > 0xFF {
    } else if virtualKey <= 0x1F {
      CodeRoundTrip00To1F(virtualKey);
    } else if virtualKey <= 0x3F {
      CodeRoundTrip20To3F(virtualKey);
    } else if virtualKey <= 0x5F {
      CodeRoundTrip40To5F(virtualKey);
    } else if virtualKey <= 0x7F {
      CodeRoundTrip60To7F(virtualKey);
    } else if virtualKey <= 0x9F {
      CodeRoundTrip80To9F(virtualKey);
    } else if virtualKey <= 0xBF {
      CodeRoundTripA0ToBF(virtualKey);
    } else if virtualKey <= 0xDF {
      CodeRoundTripC0ToDF(virtualKey);
    } else if virtualKey <= 0xFF {
      CodeRoundTripE0ToFF(virtualKey);
    }
  }

  /** VK_SHIFT, VK_CONTROL and VK_MENU read as the left-hand keys, which map back to VK_LSHIFT,
      VK_LCONTROL and VK_LMENU. */
  lemma GenericModifierCodes()
    ensures KeyFromVirtualKey(0x10) == Key.LeftShift && VirtualKeyFromKey(Key.LeftShift) == 0xA0
    ensures KeyFromVirtualKey(0x11) == Key.LeftCtrl && VirtualKeyFromKey(Key.LeftCtrl) == 0xA2
    ensures KeyFromVirtualKey(0x12) == Key.LeftAlt && VirtualKeyFromKey(Key.LeftAlt) == 0xA4
  {
  }

  // The two round trips, a range of keys or codes at a time: each case names the code of
  // the key, or the key of the code, and the way back.

  lemma KeyRoundTrip0To39(key: Key)
    requires 0 <= key <= 39
    ensures VirtualKeyFromKey(key) == 0 <==> HasNoVirtualKey(key)
    ensures VirtualKeyFromKey(key) != 0 ==> KeyFromVirtualKey(VirtualKeyFromKey(key)) == key
  {
  }

  lemma KeyRoundTrip40To79(key: Key)
    requires 40 <= key <= 79
    ensures VirtualKeyFromKey(key) == 0 <==> HasNoVirtualKey(key)
    ensures VirtualKeyFromKey(key) != 0 ==> KeyFromVirtualKey(VirtualKeyFromKey(key)) == key
  {
  }

  lemma KeyRoundTrip80To119(key: Key)
    requires 80 <= key <= 119
    ensures VirtualKeyFromKey(key) == 0 <==> HasNoVirtualKey(key)
    ensures VirtualKeyFromKey(key) != 0 ==> KeyFromVirtualKey(VirtualKeyFromKey(key)) == key
  {
  }

  lemma KeyRoundTrip120To159(key: Key)
    requires 120 <= key <= 159
    ensures VirtualKeyFromKey(key) == 0 <==> HasNoVirtualKey(key)
    ensures VirtualKeyFromKey(key) != 0 ==> KeyFromVirtualKey(VirtualKeyFromKey(key)) == key
  {
  }

  lemma KeyRoundTrip160To172(key: Key)
    requires 160 <= key <= 172
    ensures VirtualKeyFromKey(key) == 0 <==> HasNoVirtualKey(key)
    ensures VirtualKeyFromKey(key) != 0 ==> KeyFromVirtualKey(VirtualKeyFromKey(key)) == key
  {
  }

  lemma CodeRoundTrip00To1F(virtualKey: int)
    requires 0x00 <= virtualKey <= 0x1F
    ensures IsDeclared(KeyFromVirtualKey(virtualKey))
    ensures KeyFromVirtualKey(virtualKey) != Key.None ==>
              VirtualKeyFromKey(KeyFromVirtualKey(virtualKey)) == SidedCode(virtualKey)
  {
  }

  lemma CodeRoundTrip20To3F(virtualKey: int)
    requires 0x20 <= virtualKey <= 0x3F
    ensures IsDeclared(KeyFromVirtualKey(virtualKey))
    ensures KeyFromVirtualKey(virtualKey) != Key.None ==>
              VirtualKeyFromKey(KeyFromVirtualKey(virtualKey)) == SidedCode(virtualKey)
  {
  }

  lemma CodeRoundTrip40To5F(virtualKey: int)
    requires 0x40 <= virtualKey <= 0x5F
    ensures IsDeclared(KeyFromVirtualKey(virtualKey))
    ensures KeyFromVirtualKey(virtualKey) != Key.None ==>
              VirtualKeyFromKey(KeyFromVirtualKey(virtualKey)) == SidedCode(virtualKey)
  {
  }

  lemma CodeRoundTrip60To7F(virtualKey: int)
    requires 0x60 <= virtualKey <= 0x7F
    ensures IsDeclared(KeyFromVirtualKey(virtualKey))
    ensures KeyFromVirtualKey(virtualKey) != Key.None ==>
              VirtualKeyFromKey(KeyFromVirtualKey(virtualKey)) == SidedCode(virtualKey)
  {
  }

  lemma CodeRoundTrip80To9F(virtualKey: int)
    requires 0x80 <= virtualKey <= 0x9F
    ensures IsDeclared(KeyFromVirtualKey(virtualKey))
    ensures KeyFromVirtualKey(virtualKey) != Key.None ==>
              VirtualKeyFromKey(KeyFromVirtualKey(virtualKey)) == SidedCode(virtualKey)
  {
  }

  lemma CodeRoundTripA0ToBF(virtualKey: int)
    requires 0xA0 <= virtualKey <= 0xBF
    ensures IsDeclared(KeyFromVirtualKey(virtualKey))
    ensures KeyFromVirtualKey(virtualKey) != Key.None ==>
              VirtualKeyFromKey(KeyFromVirtualKey(virtualKey)) == SidedCode(virtualKey)
  {
  }

  lemma CodeRoundTripC0ToDF(virtualKey: int)
    requires 0xC0 <= virtualKey <= 0xDF
    ensures IsDeclared(KeyFromVirtualKey(virtualKey))
    ensures KeyFromVirtualKey(virtualKey) != Key.None ==>
              VirtualKeyFromKey(KeyFromVirtualKey(virtualKey)) == SidedCode(virtualKey)
  {
  }

  lemma CodeRoundTripE0ToFF(virtualKey: int)
    requires 0xE0 <= virtualKey <= 0xFF
    ensures IsDeclared(KeyFromVirtualKey(virtualKey))
    ensures KeyFromVirtualKey(virtualKey) != Key.None ==>
              VirtualKeyFromKey(KeyFromVirtualKey(virtualKey)) == SidedCode(virtualKey)
  {
  }

}
