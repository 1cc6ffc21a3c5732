/** The `ModifierKeys` flag set and its string converter (`ModifierKeysConverter`), which read
    and write modifier combinations such as "Ctrl+Alt" in the launcher's settings. */
module ModifierKeysConverter {
  import opened Wrappers
  import opened Text

  /** `[Flags] enum ModifierKeys`, kept as the 32-bit pattern the enum stores, so that a value
      with undeclared bits (read from settings or decoded from a message) is representable. */
  type ModifierKeys = bv32

  const NoModifiers: ModifierKeys := 0
  const Alt: ModifierKeys := 1
  const Control: ModifierKeys := 2
  const Shift: ModifierKeys := 4
  const Windows: ModifierKeys := 8

  /** `ModifierKeysFlag`: every declared flag. */
  const ModifierKeysFlag: ModifierKeys := Windows | Shift | Alt | Control

  const ModifierDelimiter: char := '+'

  /** The exceptions the converter throws. */
  datatype ConversionError =
    | InvalidEnumArgument(value: int)     // rendering a value with undeclared bits
    | UnsupportedModifier(token: string)  // parsing a piece that names no modifier

  /** `(int)m`: the enum's 32 bits read as a two's-complement integer. */
  function AsInt32(m: ModifierKeys): (n: int)
    ensures IsInt32(n)
  {
    if m < 0x8000_0000 then m as int else m as int - 0x1_0000_0000
  }

  /** `IsDefinedModifierKeys`. */
  predicate IsDefinedModifierKeys(m: ModifierKeys) {
    m == NoModifiers || m & !ModifierKeysFlag == 0
  }

  /** A value is defined exactly when it lies in 0..15, i.e. uses no bit outside
      Alt | Control | Shift | Windows. */
  lemma DefinedIffFourBits(m: ModifierKeys)
    ensures IsDefinedModifierKeys(m) <==> m < 16
  {
  }

  /** `MatchModifiers`: the display name of a single flag. */
  function MatchModifiers(m: ModifierKeys): (name: string)
    ensures name != "" <==> IsFlag(m)
  {
    if m == Control then "Ctrl"
    else if m == Shift then "Shift"
    else if m == Alt then "Alt"
    else if m == Windows then "Windows"
    else ""
  }

  /** The name of `flag` when `m` holds it, and nothing otherwise. */
  function NameIf(m: ModifierKeys, flag: ModifierKeys): seq<string> {
    if m & flag == flag then [MatchModifiers(flag)] else []
  }

  /** The names of the flags present in `m`, in the order the renderer emits them. */
  function FlagNames(m: ModifierKeys): seq<string> {
    NameIf(m, Control) + NameIf(m, Alt) + NameIf(m, Windows) + NameIf(m, Shift)
  }

  /** The text `ConvertTo` produces for a defined value. */
  function ModifiersText(m: ModifierKeys): string {
    Join(FlagNames(m), ModifierDelimiter)
  }

  /** One step of the renderer: appending the name of `flag` when `m` holds it, after a '+'
      unless nothing has been written yet, keeps the text equal to the joined names. */
  lemma RenderStep(text: string, names: seq<string>, m: ModifierKeys, flag: ModifierKeys)
    requires IsFlag(flag)
    requires text == Join(names, ModifierDelimiter) && (text == "" <==> names == [])
    ensures var next := if m & flag != flag then text
                        else (if |text| > 0 then text + [ModifierDelimiter] else text) + MatchModifiers(flag);
      next == Join(names + NameIf(m, flag), ModifierDelimiter) && (next == "" <==> names + NameIf(m, flag) == [])
  {
    MatchModifiersReads(flag);
    if m & flag == flag {
      JoinAppend(names, MatchModifiers(flag), ModifierDelimiter);
    } else {
      AppendEmpty(names);
    }
  }

  /** `ConvertTo` with a string destination: an undefined value throws; otherwise the names of
      the flags present, in the order Ctrl, Alt, Windows, Shift, each '+' only between two
      names. */
  method ConvertTo(modifiers: ModifierKeys) returns (r: Result<string, ConversionError>)
    ensures !IsDefinedModifierKeys(modifiers) ==> r == Failure(InvalidEnumArgument(AsInt32(modifiers)))
    ensures IsDefinedModifierKeys(modifiers) ==> r == Success(ModifiersText(modifiers))
  {
    if !IsDefinedModifierKeys(modifiers) {
      return Failure(InvalidEnumArgument(AsInt32(modifiers)));
    }
    var strModifiers := "";
    RenderStep(strModifiers, [], modifiers, Control);
    if modifiers & Control == Control {
      strModifiers := strModifiers + MatchModifiers(Control);
    }
    RenderStep(strModifiers, NameIf(modifiers, Control), modifiers, Alt);
    if modifiers & Alt == Alt {
      if |strModifiers| > 0 {
        strModifiers := strModifiers + [ModifierDelimiter];
      }
      strModifiers := strModifiers + MatchModifiers(Alt);
    }
    RenderStep(strModifiers, NameIf(modifiers, Control) + NameIf(modifiers, Alt), modifiers, Windows);
    if modifiers & Windows == Windows {
      if |strModifiers| > 0 {
        strModifiers := strModifiers + [ModifierDelimiter];
      }
      strModifiers := strModifiers + MatchModifiers(Windows);
    }
    RenderStep(strModifiers, NameIf(modifiers, Control) + NameIf(modifiers, Alt) + NameIf(modifiers, Windows), modifiers, Shift);
    if modifiers & Shift == Shift {
      if |strModifiers| > 0 {
        strModifiers := strModifiers + [ModifierDelimiter];
      }
      strModifiers := strModifiers + MatchModifiers(Shift);
    }
    return Success(strModifiers);
  }

  /** The cases of the parser's `switch`: each upper-cased spelling and the flag it names. */
  const ModifierTokens: seq<(string, ModifierKeys)> :=
    [("CONTROL", Control), ("CTRL", Control), ("SHIFT", Shift), ("ALT", Alt), ("WINDOWS", Windows), ("WIN", Windows)]

  /** The flag a trimmed, upper-cased piece names, if any. */
  function FlagOfToken(token: string): Option<ModifierKeys> {
    Lookup(ModifierTokens, token, false)
  }

  /** The `switch` spelled out: "CONTROL" and "CTRL" name Control, "SHIFT" Shift, "ALT" Alt,
      "WINDOWS" and "WIN" Windows, and nothing else names a flag (in particular not the empty
      token, nor a spelling in another case). */
  lemma TokenCases(token: string)
    ensures FlagOfToken(token) ==
      if token == "CONTROL" || token == "CTRL" then Some(Control)
      else if token == "SHIFT" then Some(Shift)
      else if token == "ALT" then Some(Alt)
      else if token == "WINDOWS" || token == "WIN" then Some(Windows)
      else None
  {
    var t1 := ModifierTokens[1..];
    var t2 := t1[1..];
    var t3 := t2[1..];
    var t4 := t3[1..];
    var t5 := t4[1..];
    assert t5 == [("WIN", Windows)];
    assert Lookup(t5[1..], token, false) == None;
    assert Lookup(t4, token, false) == if token == "WINDOWS" then Some(Windows) else Lookup(t5, token, false);
    assert Lookup(t3, token, false) == if token == "ALT" then Some(Alt) else Lookup(t4, token, false);
    assert Lookup(t2, token, false) == if token == "SHIFT" then Some(Shift) else Lookup(t3, token, false);
    assert Lookup(t1, token, false) == if token == "CTRL" then Some(Control) else Lookup(t2, token, false);
  }

  /** A piece as the parser compares it: trimmed, then upper-cased. */
  function Normalize(piece: string): string {
    Upper(Trim(piece))
  }

  /** The flags the pieces name, in order, up to the first piece that is empty once trimmed;
      the first piece that names no modifier throws, naming that piece trimmed and upper-cased. */
  function ParseTokens(pieces: seq<string>): (r: Result<seq<ModifierKeys>, ConversionError>)
    ensures r.Success? ==> forall i :: 0 <= i < |r.value| ==> IsFlag(r.value[i])
    ensures r.Failure? ==> r.error.UnsupportedModifier? && r.error.token != "" && FlagOfToken(r.error.token).None?
  {
    if |pieces| == 0 then Success([])
    else
      var token := Normalize(pieces[0]);
      if token == "" then Success([])
      else
        match FlagOfToken(token)
        case None => Failure(UnsupportedModifier(token))
        case Some(flag) =>
          TokenCases(token);
          Prepend([flag], ParseTokens(pieces[1..]))
  }

  /** Puts `flags` in front of a successful parse; an error is passed on. */
  function Prepend(flags: seq<ModifierKeys>, r: Result<seq<ModifierKeys>, ConversionError>): Result<seq<ModifierKeys>, ConversionError> {
    match r
    case Failure(e) => Failure(e)
    case Success(rest) => Success(flags + rest)
  }

  /** `acc |= flag` for each flag in turn. */
  function Combine(acc: ModifierKeys, flags: seq<ModifierKeys>): ModifierKeys
    decreases |flags|
  {
    if |flags| == 0 then acc else Combine(acc | flags[0], flags[1..])
  }

  /** The value that `acc` becomes once the remaining pieces' parse has been folded in. */
  function Finish(acc: ModifierKeys, r: Result<seq<ModifierKeys>, ConversionError>): Result<ModifierKeys, ConversionError> {
    match r
    case Failure(e) => Failure(e)
    case Success(flags) => Success(Combine(acc, flags))
  }

  /** What `GetModifierKeys` computes for a string: the OR of the flags its '+'-separated
      pieces name. */
  function ParseModifiers(s: string): (r: Result<ModifierKeys, ConversionError>)
    ensures r.Success? ==> IsDefinedModifierKeys(r.value)
    ensures r.Failure? ==> r.error.UnsupportedModifier? && r.error.token != "" && FlagOfToken(r.error.token).None?
  {
    var parsed := ParseTokens(Split(s, ModifierDelimiter));
    if parsed.Success? then
      CombineBits(NoModifiers, parsed.value, Alt);
      DefinedIffFourBits(Combine(NoModifiers, parsed.value));
      Success(Combine(NoModifiers, parsed.value))
    else
      Failure(parsed.error)
  }

  /** Unfolds the parser over its first piece. */
  lemma ParseTokensCons(piece: string, rest: seq<string>)
    ensures Normalize(piece) == "" ==> ParseTokens([piece] + rest) == Success([])
    ensures Normalize(piece) != "" && FlagOfToken(Normalize(piece)).None? ==>
              ParseTokens([piece] + rest) == Failure(UnsupportedModifier(Normalize(piece)))
    ensures Normalize(piece) != "" && FlagOfToken(Normalize(piece)).Some? ==>
              ParseTokens([piece] + rest) == Prepend([FlagOfToken(Normalize(piece)).value], ParseTokens(rest))
  {
    assert ([piece] + rest)[0] == piece && ([piece] + rest)[1..] == rest;
  }

  /** Folding in one more flag is OR-ing it into the accumulator first. */
  lemma FinishPrepend(acc: ModifierKeys, flag: ModifierKeys, r: Result<seq<ModifierKeys>, ConversionError>)
    ensures Finish(acc, Prepend([flag], r)) == Finish(acc | flag, r)
  {
    if r.Success? {
      assert ([flag] + r.value)[1..] == r.value;
    }
  }

  /** `GetModifierKeys`: a do/while loop that cuts the string at each '+', and ORs in the flag
      of every piece, proved to compute `ParseModifiers`. */
  method GetModifierKeys(token: string) returns (r: Result<ModifierKeys, ConversionError>)
    ensures r == ParseModifiers(token)
  {
    var modifiers := NoModifiers;
    if |token| != 0 {
      var modifiersToken := token;
      var offset := 0;
      while true
        invariant Finish(modifiers, ParseTokens(Split(modifiersToken, ModifierDelimiter))) == ParseModifiers(token)
        decreases |modifiersToken|
      {
        offset := IndexOf(modifiersToken, ModifierDelimiter);
        var piece := if offset < 0 then modifiersToken else modifiersToken[..offset];
        ghost var raw := piece;
        ghost var rest := if offset < 0 then [] else Split(modifiersToken[offset + 1..], ModifierDelimiter);
        assert Split(modifiersToken, ModifierDelimiter) == [raw] + rest;
        ParseTokensCons(raw, rest);
        piece := Trim(piece);
        piece := Upper(piece);
        if piece == "" {
          break;
        }
        // the switch over the upper-cased piece
        match FlagOfToken(piece) {
          case None =>
            return Failure(UnsupportedModifier(piece));
          case Some(flag) =>
            FinishPrepend(modifiers, flag, ParseTokens(rest));
            modifiers := modifiers | flag;
        }
        modifiersToken := modifiersToken[offset + 1..];
        if offset == -1 {
          assert Finish(modifiers, ParseTokens([])) == Success(modifiers);
          break;
        }
      }
    } else {
      assert Split(token, ModifierDelimiter) == [""];
    }
    return Success(modifiers);
  }

  /** `ConvertFrom` for a string source: trim, then `GetModifierKeys`. */
  method ConvertFrom(source: string) returns (r: Result<ModifierKeys, ConversionError>)
    ensures r == ParseModifiers(Trim(source))
  {
    r := GetModifierKeys(Trim(source));
  }

  /** `CanConvertTo(string)` for a `ModifierKeys` instance: exactly the values `ConvertTo`
      renders without throwing. */
  predicate CanConvertToString(instance: Option<ModifierKeys>): (b: bool)
    ensures b <==> instance.Some? && instance.value < 16
  {
    DefinedIffFourBits(if instance.Some? then instance.value else 0);
    instance.Some? && IsDefinedModifierKeys(instance.value)
  }

  // ---------------------------------------------------------------------------------------
  // Properties of the parser and the renderer.

  /** A piece that names a modifier once trimmed and upper-cased. */
  predicate IsModifierName(piece: string) {
    FlagOfToken(Normalize(piece)).Some?
  }

  function FlagOf(piece: string): ModifierKeys
    requires IsModifierName(piece)
  {
    FlagOfToken(Normalize(piece)).value
  }

  /** The flags a sequence of modifier names names, in order. */
  function FlagList(names: seq<string>): seq<ModifierKeys>
    requires forall i :: 0 <= i < |names| ==> IsModifierName(names[i])
  {
    if |names| == 0 then [] else [FlagOf(names[0])] + FlagList(names[1..])
  }

  /** The value a sequence of modifier names stands for. */
  function FlagsOf(names: seq<string>): ModifierKeys
    requires forall i :: 0 <= i < |names| ==> IsModifierName(names[i])
  {
    Combine(NoModifiers, FlagList(names))
  }

  lemma AppendStep(names: seq<string>, rest: seq<string>)
    requires |names| > 0 && forall i :: 0 <= i < |names| ==> IsModifierName(names[i])
    requires ParseTokens(names[1..] + rest) == Prepend(FlagList(names[1..]), ParseTokens(rest))
    ensures ParseTokens(names + rest) == Prepend(FlagList(names), ParseTokens(rest))
  {
    ConsAppend(names, rest);
    TokenCases(Normalize(names[0]));
    ParseTokensCons(names[0], names[1..] + rest);
    var r := ParseTokens(rest);
    if r.Success? {
      AppendAssociative([FlagOf(names[0])], FlagList(names[1..]), r.value);
    }
  }

  /** A run of modifier names contributes their flags and hands the remaining pieces on. */
  lemma {:induction false} ParseTokensAppend(names: seq<string>, rest: seq<string>)
    requires forall i :: 0 <= i < |names| ==> IsModifierName(names[i])
    ensures ParseTokens(names + rest) == Prepend(FlagList(names), ParseTokens(rest))
  {
    if |names| == 0 {
      assert names + rest == rest;
      var r := ParseTokens(rest);
      if r.Success? {
        assert [] + r.value == r.value;
      }
    } else {
      ParseTokensAppend(names[1..], rest);
      AppendStep(names, rest);
    }
  }

  /** One of the four declared single-bit flags. */
  predicate IsFlag(f: ModifierKeys) {
    f == Alt || f == Control || f == Shift || f == Windows
  }

  lemma OrWithFlag(acc: ModifierKeys, f: ModifierKeys, flag: ModifierKeys)
    requires IsFlag(f) && IsFlag(flag)
    ensures (acc | f) & flag == flag <==> acc & flag == flag || f == flag
    ensures acc < 16 ==> acc | f < 16
  {
  }

  /** Folding in single-bit flags keeps a value below 16 and sets a flag's bit exactly when it
      was already set or is one of the flags folded in. */
  lemma {:induction false} CombineBits(acc: ModifierKeys, flags: seq<ModifierKeys>, flag: ModifierKeys)
    requires forall i :: 0 <= i < |flags| ==> IsFlag(flags[i])
    requires IsFlag(flag)
    ensures acc < 16 ==> Combine(acc, flags) < 16
    ensures Combine(acc, flags) & flag == flag <==> acc & flag == flag || flag in flags
    decreases |flags|
  {
    if |flags| > 0 {
      OrWithFlag(acc, flags[0], flag);
      CombineBits(acc | flags[0], flags[1..], flag);
      assert flags == [flags[0]] + flags[1..];
    }
  }

  lemma {:induction false} FlagListShape(names: seq<string>)
    requires forall i :: 0 <= i < |names| ==> IsModifierName(names[i])
    ensures |FlagList(names)| == |names|
    ensures forall i :: 0 <= i < |names| ==> FlagList(names)[i] == FlagOf(names[i])
  {
    if |names| > 0 {
      FlagListShape(names[1..]);
      forall i | 1 <= i < |names|
        ensures FlagList(names)[i] == FlagOf(names[i])
      {
        assert FlagList(names)[i] == FlagList(names[1..])[i - 1];
        assert names[1..][i - 1] == names[i];
      }
    }
  }

  /** Every name's flag is one of the four declared flags. */
  lemma FlagOfIsFlag(piece: string)
    requires IsModifierName(piece)
    ensures IsFlag(FlagOf(piece))
  {
    TokenCases(Normalize(piece));
  }

  lemma FlagListFlags(names: seq<string>, flag: ModifierKeys)
    requires forall i :: 0 <= i < |names| ==> IsModifierName(names[i])
    ensures forall i :: 0 <= i < |FlagList(names)| ==> IsFlag(FlagList(names)[i])
    ensures flag in FlagList(names) <==> exists i :: 0 <= i < |names| && FlagOf(names[i]) == flag
  {
    FlagListShape(names);
    forall i | 0 <= i < |FlagList(names)|
      ensures IsFlag(FlagList(names)[i])
    {
      FlagOfIsFlag(names[i]);
    }
    if flag in FlagList(names) {
      var i :| 0 <= i < |FlagList(names)| && FlagList(names)[i] == flag;
      assert FlagOf(names[i]) == flag;
    }
  }

  /** A run of modifier names with nothing after it parses to its flags. */
  lemma ParseTokensOfNames(names: seq<string>)
    requires forall i :: 0 <= i < |names| ==> IsModifierName(names[i])
    ensures ParseTokens(names) == Success(FlagList(names))
  {
    ParseTokensAppend(names, []);
    AppendEmpty(names);
    AppendEmpty(FlagList(names));
  }

  /** Parsing modifier names joined by '+' gives a defined value holding exactly the flags some
      piece names: the result depends neither on the order of the pieces nor on repetitions. */
  lemma ParseNames(names: seq<string>, flag: ModifierKeys)
    requires |names| >= 1
    requires forall i :: 0 <= i < |names| ==> IsModifierName(names[i]) && ModifierDelimiter !in names[i]
    requires IsFlag(flag)
    ensures ParseModifiers(Join(names, ModifierDelimiter)) == Success(FlagsOf(names))
    ensures IsDefinedModifierKeys(FlagsOf(names))
    ensures FlagsOf(names) & flag == flag <==> exists i :: 0 <= i < |names| && FlagOf(names[i]) == flag
  {
    SplitJoin(names, ModifierDelimiter);
    ParseTokensOfNames(names);
    FlagListFlags(names, flag);
    CombineBits(NoModifiers, FlagList(names), flag);
    DefinedIffFourBits(FlagsOf(names));
  }

  /** An empty piece (a leading '+', "++", or a trailing '+') stops parsing: the flags named
      before it are returned and everything after it is ignored, even pieces that name nothing. */
  lemma EmptyPieceStops(before: seq<string>, blank: string, after: seq<string>)
    requires forall i :: 0 <= i < |before| ==> IsModifierName(before[i]) && ModifierDelimiter !in before[i]
    requires AllWhiteSpace(blank) && ModifierDelimiter !in blank
    requires forall i :: 0 <= i < |after| ==> ModifierDelimiter !in after[i]
    ensures ParseModifiers(Join(before + [blank] + after, ModifierDelimiter)) == Success(FlagsOf(before))
  {
    NoSepAround(before, blank, after, ModifierDelimiter);
    SplitJoin(before + [blank] + after, ModifierDelimiter);
    StopsAt(before, blank, after);
  }

  lemma StopsAt(before: seq<string>, blank: string, after: seq<string>)
    requires forall i :: 0 <= i < |before| ==> IsModifierName(before[i])
    requires AllWhiteSpace(blank)
    ensures ParseTokens(before + [blank] + after) == Success(FlagList(before))
  {
    AppendAssociative(before, [blank], after);
    ParseTokensAppend(before, [blank] + after);
    TrimShape(blank);
    assert Normalize(blank) == "";
    ParseTokensCons(blank, after);
    AppendEmpty(FlagList(before));
  }

  /** A non-blank piece that names no modifier makes parsing throw, naming that piece trimmed and
      upper-cased, provided every piece before it names a modifier. */
  lemma UnknownPieceThrows(before: seq<string>, bad: string, after: seq<string>)
    requires forall i :: 0 <= i < |before| ==> IsModifierName(before[i]) && ModifierDelimiter !in before[i]
    requires !AllWhiteSpace(bad) && !IsModifierName(bad) && ModifierDelimiter !in bad
    requires forall i :: 0 <= i < |after| ==> ModifierDelimiter !in after[i]
    ensures ParseModifiers(Join(before + [bad] + after, ModifierDelimiter)) == Failure(UnsupportedModifier(Normalize(bad)))
  {
    NoSepAround(before, bad, after, ModifierDelimiter);
    SplitJoin(before + [bad] + after, ModifierDelimiter);
    ThrowsAt(before, bad, after);
  }

  lemma ThrowsAt(before: seq<string>, bad: string, after: seq<string>)
    requires forall i :: 0 <= i < |before| ==> IsModifierName(before[i])
    requires !AllWhiteSpace(bad) && !IsModifierName(bad)
    ensures ParseTokens(before + [bad] + after) == Failure(UnsupportedModifier(Normalize(bad)))
  {
    AppendAssociative(before, [bad], after);
    ParseTokensAppend(before, [bad] + after);
    TrimShape(bad);
    assert Normalize(bad) != "";
    ParseTokensCons(bad, after);
  }

  /** A name without white space at its ends that upper-cases to `token` is read as `token`. */
  lemma NameReadsAs(name: string, token: string)
    requires NoEdgeWhiteSpace(name) && |name| == |token|
    requires forall i :: 0 <= i < |name| ==> UpperChar(name[i]) == token[i]
    ensures Normalize(name) == token
  {
    TrimNoEdge(name);
    UpperShape(name);
  }

  lemma CtrlReads() ensures IsModifierName("Ctrl") && FlagOf("Ctrl") == Control {
    NameReadsAs("Ctrl", "CTRL");
    TokenCases("CTRL");
  }

  lemma AltReads() ensures IsModifierName("Alt") && FlagOf("Alt") == Alt {
    NameReadsAs("Alt", "ALT");
    TokenCases("ALT");
  }

  lemma WindowsReads() ensures IsModifierName("Windows") && FlagOf("Windows") == Windows {
    NameReadsAs("Windows", "WINDOWS");
    TokenCases("WINDOWS");
  }

  lemma ShiftReads() ensures IsModifierName("Shift") && FlagOf("Shift") == Shift {
    NameReadsAs("Shift", "SHIFT");
    TokenCases("SHIFT");
  }

  /** The names the renderer writes are read back as the flags they came from. */
  lemma DisplayNamesAreModifierNames()
    ensures IsModifierName("Ctrl") && FlagOf("Ctrl") == Control
    ensures IsModifierName("Alt") && FlagOf("Alt") == Alt
    ensures IsModifierName("Windows") && FlagOf("Windows") == Windows
    ensures IsModifierName("Shift") && FlagOf("Shift") == Shift
  {
    CtrlReads();
    AltReads();
    WindowsReads();
    ShiftReads();
  }

  predicate AllNames(names: seq<string>) {
    forall i :: 0 <= i < |names| ==> IsModifierName(names[i])
  }

  predicate IsLetter(c: char) {
    'A' <= c <= 'Z' || 'a' <= c <= 'z'
  }

  /** What the renderer writes for one flag: non-empty, free of '+', a letter at each end. */
  predicate IsDisplayName(name: string) {
    |name| >= 1 && IsLetter(name[0]) && IsLetter(name[|name| - 1]) && ModifierDelimiter !in name
  }

  predicate AllDisplayNames(names: seq<string>) {
    forall i :: 0 <= i < |names| ==> IsDisplayName(names[i])
  }

  /** The display name of each flag is read back as that flag. */
  lemma MatchModifiersReads(flag: ModifierKeys)
    requires IsFlag(flag)
    ensures IsModifierName(MatchModifiers(flag)) && FlagOf(MatchModifiers(flag)) == flag
    ensures IsDisplayName(MatchModifiers(flag))
  {
    if flag == Control {
      CtrlReads();
    } else if flag == Alt {
      AltReads();
    } else if flag == Windows {
      WindowsReads();
    } else {
      ShiftReads();
    }
  }

  /** The flag `flag` when `m` holds it, and nothing otherwise. */
  function FlagIf(m: ModifierKeys, flag: ModifierKeys): seq<ModifierKeys> {
    if m & flag == flag then [flag] else []
  }

  lemma NameIfReads(m: ModifierKeys, flag: ModifierKeys)
    requires IsFlag(flag)
    ensures AllNames(NameIf(m, flag)) && AllDisplayNames(NameIf(m, flag))
    ensures FlagList(NameIf(m, flag)) == FlagIf(m, flag)
  {
    MatchModifiersReads(flag);
    if m & flag == flag {
      assert NameIf(m, flag)[1..] == [];
    }
  }

  lemma AllNamesConcat(x: seq<string>, y: seq<string>)
    requires AllNames(x) && AllNames(y)
    ensures AllNames(x + y)
  {
  }

  lemma AllDisplayNamesConcat(x: seq<string>, y: seq<string>)
    requires AllDisplayNames(x) && AllDisplayNames(y)
    ensures AllDisplayNames(x + y)
  {
  }

  lemma {:induction false} FlagListConcat(x: seq<string>, y: seq<string>)
    requires AllNames(x) && AllNames(y)
    ensures AllNames(x + y)
    ensures FlagList(x + y) == FlagList(x) + FlagList(y)
  {
    AllNamesConcat(x, y);
    if |x| == 0 {
      AppendEmpty(y);
      AppendEmpty(FlagList(y));
    } else {
      ConsAppend(x, y);
      FlagListConcat(x[1..], y);
      AppendAssociative([FlagOf(x[0])], FlagList(x[1..]), FlagList(y));
    }
  }

  /** Reading back the rendered names gives the flags `m` holds, in rendering order. */
  lemma FlagListOfNames(m: ModifierKeys)
    ensures AllNames(FlagNames(m)) && AllDisplayNames(FlagNames(m))
    ensures FlagList(FlagNames(m)) == FlagIf(m, Control) + FlagIf(m, Alt) + FlagIf(m, Windows) + FlagIf(m, Shift)
  {
    var c, a, w, s := NameIf(m, Control), NameIf(m, Alt), NameIf(m, Windows), NameIf(m, Shift);
    NameIfReads(m, Control);
    NameIfReads(m, Alt);
    NameIfReads(m, Windows);
    NameIfReads(m, Shift);
    FlagListConcat(c, a);
    FlagListConcat(c + a, w);
    FlagListConcat(c + a + w, s);
    AllDisplayNamesConcat(c, a);
    AllDisplayNamesConcat(c + a, w);
    AllDisplayNamesConcat(c + a + w, s);
  }

  lemma {:induction false} CombineConcat(acc: ModifierKeys, a: seq<ModifierKeys>, b: seq<ModifierKeys>)
    ensures Combine(acc, a + b) == Combine(Combine(acc, a), b)
    decreases |a|
  {
    if |a| == 0 {
      AppendEmpty(b);
    } else {
      ConsAppend(a, b);
      CombineConcat(acc | a[0], a[1..], b);
    }
  }

  /** Folding in `FlagIf(m, flag)` ORs in `m`'s bit for `flag`. */
  lemma CombineIf(acc: ModifierKeys, m: ModifierKeys, flag: ModifierKeys)
    requires IsFlag(flag)
    ensures Combine(acc, FlagIf(m, flag)) == acc | (m & flag)
  {
    if m & flag == flag {
      assert Combine(acc, [flag]) == Combine(acc | flag, []);
    } else {
      assert m & flag == 0;
    }
  }

  lemma FourBits(m: ModifierKeys)
    requires m < 16
    ensures (((NoModifiers | (m & Control)) | (m & Alt)) | (m & Windows)) | (m & Shift) == m
    ensures m == NoModifiers <==> m & Control != Control && m & Alt != Alt && m & Windows != Windows && m & Shift != Shift
  {
  }

  /** The flags of `FlagNames(m)`, read back, are `m`. */
  lemma FlagNamesRead(m: ModifierKeys)
    requires IsDefinedModifierKeys(m)
    ensures AllNames(FlagNames(m))
    ensures FlagsOf(FlagNames(m)) == m
  {
    DefinedIffFourBits(m);
    var c, a, w, s := FlagIf(m, Control), FlagIf(m, Alt), FlagIf(m, Windows), FlagIf(m, Shift);
    FlagListOfNames(m);
    CombineConcat(NoModifiers, c + a + w, s);
    CombineConcat(NoModifiers, c + a, w);
    CombineConcat(NoModifiers, c, a);
    CombineIf(NoModifiers, m, Control);
    CombineIf(Combine(NoModifiers, c), m, Alt);
    CombineIf(Combine(NoModifiers, c + a), m, Windows);
    CombineIf(Combine(NoModifiers, c + a + w), m, Shift);
    FourBits(m);
  }

  /** The empty string parses to no modifiers. */
  lemma ParseEmpty()
    ensures ParseModifiers("") == Success(NoModifiers)
  {
    assert Split("", ModifierDelimiter) == [""];
    TrimNoEdge("");
    assert ParseTokens([""]) == Success([]);
  }

  lemma DisplayNamesParse(names: seq<string>)
    requires |names| >= 1 && AllNames(names) && AllDisplayNames(names)
    ensures ParseModifiers(Join(names, ModifierDelimiter)) == Success(FlagsOf(names))
  {
    assert forall i :: 0 <= i < |names| ==> IsModifierName(names[i]) && ModifierDelimiter !in names[i];
    ParseNames(names, Alt);
  }

  /** Round trip: parsing the rendering of any defined value, trimmed or not, gives the value
      back. */
  lemma RenderParseRoundTrip(m: ModifierKeys)
    requires IsDefinedModifierKeys(m)
    ensures ParseModifiers(ModifiersText(m)) == Success(m)
    ensures ParseModifiers(Trim(ModifiersText(m))) == Success(m)
  {
    var names := FlagNames(m);
    FlagNamesRead(m);
    FlagListOfNames(m);
    RenderShape(m);
    TrimNoEdge(ModifiersText(m));
    if |names| == 0 {
      ParseEmpty();
    } else {
      DisplayNamesParse(names);
    }
  }

  lemma {:induction false} JoinEnds(parts: seq<string>, sep: char)
    requires |parts| >= 1 && forall i :: 0 <= i < |parts| ==> |parts[i]| >= 1
    ensures |Join(parts, sep)| >= 1 && Join(parts, sep)[0] == parts[0][0]
    ensures Join(parts, sep)[|Join(parts, sep)| - 1] == parts[|parts| - 1][|parts[|parts| - 1]| - 1]
  {
    if |parts| > 1 {
      JoinEnds(parts[1..], sep);
    }
  }

  lemma LetterIsNoSeparator(c: char)
    requires IsLetter(c)
    ensures c != ModifierDelimiter && !IsWhiteSpace(c)
  {
  }

  /** The rendering is empty only for no modifiers, and otherwise starts and ends with a letter,
      neither '+' nor white space. */
  lemma RenderShape(m: ModifierKeys)
    requires IsDefinedModifierKeys(m)
    ensures ModifiersText(m) == "" <==> m == NoModifiers
    ensures ModifiersText(m) != "" ==> ModifiersText(m)[0] != ModifierDelimiter
    ensures ModifiersText(m) != "" ==> ModifiersText(m)[|ModifiersText(m)| - 1] != ModifierDelimiter
    ensures NoEdgeWhiteSpace(ModifiersText(m))
  {
    var names := FlagNames(m);
    DefinedIffFourBits(m);
    FourBits(m);
    FlagListOfNames(m);
    if |names| > 0 {
      JoinEnds(names, ModifierDelimiter);
      LetterIsNoSeparator(names[0][0]);
      LetterIsNoSeparator(names[|names| - 1][|names[|names| - 1]| - 1]);
    }
  }
}
