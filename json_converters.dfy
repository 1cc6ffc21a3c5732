/** The JSON form of the launcher's buttons: `LauncherButtonJsonConverter`, which reads and
    writes one button object, and `ButtonCollectionJsonConverter`, which reads and writes the
    array of them. `Utf8JsonReader` is a token sequence with a cursor, `Utf8JsonWriter` an
    object that collects the tokens written to it. */
module JsonConverters {
  import opened Wrappers
  import opened Text
  import ModifierKeysConverter
  import KeyConverter
  import KeyboardHook
  import opened Controls

  /** One token of a JSON document; numbers are integral. */
  datatype JsonToken =
    | StartObject
    | EndObject
    | StartArray
    | EndArray
    | PropertyName(name: string)
    | String(text: string)
    | Number(n: int)
    | True
    | False
    | Null

  /** The exceptions reading lets escape. */
  datatype JsonError =
    | NotAnObject          // JsonException: a button that does not start with '{'
    | NotAPropertyName     // JsonException: a member that does not start with its name
    | MissingPropertyName  // JsonException: a blank member name
    | WrongTokenType       // InvalidOperationException: GetString/GetBoolean/GetUInt* on the wrong token
    | NumberOutOfRange     // FormatException: GetUInt16/GetUInt32 on a number that does not fit
    | BadInteger           // FormatException or OverflowException from int.Parse
    | MissingCoordinate    // IndexOutOfRangeException: a grid location without a comma
    | NotAnArray           // JsonException: a collection that does not start with '['

  // ---------------------------------------------------------------------------------------
  // The reader's typed accessors.

  /** `GetString`: the text of a string or of a property name, `None` for null. */
  function GetString(t: JsonToken): (r: Result<Option<string>, JsonError>)
    ensures r.Success? <==> t.String? || t.PropertyName? || t.Null?
    ensures r.Success? && r.value.Some? ==> t == String(r.value.value) || t == PropertyName(r.value.value)
    ensures r.Success? ==> (r.value.None? <==> t.Null?)
  {
    match t
    case String(text) => Success(Some(text))
    case PropertyName(name) => Success(Some(name))
    case Null => Success(None)
    case _ => Failure(WrongTokenType)
  }

  /** `GetBoolean`. */
  function GetBoolean(t: JsonToken): (r: Result<bool, JsonError>)
    ensures r.Success? <==> t.True? || t.False?
    ensures r.Success? ==> (r.value <==> t.True?)
  {
    match t
    case True => Success(true)
    case False => Success(false)
    case _ => Failure(WrongTokenType)
  }

  /** `GetUInt16` and `GetUInt32`: a number below `bound`. */
  function GetUnsigned(t: JsonToken, bound: int): (r: Result<int, JsonError>)
    ensures r.Success? <==> t.Number? && 0 <= t.n < bound
    ensures r.Success? ==> r.value == t.n
    ensures r.Failure? ==> r.error == (if t.Number? then NumberOutOfRange else WrongTokenType)
  {
    match t
    case Number(n) => if 0 <= n < bound then Success(n) else Failure(NumberOutOfRange)
    case _ => Failure(WrongTokenType)
  }

  const UInt16Bound: int := 0x1_0000
  const UInt32Bound: int := 0x1_0000_0000

  // ---------------------------------------------------------------------------------------
  // The text forms of a grid location and of a colour.

  predicate IsByte(n: int) {
    0 <= n < 256
  }

  /** `$"{X}, {Y}"`. */
  function FormatPoint(p: Point): (text: string)
    ensures Split(text, ',') == [FormatInt(p.x), " " + FormatInt(p.y)]
    ensures !AllWhiteSpace(text)
  {
    PointText(p.x, p.y);
    FormatInt(p.x) + ", " + FormatInt(p.y)
  }

  /** The text of a grid location: two pieces, the second led by a space, and not blank. */
  lemma PointText(x: int, y: int)
    ensures Split(FormatInt(x) + ", " + FormatInt(y), ',') == [FormatInt(x), " " + FormatInt(y)]
    ensures !AllWhiteSpace(FormatInt(x) + ", " + FormatInt(y))
  {
    var a := FormatInt(x);
    var b := FormatInt(y);
    FormatIntNoComma(x);
    FormatIntNoComma(y);
    var parts := [a, " " + b];
    assert ',' !in parts[1];
    assert Join(parts, ',') == a + ", " + b by {
      assert Join(parts[1..], ',') == " " + b;
    }
    SplitJoin(parts, ',');
    assert (a + ", " + b)[0] == a[0];
  }

  /** The non-blank GridLocation text: split on ',', each of the first two pieces trimmed and
      parsed (the first one first); further pieces are ignored. */
  function ParsePoint(loc: string): (r: Result<Point, JsonError>)
    ensures r.Success? ==> IsInt32(r.value.x) && IsInt32(r.value.y)
    ensures r.Success? ==> |Split(loc, ',')| >= 2
    ensures |Split(loc, ',')| == 1 ==> r.Failure?
  {
    var coords := Split(loc, ',');
    match ParseInt32(Trim(coords[0]))
    case None => Failure(BadInteger)
    case Some(x) =>
      if |coords| < 2 then Failure(MissingCoordinate)
      else
        match ParseInt32(Trim(coords[1]))
        case None => Failure(BadInteger)
        case Some(y) => Success(Point(x, y))
  }

  /** One piece of a colour: trimmed, parsed, and within 0..255 as `Color.FromArgb` demands;
      `None` where `int.Parse` or `FromArgb` throws and the reader catches it. */
  function Component(piece: string): (c: Option<int>)
    ensures c.Some? ==> IsByte(c.value)
  {
    match ParseInt32(Trim(piece))
    case Some(n) => if IsByte(n) then Some(n) else None
    case None => None
  }

  /** The non-blank Background text: one piece names a colour; three pieces give an opaque
      red, green and blue; four give alpha, red, green and blue; anything else, and any
      piece that does not parse or lies outside 0..255, keeps `current`. */
  function ParseColor(color: string, current: Color): (c: Color)
    ensures |Split(color, ',')| == 1 ==> c == Named(color)
    ensures |Split(color, ',')| == 3 ==> c == current || (c.Argb? && c.a == 255)
    ensures |Split(color, ',')| != 1 && |Split(color, ',')| != 3 && |Split(color, ',')| != 4 ==> c == current
    ensures c == current || c == Named(color)
            || (c.Argb? && IsByte(c.a) && IsByte(c.r) && IsByte(c.g) && IsByte(c.b))
    ensures var rgb := Split(color, ',');
            |rgb| == 3 && (Component(rgb[0]).None? || Component(rgb[1]).None? || Component(rgb[2]).None?)
            ==> c == current
    ensures var argb := Split(color, ',');
            |argb| == 4 && (Component(argb[0]).None? || Component(argb[1]).None? || Component(argb[2]).None?
                            || Component(argb[3]).None?)
            ==> c == current
    ensures var rgb := Split(color, ',');
            |rgb| == 3 && Component(rgb[0]).Some? && Component(rgb[1]).Some? && Component(rgb[2]).Some? ==>
              c == Argb(255, Component(rgb[0]).value, Component(rgb[1]).value, Component(rgb[2]).value)
    ensures var argb := Split(color, ',');
            |argb| == 4 && Component(argb[0]).Some? && Component(argb[1]).Some? && Component(argb[2]).Some?
                        && Component(argb[3]).Some? ==>
              c == Argb(Component(argb[0]).value, Component(argb[1]).value, Component(argb[2]).value, Component(argb[3]).value)
  {
    var rgb := Split(color, ',');
    if |rgb| == 1 then Named(color) else ColorOfPieces(rgb, current)
  }

  /** The pieces of a Background text of more than one piece: three or four channels that
      all read give the colour, and anything else keeps `current`. */
  function ColorOfPieces(pieces: seq<string>, current: Color): (c: Color)
    ensures |pieces| != 3 && |pieces| != 4 ==> c == current
    ensures |pieces| == 3 && (Component(pieces[0]).None? || Component(pieces[1]).None? || Component(pieces[2]).None?)
            ==> c == current
    ensures |pieces| == 4 && (Component(pieces[0]).None? || Component(pieces[1]).None? || Component(pieces[2]).None?
                              || Component(pieces[3]).None?)
            ==> c == current
    ensures |pieces| == 3 && Component(pieces[0]).Some? && Component(pieces[1]).Some? && Component(pieces[2]).Some? ==>
              c == Argb(255, Component(pieces[0]).value, Component(pieces[1]).value, Component(pieces[2]).value)
    ensures |pieces| == 4 && Component(pieces[0]).Some? && Component(pieces[1]).Some? && Component(pieces[2]).Some?
                          && Component(pieces[3]).Some? ==>
              c == Argb(Component(pieces[0]).value, Component(pieces[1]).value, Component(pieces[2]).value, Component(pieces[3]).value)
    ensures c == current || (c.Argb? && IsByte(c.a) && IsByte(c.r) && IsByte(c.g) && IsByte(c.b))
  {
    if |pieces| == 3 then
      match (Component(pieces[0]), Component(pieces[1]), Component(pieces[2]))
      case (Some(r), Some(g), Some(b)) => Argb(255, r, g, b)
      case _ => current
    else if |pieces| == 4 then
      match (Component(pieces[0]), Component(pieces[1]), Component(pieces[2]), Component(pieces[3]))
      case (Some(a), Some(r), Some(g), Some(b)) => Argb(a, r, g, b)
      case _ => current
    else current
  }

  /** `ColorToString`: a named colour by its name, any other by red, green and blue. */
  function ColorToString(c: Color): (text: string)
    ensures c.Named? ==> text == c.name
    ensures c.Argb? ==> Split(text, ',') == [FormatInt(c.r), " " + FormatInt(c.g), " " + FormatInt(c.b)]
    ensures c.Argb? ==> !AllWhiteSpace(text)
  {
    match c
    case Named(name) => name
    case Argb(_, r, g, b) =>
      ArgbText(r, g, b);
      FormatInt(r) + ", " + FormatInt(g) + ", " + FormatInt(b)
  }

  // ---------------------------------------------------------------------------------------
  // Reading one button.

  /** The fields a JSON object can set; the others (location, default background, hot-key id)
      keep what the constructor gave them. */
  predicate OnlyPersistedFieldsChanged(s: ButtonState, t: ButtonState) {
    t.location == s.location && t.defaultBack == s.defaultBack && t.hotKeyId == s.hotKeyId
  }

  /** The property switch: the member `name` with value token `value`; unknown names are
      skipped. */
  function ApplyProperty(s: ButtonState, name: string, value: JsonToken): (r: Result<ButtonState, JsonError>)
    ensures r.Success? ==> OnlyPersistedFieldsChanged(s, r.value)
  {
    match name
    case "Caption" | "Path" | "Arguments" => TextProperty(s, name, value)
    case "GridLocation" => GridLocationProperty(s, value)
    case "Background" => BackgroundProperty(s, value)
    case "AdminOnly" | "HasHotKeySet" => BooleanProperty(s, name, value)
    case "ReferenceType" | "TargetBrowser" | "KeyModifiers" => ShortProperty(s, name, value)
    case "KeyTarget" => KeyTargetProperty(s, value)
    case _ => Success(s)
  }

  /** `reader.GetString() ?? ""` into Caption, Path or Arguments. */
  function TextProperty(s: ButtonState, name: string, value: JsonToken): (r: Result<ButtonState, JsonError>)
    requires name == "Caption" || name == "Path" || name == "Arguments"
  {
    var text :- GetString(value);
    if name == "Caption" then Success(s.(caption := text.GetOr("")))
    else if name == "Path" then Success(s.(path := Some(text.GetOr(""))))
    else Success(s.(arguments := Some(text.GetOr(""))))
  }

  /** The GridLocation case: blank text is the origin, anything else "X, Y". */
  function GridLocationProperty(s: ButtonState, value: JsonToken): (r: Result<ButtonState, JsonError>) {
    var loc :- GetString(value);
    if IsNullOrWhiteSpace(loc) then Success(s.(gridLocation := Point(0, 0)))
    else
      var p :- ParsePoint(loc.value);
      Success(s.(gridLocation := p))
  }

  /** The Background case: blank text keeps the colour. */
  function BackgroundProperty(s: ButtonState, value: JsonToken): (r: Result<ButtonState, JsonError>) {
    var color :- GetString(value);
    if IsNullOrWhiteSpace(color) then Success(s)
    else Success(s.(background := ParseColor(color.value, s.background)))
  }

  /** `reader.GetBoolean()` into AdminOnly or HasHotKeySet. */
  function BooleanProperty(s: ButtonState, name: string, value: JsonToken): (r: Result<ButtonState, JsonError>)
    requires name == "AdminOnly" || name == "HasHotKeySet"
  {
    var b :- GetBoolean(value);
    if name == "AdminOnly" then Success(s.(adminOnly := b)) else Success(s.(hasHotKeySet := b))
  }

  /** `reader.GetUInt16()` cast to RefType, Browser or ModifierKeys: the casts check nothing. */
  function ShortProperty(s: ButtonState, name: string, value: JsonToken): (r: Result<ButtonState, JsonError>)
    requires name == "ReferenceType" || name == "TargetBrowser" || name == "KeyModifiers"
  {
    var n :- GetUnsigned(value, UInt16Bound);
    if name == "ReferenceType" then Success(s.(referenceType := n as RefType))
    else if name == "TargetBrowser" then Success(s.(targetBrowser := n as Browser))
    else Success(s.(keyModifiers := n as ModifierKeysConverter.ModifierKeys))
  }

  /** `reader.GetUInt32()` cast to Key: the bits read as a signed value, unchecked. */
  function KeyTargetProperty(s: ButtonState, value: JsonToken): (r: Result<ButtonState, JsonError>) {
    var n :- GetUnsigned(value, UInt32Bound);
    Success(s.(keyTarget := KeyboardHook.AsInt32Bits(n) as KeyConverter.Key))
  }

  /** The `while (reader.Read())` loop with the cursor on `tokens[pos]`: it stops at the end
      of the tokens or at an EndObject, and otherwise takes a property name, moves to its
      value (staying put when there is none) and applies the member. */
  function ReadProperties(tokens: seq<JsonToken>, pos: nat, s: ButtonState): (r: Result<(ButtonState, nat), JsonError>)
    requires pos < |tokens|
    ensures r.Success? ==> pos <= r.value.1 < |tokens|
    ensures r.Success? ==> r.value.1 == |tokens| - 1 || tokens[r.value.1] == EndObject
    ensures r.Success? ==> OnlyPersistedFieldsChanged(s, r.value.0)
    decreases |tokens| - pos
  {
    if pos + 1 >= |tokens| then Success((s, pos))
    else
      var p := pos + 1;
      match tokens[p]
      case EndObject => Success((s, p))
      case PropertyName(name) =>
        if IsNullOrWhiteSpace(Some(name)) then Failure(MissingPropertyName)
        else
          var v := if p + 1 < |tokens| then p + 1 else p;
          (match ApplyProperty(s, name, tokens[v])
           case Failure(e) => Failure(e)
           case Success(t) => ReadProperties(tokens, v, t))
      case _ => Failure(NotAPropertyName)
  }

  /** `LauncherButtonJsonConverter.Read` from the cursor at `start`, onto the state `initial`
      of a freshly constructed button: the button and where the cursor ends. */
  function ReadObject(tokens: seq<JsonToken>, start: nat, initial: ButtonState): (r: Result<(ButtonState, nat), JsonError>)
    requires start < |tokens|
    ensures tokens[start] != StartObject ==> r == Failure(NotAnObject)
    ensures r.Success? ==> start <= r.value.1 < |tokens| && OnlyPersistedFieldsChanged(initial, r.value.0)
  {
    if tokens[start] != StartObject then Failure(NotAnObject)
    else ReadProperties(tokens, start, initial)
  }

  /** The state of `new LauncherButton()`. */
  function NewButton(env: Env, darkMode: bool): (s: ButtonState)
    ensures s.caption == "" && s.gridLocation == Point(0, 0) && s.location == Point(0, 0) && !s.adminOnly
    ensures s.defaultBack == DefaultBackColor(darkMode) && s.background == s.defaultBack
    ensures !s.hasHotKeySet && s.keyModifiers == ModifierKeysConverter.NoModifiers
    ensures s.keyTarget == KeyConverter.Key.None && s.hotKeyId == -1
  {
    Constructed(env, darkMode, "", "", Point(0, 0), "", false, None, RefType.Undetermined, Browser.None)
  }

  /** The property switch on a live button. */
  method ReadProperty(button: LauncherButton, name: string, value: JsonToken) returns (r: Result<(), JsonError>)
    modifies button
    ensures r.Success? <==> ApplyProperty(old(button.State()), name, value).Success?
    ensures r.Success? ==> button.State() == ApplyProperty(old(button.State()), name, value).value
    ensures r.Failure? ==> r.error == ApplyProperty(old(button.State()), name, value).error
  {
    match name
    case "Caption" | "Path" | "Arguments" =>
      r := ReadTextProperty(button, name, value);
    case "GridLocation" =>
      r := ReadGridLocation(button, value);
    case "Background" =>
      r := ReadBackground(button, value);
    case "AdminOnly" | "HasHotKeySet" =>
      r := ReadBooleanProperty(button, name, value);
    case "ReferenceType" | "TargetBrowser" | "KeyModifiers" =>
      r := ReadShortProperty(button, name, value);
    case "KeyTarget" =>
      r := ReadKeyTarget(button, value);
    case _ =>
      r := Success(());
  }

  method ReadTextProperty(button: LauncherButton, name: string, value: JsonToken) returns (r: Result<(), JsonError>)
    requires name == "Caption" || name == "Path" || name == "Arguments"
    modifies button
    ensures r.Success? <==> TextProperty(old(button.State()), name, value).Success?
    ensures r.Success? ==> button.State() == TextProperty(old(button.State()), name, value).value
    ensures r.Failure? ==> r.error == TextProperty(old(button.State()), name, value).error
  {
    var text :- GetString(value);
    if name == "Caption" {
      button.caption := text.GetOr("");
    } else if name == "Path" {
      button.path := Some(text.GetOr(""));
    } else {
      button.arguments := Some(text.GetOr(""));
    }
    r := Success(());
  }

  method ReadGridLocation(button: LauncherButton, value: JsonToken) returns (r: Result<(), JsonError>)
    modifies button
    ensures r.Success? <==> GridLocationProperty(old(button.State()), value).Success?
    ensures r.Success? ==> button.State() == GridLocationProperty(old(button.State()), value).value
    ensures r.Failure? ==> r.error == GridLocationProperty(old(button.State()), value).error
  {
    var loc :- GetString(value);
    if IsNullOrWhiteSpace(loc) {
      button.gridLocation := Point(0, 0);
    } else {
      var p :- ParsePoint(loc.value);
      button.gridLocation := p;
    }
    r := Success(());
  }

  method ReadBackground(button: LauncherButton, value: JsonToken) returns (r: Result<(), JsonError>)
    modifies button
    ensures r.Success? <==> BackgroundProperty(old(button.State()), value).Success?
    ensures r.Success? ==> button.State() == BackgroundProperty(old(button.State()), value).value
    ensures r.Failure? ==> r.error == BackgroundProperty(old(button.State()), value).error
  {
    var color :- GetString(value);
    if !IsNullOrWhiteSpace(color) {
      button.background := ParseColor(color.value, button.background);
    }
    r := Success(());
  }

  method ReadBooleanProperty(button: LauncherButton, name: string, value: JsonToken) returns (r: Result<(), JsonError>)
    requires name == "AdminOnly" || name == "HasHotKeySet"
    modifies button
    ensures r.Success? <==> BooleanProperty(old(button.State()), name, value).Success?
    ensures r.Success? ==> button.State() == BooleanProperty(old(button.State()), name, value).value
    ensures r.Failure? ==> r.error == BooleanProperty(old(button.State()), name, value).error
  {
    var b :- GetBoolean(value);
    if name == "AdminOnly" {
      button.adminOnly := b;
    } else {
      button.hasHotKeySet := b;
    }
    r := Success(());
  }

  method ReadShortProperty(button: LauncherButton, name: string, value: JsonToken) returns (r: Result<(), JsonError>)
    requires name == "ReferenceType" || name == "TargetBrowser" || name == "KeyModifiers"
    modifies button
    ensures r.Success? <==> ShortProperty(old(button.State()), name, value).Success?
    ensures r.Success? ==> button.State() == ShortProperty(old(button.State()), name, value).value
    ensures r.Failure? ==> r.error == ShortProperty(old(button.State()), name, value).error
  {
    var n :- GetUnsigned(value, UInt16Bound);
    if name == "ReferenceType" {
      button.referenceType := n as RefType;
    } else if name == "TargetBrowser" {
      button.targetBrowser := n as Browser;
    } else {
      button.keyModifiers := n as ModifierKeysConverter.ModifierKeys;
    }
    r := Success(());
  }

  method ReadKeyTarget(button: LauncherButton, value: JsonToken) returns (r: Result<(), JsonError>)
    modifies button
    ensures r.Success? <==> KeyTargetProperty(old(button.State()), value).Success?
    ensures r.Success? ==> button.State() == KeyTargetProperty(old(button.State()), value).value
    ensures r.Failure? ==> r.error == KeyTargetProperty(old(button.State()), value).error
  {
    var n :- GetUnsigned(value, UInt32Bound);
    button.keyTarget := KeyboardHook.AsInt32Bits(n) as KeyConverter.Key;
    r := Success(());
  }

  /** `LauncherButtonJsonConverter.Read`: a new button filled from the object at `start`, and
      the cursor position it leaves. */
  method ReadButton(tokens: seq<JsonToken>, start: nat, env: Env, darkMode: bool)
      returns (r: Result<(LauncherButton, nat), JsonError>)
    requires start < |tokens|
    ensures r.Success? ==> fresh(r.value.0)
    ensures match ReadObject(tokens, start, NewButton(env, darkMode))
            case Success(read) => r.Success? && r.value.0.State() == read.0 && r.value.1 == read.1
            case Failure(e) => r == Failure(e)
  {
    if tokens[start] != StartObject {
      return Failure(NotAnObject);
    }
    var button := new LauncherButton(env, darkMode, "", "", Point(0, 0), "", false, None,
                                     RefType.Undetermined, Browser.None);
    var pos := start;
    while pos + 1 < |tokens|
      invariant start <= pos < |tokens|
      invariant fresh(button)
      invariant ReadProperties(tokens, pos, button.State()) == ReadObject(tokens, start, NewButton(env, darkMode))
      decreases |tokens| - pos
    {
      pos := pos + 1;
      if tokens[pos] == EndObject {
        return Success((button, pos));
      }
      if !tokens[pos].PropertyName? {
        return Failure(NotAPropertyName);
      }
      var propertyName := tokens[pos].name;
      if IsNullOrWhiteSpace(Some(propertyName)) {
        return Failure(MissingPropertyName);
      }
      if pos + 1 < |tokens| {
        pos := pos + 1;
      }
      var outcome := ReadProperty(button, propertyName, tokens[pos]);
      if outcome.Failure? {
        return Failure(outcome.error);
      }
    }
    return Success((button, pos));
  }

  // ---------------------------------------------------------------------------------------
  // Reading the collection.

  /** The buttons' states, in list order. */
  function States(buttons: seq<LauncherButton>): (states: seq<ButtonState>)
    reads set b | b in buttons
    ensures |states| == |buttons|
    ensures forall i :: 0 <= i < |buttons| ==> states[i] == buttons[i].State()
  {
    if |buttons| == 0 then []
    else States(buttons[..|buttons| - 1]) + [buttons[|buttons| - 1].State()]
  }

  /** The collection reader's loop with the cursor on `tokens[pos]` and `read` the buttons so
      far: it stops at the end of the tokens or at an EndArray, skips a null element and
      otherwise reads one button with the button converter. */
  function ReadElements(tokens: seq<JsonToken>, pos: nat, read: seq<ButtonState>, initial: ButtonState)
      : (r: Result<(seq<ButtonState>, nat), JsonError>)
    requires pos < |tokens|
    ensures r.Success? ==> pos <= r.value.1 < |tokens|
    ensures r.Success? ==> |read| <= |r.value.0| && r.value.0[..|read|] == read
    decreases |tokens| - pos
  {
    if pos + 1 >= |tokens| then Success((read, pos))
    else
      var p := pos + 1;
      if tokens[p] == EndArray then Success((read, p))
      else if tokens[p] == Null then ReadElements(tokens, p, read, initial)
      else
        match ReadObject(tokens, p, initial)
        case Failure(e) => Failure(e)
        case Success((b, end)) => ReadElements(tokens, end, read + [b], initial)
  }

  /** `ButtonCollectionJsonConverter.Read` from the cursor at `start`. */
  function ReadArray(tokens: seq<JsonToken>, start: nat, initial: ButtonState): (r: Result<(seq<ButtonState>, nat), JsonError>)
    requires start < |tokens|
    ensures tokens[start] != StartArray ==> r == Failure(NotAnArray)
  {
    if tokens[start] != StartArray then Failure(NotAnArray)
    else ReadElements(tokens, start, [], initial)
  }

  /** `ButtonCollectionJsonConverter.Read`: the buttons of the array at `start`, in document
      order, and the cursor position it leaves. */
  method ReadCollection(tokens: seq<JsonToken>, start: nat, env: Env, darkMode: bool)
      returns (r: Result<(seq<LauncherButton>, nat), JsonError>)
    requires start < |tokens|
    ensures r.Success? ==> forall b :: b in r.value.0 ==> fresh(b)
    ensures match ReadArray(tokens, start, NewButton(env, darkMode))
            case Success(read) => r.Success? && States(r.value.0) == read.0 && r.value.1 == read.1
            case Failure(e) => r == Failure(e)
  {
    if tokens[start] != StartArray {
      return Failure(NotAnArray);
    }
    var buttons: seq<LauncherButton> := [];
    ghost var read: seq<ButtonState> := [];
    var pos := start;
    while pos + 1 < |tokens|
      invariant start <= pos < |tokens|
      invariant forall b :: b in buttons ==> fresh(b)
      invariant |buttons| == |read|
      invariant forall i :: 0 <= i < |buttons| ==> buttons[i].State() == read[i]
      invariant ReadElements(tokens, pos, read, NewButton(env, darkMode))
                == ReadArray(tokens, start, NewButton(env, darkMode))
      decreases |tokens| - pos
    {
      pos := pos + 1;
      if tokens[pos] == EndArray {
        assert States(buttons) == read;
        return Success((buttons, pos));
      }
      if tokens[pos] != Null {
        var element := ReadButton(tokens, pos, env, darkMode);
        if element.Failure? {
          return Failure(element.error);
        }
        buttons := buttons + [element.value.0];
        read := read + [element.value.0.State()];
        pos := element.value.1;
      }
    }
    assert States(buttons) == read;
    return Success((buttons, pos));
  }

  // ---------------------------------------------------------------------------------------
  // Writing.

  /** `Utf8JsonWriter`: the tokens written so far. */
  class JsonWriter {
    var tokens: seq<JsonToken>

    constructor()
      ensures tokens == []
    {
      tokens := [];
    }

    method WriteStartObject()
      modifies this
      ensures tokens == old(tokens) + [StartObject]
    {
      tokens := tokens + [StartObject];
    }

    method WriteEndObject()
      modifies this
      ensures tokens == old(tokens) + [EndObject]
    {
      tokens := tokens + [EndObject];
    }

    method WriteStartArray()
      modifies this
      ensures tokens == old(tokens) + [StartArray]
    {
      tokens := tokens + [StartArray];
    }

    method WriteEndArray()
      modifies this
      ensures tokens == old(tokens) + [EndArray]
    {
      tokens := tokens + [EndArray];
    }

    method WritePropertyName(name: string)
      modifies this
      ensures tokens == old(tokens) + [PropertyName(name)]
    {
      tokens := tokens + [PropertyName(name)];
    }

    method WriteStringValue(text: string)
      modifies this
      ensures tokens == old(tokens) + [String(text)]
    {
      tokens := tokens + [String(text)];
    }

    method WriteBooleanValue(b: bool)
      modifies this
      ensures tokens == old(tokens) + [BooleanToken(b)]
    {
      tokens := tokens + [BooleanToken(b)];
    }

    method WriteNumberValue(n: int)
      modifies this
      ensures tokens == old(tokens) + [Number(n)]
    {
      tokens := tokens + [Number(n)];
    }

    method WriteNullValue()
      modifies this
      ensures tokens == old(tokens) + [Null]
    {
      tokens := tokens + [Null];
    }
  }

  function BooleanToken(b: bool): JsonToken {
    if b then True else False
  }

  /** The members `Write` emits for a button, in order: the three texts (null as ""), the
      grid location as "X, Y", the flags, the colour text and the enums as their integers. */
  function WrittenProperties(s: ButtonState): seq<(string, JsonToken)> {
    Members(s.caption, s.path.GetOr(""), s.arguments.GetOr(""), FormatPoint(s.gridLocation), s.adminOnly,
            ColorToString(s.background), s.referenceType as int, s.targetBrowser as int, s.hasHotKeySet,
            ModifierKeysConverter.AsInt32(s.keyModifiers), s.keyTarget as int)
  }

  /** The eleven members over the texts, flags and numbers already computed from a button. */
  function Members(caption: string, path: string, arguments: string, grid: string, adminOnly: bool,
                   background: string, refType: int, browser: int, hasHotKey: bool, modifiers: int, key: int)
    : seq<(string, JsonToken)>
  {
    [("Caption", String(caption)),
     ("Path", String(path)),
     ("Arguments", String(arguments)),
     ("GridLocation", String(grid)),
     ("AdminOnly", BooleanToken(adminOnly)),
     ("Background", String(background)),
     ("ReferenceType", Number(refType)),
     ("TargetBrowser", Number(browser)),
     ("HasHotKeySet", BooleanToken(hasHotKey)),
     ("KeyModifiers", Number(modifiers)),
     ("KeyTarget", Number(key))]
  }

  /** The members one by one; stated over plain values, so that using it for a button does
      not unfold the button's fields into the list. */
  lemma MembersShape(caption: string, path: string, arguments: string, grid: string, adminOnly: bool,
                     background: string, refType: int, browser: int, hasHotKey: bool, modifiers: int, key: int)
    ensures var P := Members(caption, path, arguments, grid, adminOnly, background, refType, browser, hasHotKey, modifiers, key);
      && |P| == 11
      && P[0] == ("Caption", String(caption))
      && P[1] == ("Path", String(path))
      && P[2] == ("Arguments", String(arguments))
      && P[3] == ("GridLocation", String(grid))
      && P[4] == ("AdminOnly", BooleanToken(adminOnly))
      && P[5] == ("Background", String(background))
      && P[6] == ("ReferenceType", Number(refType))
      && P[7] == ("TargetBrowser", Number(browser))
      && P[8] == ("HasHotKeySet", BooleanToken(hasHotKey))
      && P[9] == ("KeyModifiers", Number(modifiers))
      && P[10] == ("KeyTarget", Number(key))
  {
  }

  /** No member name is blank. */
  lemma MemberNamesNotBlank(caption: string, path: string, arguments: string, grid: string, adminOnly: bool,
                            background: string, refType: int, browser: int, hasHotKey: bool, modifiers: int, key: int)
    ensures var P := Members(caption, path, arguments, grid, adminOnly, background, refType, browser, hasHotKey, modifiers, key);
      forall k :: 0 <= k < |P| ==> !AllWhiteSpace(P[k].0)
  {
    var P := Members(caption, path, arguments, grid, adminOnly, background, refType, browser, hasHotKey, modifiers, key);
    forall k | 0 <= k < |P|
      ensures !AllWhiteSpace(P[k].0)
    {
      assert |P[k].0| > 0 && 'A' <= P[k].0[0] <= 'Z';
    }
  }

  /** `MembersShape` for the members of a button. */
  lemma WrittenShape(s: ButtonState)
    ensures WrittenProperties(s) == Members(s.caption, s.path.GetOr(""), s.arguments.GetOr(""), FormatPoint(s.gridLocation), s.adminOnly,
            ColorToString(s.background), s.referenceType as int, s.targetBrowser as int, s.hasHotKeySet,
            ModifierKeysConverter.AsInt32(s.keyModifiers), s.keyTarget as int)
    ensures |WrittenProperties(s)| == 11
  {
    MembersShape(s.caption, s.path.GetOr(""), s.arguments.GetOr(""), FormatPoint(s.gridLocation), s.adminOnly,
                 ColorToString(s.background), s.referenceType as int, s.targetBrowser as int, s.hasHotKeySet,
                 ModifierKeysConverter.AsInt32(s.keyModifiers), s.keyTarget as int);
  }

  /** The tokens of the members `props[i..]`: each name followed by its value. */
  function MemberTokens(props: seq<(string, JsonToken)>, i: nat): (t: seq<JsonToken>)
    requires i <= |props|
    ensures |t| == 2 * (|props| - i)
    decreases |props| - i
  {
    if i == |props| then [] else [PropertyName(props[i].0), props[i].1] + MemberTokens(props, i + 1)
  }

  /** An object holding the members `props`. */
  function ObjectTokens(props: seq<(string, JsonToken)>): seq<JsonToken> {
    [StartObject] + MemberTokens(props, 0) + [EndObject]
  }

  /** The object `Write` emits for a button. */
  function ButtonTokens(s: ButtonState): seq<JsonToken> {
    ObjectTokens(WrittenProperties(s))
  }

  /** Writing one more member moves it from the members still to come to the tokens written. */
  lemma MemberStep(written: seq<JsonToken>, props: seq<(string, JsonToken)>, k: nat)
    requires k < |props|
    ensures written + MemberTokens(props, k)
            == written + [PropertyName(props[k].0)] + [props[k].1] + MemberTokens(props, k + 1)
  {
  }

  /** Members 0 to 1 of a written object. */
  lemma MembersFrom0(caption: string, path: string, arguments: string, grid: string, adminOnly: bool,
                      background: string, refType: int, browser: int, hasHotKey: bool, modifiers: int, key: int, written: seq<JsonToken>)
    ensures var P := Members(caption, path, arguments, grid, adminOnly, background, refType, browser, hasHotKey, modifiers, key);
            written + MemberTokens(P, 0)
            == written
            + [PropertyName("Caption")] + [String(caption)]
            + [PropertyName("Path")] + [String(path)]
            + MemberTokens(P, 2)
  {
    var P := Members(caption, path, arguments, grid, adminOnly, background, refType, browser, hasHotKey, modifiers, key);
    MembersShape(caption, path, arguments, grid, adminOnly, background, refType, browser, hasHotKey, modifiers, key);
    var w := written;
    MemberStep(w, P, 0);
    w := w + [PropertyName("Caption")] + [String(caption)];
    MemberStep(w, P, 1);
    w := w + [PropertyName("Path")] + [String(path)];
  }

  /** Members 2 to 3 of a written object. */
  lemma MembersFrom2(caption: string, path: string, arguments: string, grid: string, adminOnly: bool,
                      background: string, refType: int, browser: int, hasHotKey: bool, modifiers: int, key: int, written: seq<JsonToken>)
    ensures var P := Members(caption, path, arguments, grid, adminOnly, background, refType, browser, hasHotKey, modifiers, key);
            written + MemberTokens(P, 2)
            == written
            + [PropertyName("Arguments")] + [String(arguments)]
            + [PropertyName("GridLocation")] + [String(grid)]
            + MemberTokens(P, 4)
  {
    var P := Members(caption, path, arguments, grid, adminOnly, background, refType, browser, hasHotKey, modifiers, key);
    MembersShape(caption, path, arguments, grid, adminOnly, background, refType, browser, hasHotKey, modifiers, key);
    var w := written;
    MemberStep(w, P, 2);
    w := w + [PropertyName("Arguments")] + [String(arguments)];
    MemberStep(w, P, 3);
    w := w + [PropertyName("GridLocation")] + [String(grid)];
  }

  /** Members 4 to 5 of a written object. */
  lemma MembersFrom4(caption: string, path: string, arguments: string, grid: string, adminOnly: bool,
                      background: string, refType: int, browser: int, hasHotKey: bool, modifiers: int, key: int, written: seq<JsonToken>)
    ensures var P := Members(caption, path, arguments, grid, adminOnly, background, refType, browser, hasHotKey, modifiers, key);
            written + MemberTokens(P, 4)
            == written
            + [PropertyName("AdminOnly")] + [BooleanToken(adminOnly)]
            + [PropertyName("Background")] + [String(background)]
            + MemberTokens(P, 6)
  {
    var P := Members(caption, path, arguments, grid, adminOnly, background, refType, browser, hasHotKey, modifiers, key);
    MembersShape(caption, path, arguments, grid, adminOnly, background, refType, browser, hasHotKey, modifiers, key);
    var w := written;
    MemberStep(w, P, 4);
    w := w + [PropertyName("AdminOnly")] + [BooleanToken(adminOnly)];
    MemberStep(w, P, 5);
    w := w + [PropertyName("Background")] + [String(background)];
  }

  /** Members 6 to 8 of a written object. */
  lemma MembersFrom6(caption: string, path: string, arguments: string, grid: string, adminOnly: bool,
                      background: string, refType: int, browser: int, hasHotKey: bool, modifiers: int, key: int, written: seq<JsonToken>)
    ensures var P := Members(caption, path, arguments, grid, adminOnly, background, refType, browser, hasHotKey, modifiers, key);
            written + MemberTokens(P, 6)
            == written
            + [PropertyName("ReferenceType")] + [Number(refType)]
            + [PropertyName("TargetBrowser")] + [Number(browser)]
            + [PropertyName("HasHotKeySet")] + [BooleanToken(hasHotKey)]
            + MemberTokens(P, 9)
  {
    var P := Members(caption, path, arguments, grid, adminOnly, background, refType, browser, hasHotKey, modifiers, key);
    MembersShape(caption, path, arguments, grid, adminOnly, background, refType, browser, hasHotKey, modifiers, key);
    var w := written;
    MemberStep(w, P, 6);
    w := w + [PropertyName("ReferenceType")] + [Number(refType)];
    MemberStep(w, P, 7);
    w := w + [PropertyName("TargetBrowser")] + [Number(browser)];
    MemberStep(w, P, 8);
    w := w + [PropertyName("HasHotKeySet")] + [BooleanToken(hasHotKey)];
  }

  /** Members 9 to 10 of a written object. */
  lemma MembersFrom9(caption: string, path: string, arguments: string, grid: string, adminOnly: bool,
                      background: string, refType: int, browser: int, hasHotKey: bool, modifiers: int, key: int, written: seq<JsonToken>)
    ensures var P := Members(caption, path, arguments, grid, adminOnly, background, refType, browser, hasHotKey, modifiers, key);
            written + MemberTokens(P, 9)
            == written
            + [PropertyName("KeyModifiers")] + [Number(modifiers)]
            + [PropertyName("KeyTarget")] + [Number(key)]
            + MemberTokens(P, 11)
  {
    var P := Members(caption, path, arguments, grid, adminOnly, background, refType, browser, hasHotKey, modifiers, key);
    MembersShape(caption, path, arguments, grid, adminOnly, background, refType, browser, hasHotKey, modifiers, key);
    var w := written;
    MemberStep(w, P, 9);
    w := w + [PropertyName("KeyModifiers")] + [Number(modifiers)];
    MemberStep(w, P, 10);
    w := w + [PropertyName("KeyTarget")] + [Number(key)];
  }

  /** The object of the eleven members, name and value in turn. */
  lemma MembersSpelled(caption: string, path: string, arguments: string, grid: string, adminOnly: bool,
                      background: string, refType: int, browser: int, hasHotKey: bool, modifiers: int, key: int)
    ensures [StartObject] + MemberTokens(Members(caption, path, arguments, grid, adminOnly, background, refType, browser, hasHotKey, modifiers, key), 0) + [EndObject]
            == [StartObject]
            + [PropertyName("Caption")] + [String(caption)]
            + [PropertyName("Path")] + [String(path)]
            + [PropertyName("Arguments")] + [String(arguments)]
            + [PropertyName("GridLocation")] + [String(grid)]
            + [PropertyName("AdminOnly")] + [BooleanToken(adminOnly)]
            + [PropertyName("Background")] + [String(background)]
            + [PropertyName("ReferenceType")] + [Number(refType)]
            + [PropertyName("TargetBrowser")] + [Number(browser)]
            + [PropertyName("HasHotKeySet")] + [BooleanToken(hasHotKey)]
            + [PropertyName("KeyModifiers")] + [Number(modifiers)]
            + [PropertyName("KeyTarget")] + [Number(key)]
            + [EndObject]
  {
    MembersFrom0(caption, path, arguments, grid, adminOnly, background, refType, browser, hasHotKey, modifiers, key, [StartObject]);
    MembersFrom2(caption, path, arguments, grid, adminOnly, background, refType, browser, hasHotKey, modifiers, key, [StartObject] + [PropertyName("Caption")] + [String(caption)] + [PropertyName("Path")] + [String(path)]);
    MembersFrom4(caption, path, arguments, grid, adminOnly, background, refType, browser, hasHotKey, modifiers, key, [StartObject] + [PropertyName("Caption")] + [String(caption)] + [PropertyName("Path")] + [String(path)] + [PropertyName("Arguments")] + [String(arguments)] + [PropertyName("GridLocation")] + [String(grid)]);
    MembersFrom6(caption, path, arguments, grid, adminOnly, background, refType, browser, hasHotKey, modifiers, key, [StartObject] + [PropertyName("Caption")] + [String(caption)] + [PropertyName("Path")] + [String(path)] + [PropertyName("Arguments")] + [String(arguments)] + [PropertyName("GridLocation")] + [String(grid)] + [PropertyName("AdminOnly")] + [BooleanToken(adminOnly)] + [PropertyName("Background")] + [String(background)]);
    MembersFrom9(caption, path, arguments, grid, adminOnly, background, refType, browser, hasHotKey, modifiers, key, [StartObject] + [PropertyName("Caption")] + [String(caption)] + [PropertyName("Path")] + [String(path)] + [PropertyName("Arguments")] + [String(arguments)] + [PropertyName("GridLocation")] + [String(grid)] + [PropertyName("AdminOnly")] + [BooleanToken(adminOnly)] + [PropertyName("Background")] + [String(background)] + [PropertyName("ReferenceType")] + [Number(refType)] + [PropertyName("TargetBrowser")] + [Number(browser)] + [PropertyName("HasHotKeySet")] + [BooleanToken(hasHotKey)]);
    assert MemberTokens(Members(caption, path, arguments, grid, adminOnly, background, refType, browser, hasHotKey, modifiers, key), 11) == [];
  }

  /** The object token by token, in the order `Write` emits it. */
  lemma ButtonTokensSpelled(s: ButtonState)
    ensures ButtonTokens(s) == [StartObject]
            + [PropertyName("Caption")] + [String(s.caption)]
            + [PropertyName("Path")] + [String(s.path.GetOr(""))]
            + [PropertyName("Arguments")] + [String(s.arguments.GetOr(""))]
            + [PropertyName("GridLocation")] + [String(FormatPoint(s.gridLocation))]
            + [PropertyName("AdminOnly")] + [BooleanToken(s.adminOnly)]
            + [PropertyName("Background")] + [String(ColorToString(s.background))]
            + [PropertyName("ReferenceType")] + [Number(s.referenceType as int)]
            + [PropertyName("TargetBrowser")] + [Number(s.targetBrowser as int)]
            + [PropertyName("HasHotKeySet")] + [BooleanToken(s.hasHotKeySet)]
            + [PropertyName("KeyModifiers")] + [Number(ModifierKeysConverter.AsInt32(s.keyModifiers))]
            + [PropertyName("KeyTarget")] + [Number(s.keyTarget as int)]
            + [EndObject]
  {
    WrittenShape(s);
    MembersSpelled(s.caption, s.path.GetOr(""), s.arguments.GetOr(""), FormatPoint(s.gridLocation), s.adminOnly,
                   ColorToString(s.background), s.referenceType as int, s.targetBrowser as int, s.hasHotKeySet,
                   ModifierKeysConverter.AsInt32(s.keyModifiers), s.keyTarget as int);
  }

  /** `LauncherButtonJsonConverter.Write`: `null` for a null button, its object otherwise. */
  method WriteButton(writer: JsonWriter, button: LauncherButton?)
    modifies writer
    ensures writer.tokens == old(writer.tokens) + (if button == null then [Null] else ButtonTokens(button.State()))
  {
    if button == null {
      writer.WriteNullValue();
    } else {
      var s := button.State();
      ghost var out: seq<JsonToken> := [];
      writer.WriteStartObject();
      assert out + [StartObject] == [StartObject];
      out := out + [StartObject];
      writer.WritePropertyName("Caption");
      AppendAssociative(old(writer.tokens), out, [PropertyName("Caption")]);
      out := out + [PropertyName("Caption")];
      writer.WriteStringValue(s.caption);
      AppendAssociative(old(writer.tokens), out, [String(s.caption)]);
      out := out + [String(s.caption)];
      writer.WritePropertyName("Path");
      AppendAssociative(old(writer.tokens), out, [PropertyName("Path")]);
      out := out + [PropertyName("Path")];
      writer.WriteStringValue(s.path.GetOr(""));
      AppendAssociative(old(writer.tokens), out, [String(s.path.GetOr(""))]);
      out := out + [String(s.path.GetOr(""))];
      writer.WritePropertyName("Arguments");
      AppendAssociative(old(writer.tokens), out, [PropertyName("Arguments")]);
      out := out + [PropertyName("Arguments")];
      writer.WriteStringValue(s.arguments.GetOr(""));
      AppendAssociative(old(writer.tokens), out, [String(s.arguments.GetOr(""))]);
      out := out + [String(s.arguments.GetOr(""))];
      writer.WritePropertyName("GridLocation");
      AppendAssociative(old(writer.tokens), out, [PropertyName("GridLocation")]);
      out := out + [PropertyName("GridLocation")];
      writer.WriteStringValue(FormatPoint(s.gridLocation));
      AppendAssociative(old(writer.tokens), out, [String(FormatPoint(s.gridLocation))]);
      out := out + [String(FormatPoint(s.gridLocation))];
      writer.WritePropertyName("AdminOnly");
      AppendAssociative(old(writer.tokens), out, [PropertyName("AdminOnly")]);
      out := out + [PropertyName("AdminOnly")];
      writer.WriteBooleanValue(s.adminOnly);
      AppendAssociative(old(writer.tokens), out, [BooleanToken(s.adminOnly)]);
      out := out + [BooleanToken(s.adminOnly)];
      writer.WritePropertyName("Background");
      AppendAssociative(old(writer.tokens), out, [PropertyName("Background")]);
      out := out + [PropertyName("Background")];
      writer.WriteStringValue(ColorToString(s.background));
      AppendAssociative(old(writer.tokens), out, [String(ColorToString(s.background))]);
      out := out + [String(ColorToString(s.background))];
      writer.WritePropertyName("ReferenceType");
      AppendAssociative(old(writer.tokens), out, [PropertyName("ReferenceType")]);
      out := out + [PropertyName("ReferenceType")];
      writer.WriteNumberValue(s.referenceType as int);
      AppendAssociative(old(writer.tokens), out, [Number(s.referenceType as int)]);
      out := out + [Number(s.referenceType as int)];
      writer.WritePropertyName("TargetBrowser");
      AppendAssociative(old(writer.tokens), out, [PropertyName("TargetBrowser")]);
      out := out + [PropertyName("TargetBrowser")];
      writer.WriteNumberValue(s.targetBrowser as int);
      AppendAssociative(old(writer.tokens), out, [Number(s.targetBrowser as int)]);
      out := out + [Number(s.targetBrowser as int)];
      writer.WritePropertyName("HasHotKeySet");
      AppendAssociative(old(writer.tokens), out, [PropertyName("HasHotKeySet")]);
      out := out + [PropertyName("HasHotKeySet")];
      writer.WriteBooleanValue(s.hasHotKeySet);
      AppendAssociative(old(writer.tokens), out, [BooleanToken(s.hasHotKeySet)]);
      out := out + [BooleanToken(s.hasHotKeySet)];
      writer.WritePropertyName("KeyModifiers");
      AppendAssociative(old(writer.tokens), out, [PropertyName("KeyModifiers")]);
      out := out + [PropertyName("KeyModifiers")];
      writer.WriteNumberValue(ModifierKeysConverter.AsInt32(s.keyModifiers));
      AppendAssociative(old(writer.tokens), out, [Number(ModifierKeysConverter.AsInt32(s.keyModifiers))]);
      out := out + [Number(ModifierKeysConverter.AsInt32(s.keyModifiers))];
      writer.WritePropertyName("KeyTarget");
      AppendAssociative(old(writer.tokens), out, [PropertyName("KeyTarget")]);
      out := out + [PropertyName("KeyTarget")];
      writer.WriteNumberValue(s.keyTarget as int);
      AppendAssociative(old(writer.tokens), out, [Number(s.keyTarget as int)]);
      out := out + [Number(s.keyTarget as int)];
      writer.WriteEndObject();
      AppendAssociative(old(writer.tokens), out, [EndObject]);
      out := out + [EndObject];
      ButtonTokensSpelled(s);
    }
  }

  /** Token runs one after another. */
  function Concat(parts: seq<seq<JsonToken>>): seq<JsonToken> {
    if |parts| == 0 then [] else Concat(parts[..|parts| - 1]) + parts[|parts| - 1]
  }

  /** The object `Write` emits for each of `states`, in order. */
  function ObjectList(states: seq<ButtonState>): (objects: seq<seq<JsonToken>>)
    ensures |objects| == |states|
  {
    seq(|states|, k requires 0 <= k < |states| => ButtonTokens(states[k]))
  }

  /** The array `ButtonCollectionJsonConverter.Write` emits. */
  function CollectionTokens(states: seq<ButtonState>): seq<JsonToken> {
    [StartArray] + Concat(ObjectList(states)) + [EndArray]
  }

  /** Writing one more object extends the array written so far by that object. */
  lemma ConcatStep(written: seq<JsonToken>, parts: seq<seq<JsonToken>>, i: nat)
    requires i < |parts|
    ensures written + [StartArray] + Concat(parts[..i]) + parts[i]
            == written + [StartArray] + Concat(parts[..i + 1])
  {
    assert parts[..i + 1][..i] == parts[..i];
  }

  /** Closing the array after the last object gives the whole array. */
  lemma ConcatDone(written: seq<JsonToken>, parts: seq<seq<JsonToken>>)
    ensures written + [StartArray] + Concat(parts[..|parts|]) + [EndArray]
            == written + ([StartArray] + Concat(parts) + [EndArray])
  {
    assert parts[..|parts|] == parts;
    AppendAssociative(written, [StartArray], Concat(parts));
    AppendAssociative(written, [StartArray] + Concat(parts), [EndArray]);
  }

  /** `ButtonCollectionJsonConverter.Write`: an array of the buttons' objects in list order. */
  method WriteCollection(writer: JsonWriter, buttons: seq<LauncherButton>)
    modifies writer
    ensures writer.tokens == old(writer.tokens) + CollectionTokens(old(States(buttons)))
  {
    ghost var states := States(buttons);
    ghost var objects := ObjectList(states);
    writer.WriteStartArray();
    for i := 0 to |buttons|
      invariant writer.tokens == old(writer.tokens) + [StartArray] + Concat(objects[..i])
    {
      WriteButton(writer, buttons[i]);
      ConcatStep(old(writer.tokens), objects, i);
    }
    writer.WriteEndArray();
    ConcatDone(old(writer.tokens), objects);
  }

  // ---------------------------------------------------------------------------------------
  // What reading gives back.

  /** The members `props[i..]` applied in order; the first that throws stops the read. */
  function ApplyMembers(s: ButtonState, props: seq<(string, JsonToken)>, i: nat): Result<ButtonState, JsonError>
    requires i <= |props|
    decreases |props| - i
  {
    if i == |props| then Success(s)
    else
      match ApplyProperty(s, props[i].0, props[i].1)
      case Failure(e) => Failure(e)
      case Success(t) => ApplyMembers(t, props, i + 1)
  }

  /** One member: its name is read, the cursor moves to its value and the member is
      applied. */
  lemma ReadOneMember(tokens: seq<JsonToken>, pos: nat, name: string, value: JsonToken, s: ButtonState)
    requires pos + 2 < |tokens| && tokens[pos + 1] == PropertyName(name) && tokens[pos + 2] == value
    requires !AllWhiteSpace(name)
    ensures ReadProperties(tokens, pos, s)
            == match ApplyProperty(s, name, value)
               case Failure(e) => Failure(e)
               case Success(t) => ReadProperties(tokens, pos + 2, t)
  {
  }

  /** Where member `i` and the members after it lie. */
  lemma MemberAt(tokens: seq<JsonToken>, pos: nat, props: seq<(string, JsonToken)>, i: nat)
    requires i < |props|
    requires pos + 1 + |MemberTokens(props, i)| <= |tokens|
    requires tokens[pos + 1..pos + 1 + |MemberTokens(props, i)|] == MemberTokens(props, i)
    ensures tokens[pos + 1] == PropertyName(props[i].0) && tokens[pos + 2] == props[i].1
    ensures pos + 1 + |MemberTokens(props, i)| == pos + 2 + 1 + |MemberTokens(props, i + 1)|
    ensures tokens[pos + 2 + 1..pos + 2 + 1 + |MemberTokens(props, i + 1)|] == MemberTokens(props, i + 1)
  {
    var m := MemberTokens(props, i);
    var run := tokens[pos + 1..pos + 1 + |m|];
    assert m == [PropertyName(props[i].0), props[i].1] + MemberTokens(props, i + 1);
    assert tokens[pos + 1] == run[0];
    assert tokens[pos + 2] == run[1];
    assert tokens[pos + 2 + 1..pos + 2 + 1 + |MemberTokens(props, i + 1)|] == run[2..];
  }

  /** What the reader yields for an object whose members applied as `applied` and whose
      EndObject is at `end`. */
  function ObjectRead(applied: Result<ButtonState, JsonError>, end: nat): Result<(ButtonState, nat), JsonError> {
    match applied
    case Success(t) => Success((t, end))
    case Failure(e) => Failure(e)
  }

  /** Reading the members `props[i..]` and then an EndObject applies the members in document
      order and leaves the cursor on the EndObject; a member that throws ends the read with
      its error. */
  lemma {:induction false} ReadMembers(tokens: seq<JsonToken>, pos: nat, props: seq<(string, JsonToken)>, i: nat, s: ButtonState)
    requires i <= |props|
    requires pos + 1 + |MemberTokens(props, i)| < |tokens|
    requires tokens[pos + 1..pos + 1 + |MemberTokens(props, i)|] == MemberTokens(props, i)
    requires tokens[pos + 1 + |MemberTokens(props, i)|] == EndObject
    requires forall k :: i <= k < |props| ==> !AllWhiteSpace(props[k].0)
    ensures ReadProperties(tokens, pos, s) == ObjectRead(ApplyMembers(s, props, i), pos + 1 + |MemberTokens(props, i)|)
    decreases |props| - i
  {
    if i < |props| {
      MemberAt(tokens, pos, props, i);
      ReadOneMember(tokens, pos, props[i].0, props[i].1, s);
      match ApplyProperty(s, props[i].0, props[i].1) {
        case Failure(_) =>
        case Success(t) =>
          ReadMembers(tokens, pos + 2, props, i + 1, t);
      }
    }
  }

  /** An unknown member name is skipped together with its value. */
  lemma UnknownMemberSkipped(tokens: seq<JsonToken>, pos: nat, name: string, s: ButtonState)
    requires pos + 2 < |tokens| && tokens[pos + 1] == PropertyName(name)
    requires !AllWhiteSpace(name)
    requires name !in {"Caption", "Path", "Arguments", "GridLocation", "AdminOnly", "Background",
                       "ReferenceType", "TargetBrowser", "HasHotKeySet", "KeyModifiers", "KeyTarget"}
    ensures ReadProperties(tokens, pos, s) == ReadProperties(tokens, pos + 2, s)
  {
  }

  /** Inside the object, a token that is neither a property name nor EndObject throws. */
  lemma StrayTokenThrows(tokens: seq<JsonToken>, pos: nat, s: ButtonState)
    requires pos + 1 < |tokens| && !tokens[pos + 1].PropertyName? && tokens[pos + 1] != EndObject
    ensures ReadProperties(tokens, pos, s) == Failure(NotAPropertyName)
  {
  }

  /** A null Caption, Path or Arguments reads as "", and a null or blank GridLocation as the
      origin; a null or blank Background keeps the colour. */
  lemma BlankValues(s: ButtonState, blank: JsonToken)
    requires blank == Null || (blank.String? && AllWhiteSpace(blank.text))
    ensures blank == Null ==> ApplyProperty(s, "Caption", blank) == Success(s.(caption := ""))
    ensures blank == Null ==> ApplyProperty(s, "Path", blank) == Success(s.(path := Some("")))
    ensures blank == Null ==> ApplyProperty(s, "Arguments", blank) == Success(s.(arguments := Some("")))
    ensures ApplyProperty(s, "GridLocation", blank) == Success(s.(gridLocation := Point(0, 0)))
    ensures ApplyProperty(s, "Background", blank) == Success(s)
  {
  }

  /** `KeyModifiers` is cast without validation: any 16-bit value is kept, including ones
      with bits outside Alt | Control | Shift | Windows. */
  lemma UndefinedModifiersKept(s: ButtonState, n: int)
    requires 16 <= n < UInt16Bound
    ensures ShortProperty(s, "KeyModifiers", Number(n))
            == Success(s.(keyModifiers := n as ModifierKeysConverter.ModifierKeys))
    ensures !ModifierKeysConverter.IsDefinedModifierKeys(n as ModifierKeysConverter.ModifierKeys)
  {
    var m := n as ModifierKeysConverter.ModifierKeys;
    assert m >= 16;
    ModifierKeysConverter.DefinedIffFourBits(m);
  }

  /** A `KeyTarget` above `int.MaxValue` is read as a negative key; written back as that
      negative number, it can no longer be read. */
  lemma WrappedKeyTargetUnreadable(s: ButtonState, n: int)
    requires Int32Max < n < UInt32Bound
    ensures ApplyProperty(s, "KeyTarget", Number(n)).Success?
    ensures ApplyProperty(s, "KeyTarget", Number(n)).value.keyTarget as int == n - UInt32Bound
    ensures ApplyProperty(s, "KeyTarget", Number(n - UInt32Bound)) == Failure(NumberOutOfRange)
  {
  }

  lemma FormatIntNoComma(n: int)
    ensures ',' !in FormatInt(n)
  {
    var f := FormatInt(n);
    var d := NatToDecimal(if n < 0 then -n else n);
    forall i | 0 <= i < |f|
      ensures f[i] != ','
    {
      if n >= 0 {
        assert IsDigit(d[i]);
      } else if i > 0 {
        assert f[i] == d[i - 1];
        assert IsDigit(d[i - 1]);
      }
    }
  }

  /** Trimming a space off the front of a trimmed number gives the number. */
  lemma TrimSpaceBefore(t: string)
    requires |t| >= 1 && NoEdgeWhiteSpace(t)
    ensures Trim(" " + t) == t
  {
    assert (" " + t)[1..] == t;
    assert TrimStart(t) == t;
    TrimNoEdge(t);
  }

  /** Every grid location of 32-bit coordinates is written as text that reads back as it. */
  lemma {:induction false} PointRoundTrip(p: Point)
    requires IsInt32(p.x) && IsInt32(p.y)
    ensures !AllWhiteSpace(FormatPoint(p))
    ensures ParsePoint(FormatPoint(p)) == Success(p)
  {
    TrimNoEdge(FormatInt(p.x));
    TrimSpaceBefore(FormatInt(p.y));
    FormatParseRoundTrip(p.x);
    FormatParseRoundTrip(p.y);
  }

  /** A colour `ColorToString` can write so that it reads back: a name without commas that
      is not blank, or red, green and blue within 0..255. */
  predicate WritableColor(c: Color) {
    match c
    case Named(name) => ',' !in name && !AllWhiteSpace(name)
    case Argb(_, r, g, b) => IsByte(r) && IsByte(g) && IsByte(b)
  }

  /** What a written colour reads back as: the alpha channel is not written, so it comes
      back opaque. */
  function ReloadedColor(c: Color): Color {
    match c
    case Named(_) => c
    case Argb(_, r, g, b) => Argb(255, r, g, b)
  }

  /** The text of a colour given by red, green and blue: three pieces, the last two led by
      a space, and not blank. */
  lemma ArgbText(r: int, g: int, b: int)
    ensures Split(FormatInt(r) + ", " + FormatInt(g) + ", " + FormatInt(b), ',') == [FormatInt(r), " " + FormatInt(g), " " + FormatInt(b)]
    ensures !AllWhiteSpace(FormatInt(r) + ", " + FormatInt(g) + ", " + FormatInt(b))
  {
    var R, G, B := FormatInt(r), FormatInt(g), FormatInt(b);
    FormatIntNoComma(r);
    FormatIntNoComma(g);
    FormatIntNoComma(b);
    var parts := [R, " " + G, " " + B];
    assert ',' !in parts[1] && ',' !in parts[2];
    assert Join(parts, ',') == R + ", " + G + ", " + B by {
      assert Join(parts[1..], ',') == " " + G + [','] + (" " + B) by {
        assert Join(parts[2..], ',') == " " + B;
      }
    }
    SplitJoin(parts, ',');
    assert (R + ", " + G + ", " + B)[0] == R[0];
  }

  /** A written colour channel reads back, with or without the space before it. */
  lemma ComponentRoundTrip(n: int)
    requires IsByte(n)
    ensures Component(FormatInt(n)) == Some(n)
    ensures Component(" " + FormatInt(n)) == Some(n)
  {
    TrimNoEdge(FormatInt(n));
    TrimSpaceBefore(FormatInt(n));
    FormatParseRoundTrip(n);
  }

  /** A writable colour, written and read back over any current colour, is the colour with
      its alpha made opaque. */
  lemma ColorRoundTrip(c: Color, current: Color)
    requires WritableColor(c)
    ensures !AllWhiteSpace(ColorToString(c))
    ensures ParseColor(ColorToString(c), current) == ReloadedColor(c)
  {
    match c
    case Named(name) =>
      SplitJoin([name], ',');
    case Argb(_, r, g, b) =>
      ComponentRoundTrip(r);
      ComponentRoundTrip(g);
      ComponentRoundTrip(b);
  }

  /** A button whose every written field reads back: 32-bit grid coordinates, a writable
      colour, enum values a `ushort` holds, modifiers whose written number a `ushort` holds
      and a non-negative key. */
  predicate Persistable(s: ButtonState) {
    && IsInt32(s.gridLocation.x) && IsInt32(s.gridLocation.y)
    && WritableColor(s.background)
    && 0 <= s.referenceType as int < UInt16Bound
    && 0 <= s.targetBrowser as int < UInt16Bound
    && 0 <= ModifierKeysConverter.AsInt32(s.keyModifiers) < UInt16Bound
    && 0 <= s.keyTarget as int <= Int32Max
  }

  /** The button read back from what `Write` wrote for `s`, into a button that starts as
      `initial`: the written fields come from `s` (a null path or arguments as ""), the
      colour made opaque, and the fields not written stay as `initial` had them. */
  function Reloaded(s: ButtonState, initial: ButtonState): ButtonState {
    initial.(caption := s.caption, path := Some(s.path.GetOr("")),
             arguments := Some(s.arguments.GetOr("")), gridLocation := s.gridLocation,
             adminOnly := s.adminOnly, background := ReloadedColor(s.background),
             referenceType := s.referenceType, targetBrowser := s.targetBrowser,
             hasHotKeySet := s.hasHotKeySet, keyModifiers := s.keyModifiers,
             keyTarget := s.keyTarget)
  }

  /** Applying member `k` when it succeeds moves on to member `k + 1`. */
  lemma ApplyStep(t: ButtonState, props: seq<(string, JsonToken)>, k: nat, t': ButtonState)
    requires k < |props|
    requires ApplyProperty(t, props[k].0, props[k].1) == Success(t')
    ensures ApplyMembers(t, props, k) == ApplyMembers(t', props, k + 1)
  {
  }

  /** The modifiers' written number casts back to the modifiers. */
  lemma ModifiersNumberRoundTrip(m: ModifierKeysConverter.ModifierKeys)
    requires 0 <= ModifierKeysConverter.AsInt32(m) < UInt16Bound
    ensures ModifierKeysConverter.AsInt32(m) as ModifierKeysConverter.ModifierKeys == m
  {
    assert (m as int) as ModifierKeysConverter.ModifierKeys == m;
  }

  /** Each written member, applied on its own, sets its field. */
  lemma TextsApplied(t: ButtonState, c: string)
    ensures ApplyProperty(t, "Caption", String(c)) == Success(t.(caption := c))
    ensures ApplyProperty(t, "Path", String(c)) == Success(t.(path := Some(c)))
    ensures ApplyProperty(t, "Arguments", String(c)) == Success(t.(arguments := Some(c)))
  {
  }

  lemma GridLocationApplied(t: ButtonState, p: Point)
    requires IsInt32(p.x) && IsInt32(p.y)
    ensures ApplyProperty(t, "GridLocation", String(FormatPoint(p))) == Success(t.(gridLocation := p))
  {
    PointRoundTrip(p);
    GridTextApplied(t, FormatPoint(p), p);
  }

  /** Non-blank text that parses as a point sets the grid location to that point. */
  lemma GridTextApplied(t: ButtonState, text: string, q: Point)
    requires !AllWhiteSpace(text) && ParsePoint(text) == Success(q)
    ensures ApplyProperty(t, "GridLocation", String(text)) == Success(t.(gridLocation := q))
  {
    assert GetString(String(text)) == Success(Some(text));
    assert GridLocationProperty(t, String(text)) == Success(t.(gridLocation := q));
  }

  lemma BooleansApplied(t: ButtonState, b: bool)
    ensures ApplyProperty(t, "AdminOnly", BooleanToken(b)) == Success(t.(adminOnly := b))
    ensures ApplyProperty(t, "HasHotKeySet", BooleanToken(b)) == Success(t.(hasHotKeySet := b))
  {
  }

  /** Background text that is not blank sets the colour it parses to. */
  lemma BackgroundTextApplied(t: ButtonState, text: string, col: Color)
    requires !AllWhiteSpace(text) && ParseColor(text, t.background) == col
    ensures ApplyProperty(t, "Background", String(text)) == Success(t.(background := col))
  {
    assert GetString(String(text)) == Success(Some(text));
    assert BackgroundProperty(t, String(text)) == Success(t.(background := col));
  }

  lemma BackgroundApplied(t: ButtonState, c: Color)
    requires WritableColor(c)
    ensures ApplyProperty(t, "Background", String(ColorToString(c))) == Success(t.(background := ReloadedColor(c)))
  {
    ColorRoundTrip(c, t.background);
    BackgroundTextApplied(t, ColorToString(c), ReloadedColor(c));
  }

  lemma EnumsApplied(t: ButtonState, r: RefType, b: Browser)
    requires 0 <= r as int < UInt16Bound && 0 <= b as int < UInt16Bound
    ensures ApplyProperty(t, "ReferenceType", Number(r as int)) == Success(t.(referenceType := r))
    ensures ApplyProperty(t, "TargetBrowser", Number(b as int)) == Success(t.(targetBrowser := b))
  {
  }

  lemma HotKeyApplied(t: ButtonState, m: ModifierKeysConverter.ModifierKeys, k: KeyConverter.Key)
    requires 0 <= ModifierKeysConverter.AsInt32(m) < UInt16Bound && 0 <= k as int <= Int32Max
    ensures ApplyProperty(t, "KeyModifiers", Number(ModifierKeysConverter.AsInt32(m))) == Success(t.(keyModifiers := m))
    ensures ApplyProperty(t, "KeyTarget", Number(k as int)) == Success(t.(keyTarget := k))
  {
    ModifiersApplied(t, m);
    KeyTargetApplied(t, k);
  }

  lemma ModifiersApplied(t: ButtonState, m: ModifierKeysConverter.ModifierKeys)
    requires 0 <= ModifierKeysConverter.AsInt32(m) < UInt16Bound
    ensures ApplyProperty(t, "KeyModifiers", Number(ModifierKeysConverter.AsInt32(m))) == Success(t.(keyModifiers := m))
  {
    var n := ModifierKeysConverter.AsInt32(m);
    ModifiersNumberRoundTrip(m);
    assert GetUnsigned(Number(n), UInt16Bound) == Success(n);
    assert ShortProperty(t, "KeyModifiers", Number(n)) == Success(t.(keyModifiers := m));
  }

  /** A key in the non-negative half of the 32-bit range keeps its value through the cast. */
  lemma KeyTargetApplied(t: ButtonState, k: KeyConverter.Key)
    requires 0 <= k as int <= Int32Max
    ensures ApplyProperty(t, "KeyTarget", Number(k as int)) == Success(t.(keyTarget := k))
  {
  }

  /** The members `Write` emits, in order: the first six, then the last five. */
  lemma WrittenTexts(s: ButtonState)
    ensures var P := WrittenProperties(s);
      && |P| == 11
      && P[0] == ("Caption", String(s.caption))
      && P[1] == ("Path", String(s.path.GetOr("")))
      && P[2] == ("Arguments", String(s.arguments.GetOr("")))
      && P[3] == ("GridLocation", String(FormatPoint(s.gridLocation)))
      && P[4] == ("AdminOnly", BooleanToken(s.adminOnly))
      && P[5] == ("Background", String(ColorToString(s.background)))
  {
    WrittenShape(s);
    MembersShape(s.caption, s.path.GetOr(""), s.arguments.GetOr(""), FormatPoint(s.gridLocation), s.adminOnly,
                 ColorToString(s.background), s.referenceType as int, s.targetBrowser as int, s.hasHotKeySet,
                 ModifierKeysConverter.AsInt32(s.keyModifiers), s.keyTarget as int);
  }

  lemma WrittenNumbers(s: ButtonState)
    ensures var P := WrittenProperties(s);
      && |P| == 11
      && P[6] == ("ReferenceType", Number(s.referenceType as int))
      && P[7] == ("TargetBrowser", Number(s.targetBrowser as int))
      && P[8] == ("HasHotKeySet", BooleanToken(s.hasHotKeySet))
      && P[9] == ("KeyModifiers", Number(ModifierKeysConverter.AsInt32(s.keyModifiers)))
      && P[10] == ("KeyTarget", Number(s.keyTarget as int))
  {
    WrittenShape(s);
    MembersShape(s.caption, s.path.GetOr(""), s.arguments.GetOr(""), FormatPoint(s.gridLocation), s.adminOnly,
                 ColorToString(s.background), s.referenceType as int, s.targetBrowser as int, s.hasHotKeySet,
                 ModifierKeysConverter.AsInt32(s.keyModifiers), s.keyTarget as int);
  }

  /** Applying the written members of a persistable button gives the reloaded button. */
  lemma AppliedWritten(s: ButtonState, initial: ButtonState)
    requires Persistable(s)
    ensures ApplyMembers(initial, WrittenProperties(s), 0) == Success(Reloaded(s, initial))
  {
    var P := WrittenProperties(s);
    WrittenTexts(s);
    WrittenNumbers(s);
    var t1 := initial.(caption := s.caption);
    var t2 := t1.(path := Some(s.path.GetOr("")));
    var t3 := t2.(arguments := Some(s.arguments.GetOr("")));
    var t4 := t3.(gridLocation := s.gridLocation);
    var t5 := t4.(adminOnly := s.adminOnly);
    var t6 := t5.(background := ReloadedColor(s.background));
    var t7 := t6.(referenceType := s.referenceType);
    var t8 := t7.(targetBrowser := s.targetBrowser);
    var t9 := t8.(hasHotKeySet := s.hasHotKeySet);
    var t10 := t9.(keyModifiers := s.keyModifiers);
    var t11 := t10.(keyTarget := s.keyTarget);
    TextsApplied(initial, s.caption);
    ApplyStep(initial, P, 0, t1);
    TextsApplied(t1, s.path.GetOr(""));
    ApplyStep(t1, P, 1, t2);
    TextsApplied(t2, s.arguments.GetOr(""));
    ApplyStep(t2, P, 2, t3);
    GridLocationApplied(t3, s.gridLocation);
    ApplyStep(t3, P, 3, t4);
    BooleansApplied(t4, s.adminOnly);
    ApplyStep(t4, P, 4, t5);
    BackgroundApplied(t5, s.background);
    ApplyStep(t5, P, 5, t6);
    EnumsApplied(t6, s.referenceType, s.targetBrowser);
    ApplyStep(t6, P, 6, t7);
    EnumsApplied(t7, s.referenceType, s.targetBrowser);
    ApplyStep(t7, P, 7, t8);
    BooleansApplied(t8, s.hasHotKeySet);
    ApplyStep(t8, P, 8, t9);
    HotKeyApplied(t9, s.keyModifiers, s.keyTarget);
    ApplyStep(t9, P, 9, t10);
    HotKeyApplied(t10, s.keyModifiers, s.keyTarget);
    ApplyStep(t10, P, 10, t11);
    assert t11 == Reloaded(s, initial);
  }

  /** The written member names are none of them blank. */
  lemma WrittenNamesNotBlank(s: ButtonState)
    ensures forall k :: 0 <= k < |WrittenProperties(s)| ==> !AllWhiteSpace(WrittenProperties(s)[k].0)
  {
    WrittenShape(s);
    MemberNamesNotBlank(s.caption, s.path.GetOr(""), s.arguments.GetOr(""), FormatPoint(s.gridLocation), s.adminOnly,
                        ColorToString(s.background), s.referenceType as int, s.targetBrowser as int, s.hasHotKeySet,
                        ModifierKeysConverter.AsInt32(s.keyModifiers), s.keyTarget as int);
  }

  /** An object of members `props` found at `p`: where its brackets and members lie. */
  lemma ObjectParts(tokens: seq<JsonToken>, p: nat, props: seq<(string, JsonToken)>)
    requires p + |ObjectTokens(props)| <= |tokens|
    requires tokens[p..p + |ObjectTokens(props)|] == ObjectTokens(props)
    ensures p + |ObjectTokens(props)| - 1 == p + 1 + |MemberTokens(props, 0)|
    ensures p < p + 1 + |MemberTokens(props, 0)| < |tokens|
    ensures tokens[p] == StartObject && tokens[p + 1 + |MemberTokens(props, 0)|] == EndObject
    ensures tokens[p + 1..p + 1 + |MemberTokens(props, 0)|] == MemberTokens(props, 0)
  {
    var inner := MemberTokens(props, 0);
    var run := tokens[p..p + |ObjectTokens(props)|];
    assert tokens[p] == run[0];
    assert tokens[p + 1 + |inner|] == run[|inner| + 1];
    forall k | 0 <= k < |inner|
      ensures tokens[p + 1..p + 1 + |inner|][k] == inner[k]
    {
      assert tokens[p + 1 + k] == run[k + 1];
    }
  }

  /** The tokens right after a prefix `before` that is followed by `b`. */
  lemma AfterPrefix(all: seq<JsonToken>, before: seq<JsonToken>, b: seq<JsonToken>)
    requires |before| + |b| <= |all| && all[..|before| + |b|] == before + b
    ensures all[|before|..|before| + |b|] == b
  {
    forall k | 0 <= k < |b|
      ensures all[|before|..|before| + |b|][k] == b[k]
    {
      assert all[|before| + k] == all[..|before| + |b|][|before| + k] == (before + b)[|before| + k];
    }
  }

  /** Inside an array, the tokens at `i..j` of its contents sit at `i + 1..j + 1`. */
  lemma InsideArray(all: seq<JsonToken>, i: nat, j: nat)
    requires i <= j <= |all|
    ensures ([StartArray] + all + [EndArray])[i + 1..j + 1] == all[i..j]
  {
    var t := [StartArray] + all + [EndArray];
    forall k | 0 <= k < j - i
      ensures t[i + 1..j + 1][k] == all[i..j][k]
    {
      assert t[i + 1 + k] == all[i + k];
    }
  }

  /** An object of members `props` with names that are not blank, found at `p`, reads as
      the members applied in order, with the cursor left on its EndObject. */
  lemma ReadObjectOfMembers(tokens: seq<JsonToken>, p: nat, props: seq<(string, JsonToken)>, initial: ButtonState)
    requires p + |ObjectTokens(props)| <= |tokens|
    requires tokens[p..p + |ObjectTokens(props)|] == ObjectTokens(props)
    requires forall k :: 0 <= k < |props| ==> !AllWhiteSpace(props[k].0)
    ensures ReadObject(tokens, p, initial) == ObjectRead(ApplyMembers(initial, props, 0), p + |ObjectTokens(props)| - 1)
  {
    ObjectParts(tokens, p, props);
    ObjectOpens(tokens, p, initial);
    ReadMembers(tokens, p, props, 0, initial);
  }

  /** On a StartObject, `Read` goes straight to the property loop. */
  lemma ObjectOpens(tokens: seq<JsonToken>, p: nat, initial: ButtonState)
    requires p < |tokens| && tokens[p] == StartObject
    ensures ReadObject(tokens, p, initial) == ReadProperties(tokens, p, initial)
  {
  }

  /** What `Write` emits for a persistable button, found at `p` and read back from there,
      is the reloaded button, with the cursor left on the object's EndObject. */
  lemma WriteReadRoundTrip(tokens: seq<JsonToken>, p: nat, s: ButtonState, initial: ButtonState)
    requires Persistable(s)
    requires p + |ButtonTokens(s)| <= |tokens|
    requires tokens[p..p + |ButtonTokens(s)|] == ButtonTokens(s)
    ensures ReadObject(tokens, p, initial) == Success((Reloaded(s, initial), p + |ButtonTokens(s)| - 1))
  {
    WrittenNamesNotBlank(s);
    AppliedWritten(s, initial);
    ButtonIsObject(s);
    ReadObjectOfMembers(tokens, p, WrittenProperties(s), initial);
  }

  /** A button's tokens are the object of its written members. */
  lemma ButtonIsObject(s: ButtonState)
    ensures ButtonTokens(s) == ObjectTokens(WrittenProperties(s))
  {
  }

  /** The buttons read back from a written collection, in list order. */
  function ReloadedAll(states: seq<ButtonState>, initial: ButtonState): (r: seq<ButtonState>)
    ensures |r| == |states|
    ensures forall k :: 0 <= k < |states| ==> r[k] == Reloaded(states[k], initial)
  {
    if |states| == 0 then [] else ReloadedAll(states[..|states| - 1], initial) + [Reloaded(states[|states| - 1], initial)]
  }

  /** The first `j` runs of a concatenation open it. */
  lemma {:induction false} ConcatPrefix(parts: seq<seq<JsonToken>>, j: nat)
    requires j <= |parts|
    ensures |Concat(parts[..j])| <= |Concat(parts)|
    ensures Concat(parts)[..|Concat(parts[..j])|] == Concat(parts[..j])
    decreases |parts|
  {
    if j == |parts| {
      assert parts[..j] == parts;
    } else {
      var n := |parts| - 1;
      var front := parts[..n];
      assert front[..j] == parts[..j];
      ConcatPrefix(front, j);
    }
  }

  /** Where run `i` of an array's contents lies: right after the runs before it. */
  lemma PartAt(parts: seq<seq<JsonToken>>, i: nat)
    requires i < |parts|
    ensures var tokens := [StartArray] + Concat(parts) + [EndArray];
      var p := |Concat(parts[..i])| + 1;
      && p + |parts[i]| < |tokens|
      && tokens[p..p + |parts[i]|] == parts[i]
      && p + |parts[i]| - 1 == |Concat(parts[..i + 1])|
  {
    var before := Concat(parts[..i]);
    assert parts[..i + 1][..i] == parts[..i];
    assert Concat(parts[..i + 1]) == before + parts[i];
    ConcatPrefix(parts, i + 1);
    var all := Concat(parts);
    AfterPrefix(all, before, parts[i]);
    InsideArray(all, |before|, |before| + |parts[i]|);
  }

  /** The collection reader on an object: it reads the object and goes on after it. */
  lemma ElementStep(tokens: seq<JsonToken>, pos: nat, read: seq<ButtonState>, initial: ButtonState, b: ButtonState, end: nat)
    requires pos + 1 < |tokens|
    requires ReadObject(tokens, pos + 1, initial) == Success((b, end))
    ensures ReadElements(tokens, pos, read, initial) == ReadElements(tokens, end, read + [b], initial)
  {
  }

  /** The collection reader on the EndArray: it stops there with what it has read. */
  lemma ElementsEnd(tokens: seq<JsonToken>, pos: nat, read: seq<ButtonState>, initial: ButtonState)
    requires pos + 1 < |tokens| && tokens[pos + 1] == EndArray
    ensures ReadElements(tokens, pos, read, initial) == Success((read, pos + 1))
  {
  }

  /** The collection reader over an array whose `k`-th run of tokens loaded as `loaded[k]`
      and ends where the next run starts: after the first `i` runs it loaded the rest and
      stops on the EndArray. */
  lemma {:induction false} ReadRuns(tokens: seq<JsonToken>, parts: seq<seq<JsonToken>>, loaded: seq<ButtonState>, i: nat, initial: ButtonState)
    requires tokens == [StartArray] + Concat(parts) + [EndArray]
    requires |loaded| == |parts| && i <= |parts|
    requires RunsReadAs(tokens, parts, loaded, initial)
    ensures |Concat(parts[..i])| < |tokens|
    ensures ReadElements(tokens, |Concat(parts[..i])|, loaded[..i], initial) == Success((loaded, |tokens| - 1))
    decreases |parts| - i
  {
    var pos := |Concat(parts[..i])|;
    ConcatPrefix(parts, i);
    if i == |parts| {
      assert parts[..i] == parts;
      assert loaded[..i] == loaded;
      ElementsEnd(tokens, pos, loaded, initial);
    } else {
      assert RunReadsAs(tokens, parts, loaded, initial, i);
      ElementStep(tokens, pos, loaded[..i], initial, loaded[i], |Concat(parts[..i + 1])|);
      assert loaded[..i] + [loaded[i]] == loaded[..i + 1];
      ReadRuns(tokens, parts, loaded, i + 1, initial);
    }
  }

  /** Button `k` of a written collection reads back reloaded, ending where button `k + 1`
      starts. */
  lemma ObjectReadsBack(states: seq<ButtonState>, k: nat, initial: ButtonState)
    requires forall j :: 0 <= j < |states| ==> Persistable(states[j])
    requires k < |states|
    ensures RunReadsAs(CollectionTokens(states), ObjectList(states), ReloadedAll(states, initial), initial, k)
  {
    var objects := ObjectList(states);
    PartAt(objects, k);
    WriteReadRoundTrip(CollectionTokens(states), |Concat(objects[..k])| + 1, states[k], initial);
  }

  /** Run `k` of `parts`, found in `tokens` just after the opening `[`, reads as `loaded[k]` and
      ends where run `k + 1` starts. */
  predicate RunReadsAs(tokens: seq<JsonToken>, parts: seq<seq<JsonToken>>, loaded: seq<ButtonState>, initial: ButtonState, k: nat) {
    && k < |parts| && k < |loaded|
    && |Concat(parts[..k])| + 1 < |tokens|
    && ReadObject(tokens, |Concat(parts[..k])| + 1, initial) == Success((loaded[k], |Concat(parts[..k + 1])|))
  }

  /** Every run of `parts` reads as the matching button of `loaded`. */
  predicate RunsReadAs(tokens: seq<JsonToken>, parts: seq<seq<JsonToken>>, loaded: seq<ButtonState>, initial: ButtonState) {
    |loaded| == |parts| && forall k: nat :: k < |parts| ==> RunReadsAs(tokens, parts, loaded, initial, k)
  }

  /** `tokens` is the array of `parts`, and run `k` reads as `loaded[k]`. */
  predicate ArrayReadsAs(tokens: seq<JsonToken>, parts: seq<seq<JsonToken>>, loaded: seq<ButtonState>, initial: ButtonState) {
    tokens == [StartArray] + Concat(parts) + [EndArray] && RunsReadAs(tokens, parts, loaded, initial)
  }

  /** An array of runs that each read as one button reads as those buttons. */
  lemma ArrayOfRuns(tokens: seq<JsonToken>, parts: seq<seq<JsonToken>>, loaded: seq<ButtonState>, initial: ButtonState)
    requires ArrayReadsAs(tokens, parts, loaded, initial)
    ensures ReadArray(tokens, 0, initial) == Success((loaded, |tokens| - 1))
  {
    ReadRuns(tokens, parts, loaded, 0, initial);
    assert parts[..0] == [] && loaded[..0] == [];
    assert tokens[0] == StartArray;
  }

  /** Save then load: the collection `Write` emits for persistable buttons reads back as the
      reloaded buttons, in the same order, with the cursor on the closing EndArray. */
  lemma CollectionRoundTrip(states: seq<ButtonState>, initial: ButtonState)
    requires forall k :: 0 <= k < |states| ==> Persistable(states[k])
    ensures ReadArray(CollectionTokens(states), 0, initial)
            == Success((ReloadedAll(states, initial), |CollectionTokens(states)| - 1))
  {
    var objects := ObjectList(states);
    var tokens := CollectionTokens(states);
    var loaded := ReloadedAll(states, initial);
    forall k: nat | k < |states|
      ensures RunReadsAs(tokens, objects, loaded, initial, k)
    {
      ObjectReadsBack(states, k, initial);
    }
    ArrayOfRuns(tokens, objects, loaded, initial);
  }
}
