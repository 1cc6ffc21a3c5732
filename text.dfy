/** The .NET string and number primitives the launcher's parsers rely on, as used by the
    modelled code: white-space trimming, invariant upper-casing, searching, splitting on a
    delimiter, and decimal Int32 formatting and parsing. */
module Text {
  import opened Wrappers

  /** `char.IsWhiteSpace`: the Unicode space, line and paragraph separators, the control
      characters U+0009 to U+000D, U+0085 and U+00A0. */
  predicate IsWhiteSpace(c: char) {
    c == ' ' || '\t' <= c <= '\r' || c == '\U{0085}' || c == '\U{00A0}' || c == '\U{1680}'
    || '\U{2000}' <= c <= '\U{200A}' || c == '\U{2028}' || c == '\U{2029}'
    || c == '\U{202F}' || c == '\U{205F}' || c == '\U{3000}'
  }

  predicate AllWhiteSpace(s: string) {
    forall i :: 0 <= i < |s| ==> IsWhiteSpace(s[i])
  }

  /** `string.IsNullOrWhiteSpace`, with `None` for the null reference. */
  predicate IsNullOrWhiteSpace(s: Option<string>) {
    s.None? || AllWhiteSpace(s.value)
  }

  /** Neither end of `s` is white space. */
  predicate NoEdgeWhiteSpace(s: string) {
    s == [] || (!IsWhiteSpace(s[0]) && !IsWhiteSpace(s[|s| - 1]))
  }

  /** `string.TrimStart()`: drops leading white space. */
  function TrimStart(s: string): string {
    if |s| > 0 && IsWhiteSpace(s[0]) then TrimStart(s[1..]) else s
  }

  /** `string.TrimEnd()`: drops trailing white space. */
  function TrimEnd(s: string): string {
    if |s| > 0 && IsWhiteSpace(s[|s| - 1]) then TrimEnd(s[..|s| - 1]) else s
  }

  /** `string.Trim()`. */
  function Trim(s: string): string {
    TrimEnd(TrimStart(s))
  }

  /** TrimStart leaves the suffix that follows the leading white space. */
  lemma {:induction false} TrimStartShape(s: string)
    ensures |TrimStart(s)| <= |s| && TrimStart(s) == s[|s| - |TrimStart(s)|..]
    ensures AllWhiteSpace(s[..|s| - |TrimStart(s)|])
    ensures TrimStart(s) == [] || !IsWhiteSpace(TrimStart(s)[0])
  {
    if |s| > 0 && IsWhiteSpace(s[0]) {
      TrimStartShape(s[1..]);
    }
  }

  /** TrimEnd leaves the prefix that precedes the trailing white space. */
  lemma {:induction false} TrimEndShape(s: string)
    ensures |TrimEnd(s)| <= |s| && TrimEnd(s) == s[..|TrimEnd(s)|]
    ensures AllWhiteSpace(s[|TrimEnd(s)|..])
    ensures TrimEnd(s) == [] || !IsWhiteSpace(TrimEnd(s)[|TrimEnd(s)| - 1])
  {
    if |s| > 0 && IsWhiteSpace(s[|s| - 1]) {
      var t := s[..|s| - 1];
      TrimEndShape(t);
      var n := |TrimEnd(t)|;
      assert TrimEnd(s) == TrimEnd(t);
      assert t[..n] == s[..n];
      assert s[n..] == t[n..] + [s[|s| - 1]];
    } else {
      assert s[..|s|] == s;
    }
  }

  /** Trim's result has no white space at either end, and is empty exactly when `s` is all
      white space. */
  lemma TrimShape(s: string)
    ensures |Trim(s)| <= |s| && NoEdgeWhiteSpace(Trim(s))
    ensures Trim(s) == [] <==> AllWhiteSpace(s)
  {
    var t := TrimStart(s);
    TrimStartShape(s);
    TrimEndShape(t);
    if Trim(s) == [] {
      assert s == s[..|s| - |t|] + t;
      assert AllWhiteSpace(t[|Trim(s)|..]);
    }
  }

  /** A string without white space at its ends is its own trim. */
  lemma TrimNoEdge(s: string)
    requires NoEdgeWhiteSpace(s)
    ensures Trim(s) == s
  {
  }

  /** `char.ToUpperInvariant` on the ASCII letters. */
  function UpperChar(c: char): (u: char)
    ensures 'a' <= c <= 'z' ==> u as int == c as int - 32
    ensures !('a' <= c <= 'z') ==> u == c
  {
    if 'a' <= c <= 'z' then (c as int - 32) as char else c
  }

  /** `string.ToUpper(CultureInfo.InvariantCulture)` on the ASCII letters. */
  function Upper(s: string): (u: string)
    ensures |u| == |s|
  {
    if |s| == 0 then "" else [UpperChar(s[0])] + Upper(s[1..])
  }

  /** Case-insensitive (ordinal, ASCII) equality, as `Enum.Parse(..., ignoreCase: true)`
      compares names. */
  predicate EqualsIgnoreCase(a: string, b: string) {
    |a| == |b| && Upper(a) == Upper(b)
  }

  /** Upper-casing works character by character. */
  lemma {:induction false} UpperShape(s: string)
    ensures forall i :: 0 <= i < |s| ==> Upper(s)[i] == UpperChar(s[i])
  {
    if |s| > 0 {
      UpperShape(s[1..]);
    }
  }

  /** Upper-casing twice is upper-casing once. */
  lemma {:induction false} UpperIdempotent(s: string)
    ensures Upper(Upper(s)) == Upper(s)
  {
    if |s| > 0 {
      UpperIdempotent(s[1..]);
      assert Upper(s)[1..] == Upper(s[1..]);
    }
  }

  /** Whether a table entry named `name` answers a lookup of `token`: ordinally, or ignoring
      case as `Enum.Parse(..., ignoreCase: true)` does. */
  predicate NameMatches(name: string, token: string, ignoreCase: bool) {
    if ignoreCase then EqualsIgnoreCase(name, token) else name == token
  }

  /** The value of the first entry of a name table that matches `token`, as a `switch` on
      string cases or an enum's name lookup finds it. */
  function Lookup<V>(table: seq<(string, V)>, token: string, ignoreCase: bool): Option<V> {
    if |table| == 0 then None
    else if NameMatches(table[0].0, token, ignoreCase) then Some(table[0].1)
    else Lookup(table[1..], token, ignoreCase)
  }

  /** A lookup fails exactly when no entry matches, and succeeds with the value of the first
      entry that matches. */
  lemma {:induction false} LookupFirst<V>(table: seq<(string, V)>, token: string, ignoreCase: bool)
    ensures Lookup(table, token, ignoreCase).None?
      <==> forall i :: 0 <= i < |table| ==> !NameMatches(table[i].0, token, ignoreCase)
    ensures Lookup(table, token, ignoreCase).Some? ==>
      exists i :: 0 <= i < |table| && NameMatches(table[i].0, token, ignoreCase)
        && table[i].1 == Lookup(table, token, ignoreCase).value
        && forall j :: 0 <= j < i ==> !NameMatches(table[j].0, token, ignoreCase)
  {
    if |table| > 0 && !NameMatches(table[0].0, token, ignoreCase) {
      LookupFirst(table[1..], token, ignoreCase);
      var r := Lookup(table, token, ignoreCase);
      if r.Some? {
        var i :| 0 <= i < |table| - 1 && NameMatches(table[1..][i].0, token, ignoreCase)
          && table[1..][i].1 == r.value
          && forall j :: 0 <= j < i ==> !NameMatches(table[1..][j].0, token, ignoreCase);
        assert NameMatches(table[i + 1].0, token, ignoreCase);
      }
      if r.None? {
        forall i | 0 <= i < |table| ensures !NameMatches(table[i].0, token, ignoreCase) {
          if i > 0 {
            assert table[i] == table[1..][i - 1];
          }
        }
      }
    }
  }

  /** Looking up in a concatenation of tables looks in the first one, then in the second. */
  lemma {:induction false} LookupAppend<V>(a: seq<(string, V)>, b: seq<(string, V)>, token: string, ignoreCase: bool)
    ensures Lookup(a + b, token, ignoreCase)
      == if Lookup(a, token, ignoreCase).Some? then Lookup(a, token, ignoreCase) else Lookup(b, token, ignoreCase)
  {
    if |a| > 0 {
      assert (a + b)[1..] == a[1..] + b;
      LookupAppend(a[1..], b, token, ignoreCase);
    } else {
      assert a + b == b;
    }
  }

  /** The entry at `i` answers the lookup when it matches and no earlier entry does. */
  lemma {:induction false} LookupAt<V>(table: seq<(string, V)>, token: string, ignoreCase: bool, i: nat)
    requires i < |table| && NameMatches(table[i].0, token, ignoreCase)
    requires forall j :: 0 <= j < i ==> !NameMatches(table[j].0, token, ignoreCase)
    ensures Lookup(table, token, ignoreCase) == Some(table[i].1)
  {
    if i > 0 {
      LookupAt(table[1..], token, ignoreCase, i - 1);
    }
  }

  /** Upper-casing commutes with taking a prefix. */
  lemma {:induction false} UpperPrefix(s: string, i: nat)
    requires i <= |s|
    ensures Upper(s[..i]) == Upper(s)[..i]
  {
    if i > 0 {
      assert s[..i][1..] == s[1..][..i - 1];
      UpperPrefix(s[1..], i - 1);
    }
  }

  /** A string without lower-case ASCII letters is its own upper case. */
  lemma {:induction false} UpperNoLower(s: string)
    requires forall i :: 0 <= i < |s| ==> !('a' <= s[i] <= 'z')
    ensures Upper(s) == s
  {
    if |s| > 0 {
      UpperNoLower(s[1..]);
    }
  }

  lemma {:induction false} TrimStartUpper(s: string)
    ensures TrimStart(Upper(s)) == Upper(TrimStart(s))
  {
    UpperShape(s);
    if |s| > 0 && IsWhiteSpace(s[0]) {
      assert Upper(s)[1..] == Upper(s[1..]);
      TrimStartUpper(s[1..]);
    }
  }

  lemma {:induction false} TrimEndUpper(s: string)
    ensures TrimEnd(Upper(s)) == Upper(TrimEnd(s))
  {
    UpperShape(s);
    if |s| > 0 && IsWhiteSpace(s[|s| - 1]) {
      UpperPrefix(s, |s| - 1);
      TrimEndUpper(s[..|s| - 1]);
    }
  }

  /** Trimming and upper-casing can be done in either order: white space has no case. */
  lemma TrimUpper(s: string)
    ensures Trim(Upper(s)) == Upper(Trim(s))
  {
    TrimStartUpper(s);
    TrimEndUpper(TrimStart(s));
  }

  /** Splitting off the head of a non-empty left operand of a concatenation. */
  lemma ConsAppend<T>(a: seq<T>, b: seq<T>)
    requires |a| > 0
    ensures a + b == [a[0]] + (a[1..] + b)
  {
  }

  lemma AppendAssociative<T>(a: seq<T>, b: seq<T>, c: seq<T>)
    ensures (a + b) + c == a + (b + c)
  {
  }

  lemma AppendEmpty<T>(a: seq<T>)
    ensures a + [] == a && [] + a == a
  {
  }

  /** Pieces free of `sep` stay free of it when concatenated around one more such piece. */
  lemma NoSepAround(a: seq<string>, x: string, b: seq<string>, sep: char)
    requires forall i :: 0 <= i < |a| ==> sep !in a[i]
    requires sep !in x
    requires forall i :: 0 <= i < |b| ==> sep !in b[i]
    ensures forall i :: 0 <= i < |a + [x] + b| ==> sep !in (a + [x] + b)[i]
  {
  }

  /** `string.IndexOf(char)`: the first position of `c`, or -1. */
  function IndexOf(s: string, c: char): (r: int)
    ensures r == -1 <==> c !in s
    ensures r != -1 ==> 0 <= r < |s| && s[r] == c && c !in s[..r]
  {
    if |s| == 0 then -1
    else if s[0] == c then 0
    else
      var j := IndexOf(s[1..], c);
      assert s[1..][..if j == -1 then 0 else j] == s[1..1 + if j == -1 then 0 else j];
      if j == -1 then -1 else j + 1
  }

  /** The first occurrence is the position of `c` with no `c` before it. */
  lemma {:induction false} IndexOfAt(s: string, c: char, k: nat)
    requires k < |s| && s[k] == c && c !in s[..k]
    ensures IndexOf(s, c) == k
  {
    if k > 0 {
      assert s[0] in s[..k];
      assert s[1..][..k - 1] == s[1..k];
      IndexOfAt(s[1..], c, k - 1);
    }
  }

  /** The parts joined with `sep` between consecutive ones (`string.Join`). */
  function Join(parts: seq<string>, sep: char): string {
    if |parts| == 0 then ""
    else if |parts| == 1 then parts[0]
    else parts[0] + [sep] + Join(parts[1..], sep)
  }

  /** Appending one more part adds a separator only after a non-empty list of parts. */
  lemma {:induction false} JoinAppend(parts: seq<string>, x: string, sep: char)
    ensures Join(parts + [x], sep) == if |parts| == 0 then x else Join(parts, sep) + [sep] + x
  {
    if |parts| > 1 {
      assert (parts + [x])[1..] == parts[1..] + [x];
      JoinAppend(parts[1..], x, sep);
    }
  }

  /** The first piece before a separator, then the pieces of what follows it. */
  lemma SplitStep(s: string, sep: char, i: nat, rest: seq<string>)
    requires i < |s| && s[i] == sep && sep !in s[..i]
    requires |rest| >= 1 && Join(rest, sep) == s[i + 1..]
    requires forall k :: 0 <= k < |rest| ==> sep !in rest[k]
    ensures forall k :: 0 <= k < |[s[..i]] + rest| ==> sep !in ([s[..i]] + rest)[k]
    ensures Join([s[..i]] + rest, sep) == s
  {
    var parts := [s[..i]] + rest;
    assert parts[1..] == rest;
    assert s == s[..i] + [sep] + s[i + 1..];
  }

  /** `string.Split(char)`: the maximal pieces between occurrences of `sep`; there is always at
      least one piece, no piece holds `sep`, and joining them back gives `s`. */
  function Split(s: string, sep: char): (parts: seq<string>)
    ensures |parts| >= 1
    ensures forall i :: 0 <= i < |parts| ==> sep !in parts[i]
    ensures Join(parts, sep) == s
  {
    var i := IndexOf(s, sep);
    if i == -1 then [s]
    else
      var rest := Split(s[i + 1..], sep);
      SplitStep(s, sep, i, rest);
      [s[..i]] + rest
  }

  /** Splitting a join of pieces that hold no delimiter gives the pieces back. */
  lemma {:induction false} SplitJoin(parts: seq<string>, sep: char)
    requires |parts| >= 1
    requires forall i :: 0 <= i < |parts| ==> sep !in parts[i]
    ensures Split(Join(parts, sep), sep) == parts
  {
    if |parts| > 1 {
      var s := Join(parts, sep);
      assert s == parts[0] + [sep] + Join(parts[1..], sep);
      assert s[..|parts[0]|] == parts[0];
      IndexOfAt(s, sep, |parts[0]|);
      assert s[|parts[0]| + 1..] == Join(parts[1..], sep);
      SplitJoin(parts[1..], sep);
    }
  }

  // ---------------------------------------------------------------------------------------
  // Decimal Int32 text: `int.ToString()` and `int.Parse` (invariant digits, optional sign).

  const Int32Min: int := -0x8000_0000
  const Int32Max: int := 0x7FFF_FFFF

  predicate IsInt32(n: int) {
    Int32Min <= n <= Int32Max
  }

  predicate IsDigit(c: char) {
    '0' <= c <= '9'
  }

  predicate AllDigits(s: string) {
    forall i :: 0 <= i < |s| ==> IsDigit(s[i])
  }

  function DigitChar(d: nat): char
    requires d < 10
  {
    ('0' as int + d) as char
  }

  /** The value of a string of decimal digits, most significant first. */
  function DecimalValue(s: string): nat
    requires AllDigits(s)
  {
    if |s| == 0 then 0 else DecimalValue(s[..|s| - 1]) * 10 + (s[|s| - 1] as int - '0' as int)
  }

  /** The shortest decimal spelling of `n`. */
  function NatToDecimal(n: nat): (s: string)
    ensures |s| >= 1 && AllDigits(s)
  {
    if n < 10 then [DigitChar(n)] else NatToDecimal(n / 10) + [DigitChar(n % 10)]
  }

  lemma {:induction false} DecimalRoundTrip(n: nat)
    ensures DecimalValue(NatToDecimal(n)) == n
  {
    if n >= 10 {
      var s := NatToDecimal(n);
      assert s[..|s| - 1] == NatToDecimal(n / 10);
      DecimalRoundTrip(n / 10);
    }
  }

  /** `int.ToString()` with the invariant culture: a leading '-' for negative values. */
  function FormatInt(n: int): (s: string)
    ensures |s| >= 1 && NoEdgeWhiteSpace(s)
  {
    if n < 0 then "-" + NatToDecimal(-n) else NatToDecimal(n)
  }

  /** `int.Parse` on an already trimmed string: an optional sign followed by at least one
      decimal digit, whose value fits in 32 bits; anything else throws. */
  function ParseInt32(s: string): (r: Option<int>)
    ensures r.Some? ==> IsInt32(r.value)
  {
    var negative := |s| > 0 && s[0] == '-';
    var digits := if |s| > 0 && (s[0] == '-' || s[0] == '+') then s[1..] else s;
    if |digits| == 0 || !AllDigits(digits) then None
    else
      var magnitude: int := DecimalValue(digits);
      var v := if negative then -magnitude else magnitude;
      if IsInt32(v) then Some(v) else None
  }

  /** Every 32-bit integer survives printing and parsing. */
  lemma FormatParseRoundTrip(n: int)
    requires IsInt32(n)
    ensures ParseInt32(FormatInt(n)) == Some(n)
  {
    DecimalRoundTrip(if n < 0 then -n else n);
    if n < 0 {
      assert FormatInt(n)[1..] == NatToDecimal(-n);
    }
  }
}
