/** Strings in ASCII with escapes, and reading them back. */
module JsonString {
  datatype Option<T> = None | Some(value: T)

  // ----- Hexadecimal -----

  function Hex(n: nat): char
    requires n < 16
  {
    "0123456789abcdef"[n]
  }

  function HexValue(c: char): Option<nat> {
    if '0' <= c <= '9' then Some(c as int - '0' as int)
    else if 'a' <= c <= 'f' then Some(c as int - 'a' as int + 10)
    else if 'A' <= c <= 'F' then Some(c as int - 'A' as int + 10)
    else None
  }

  lemma HexRoundTrip(n: nat)
    requires n < 16
    ensures HexValue(Hex(n)) == Some(n)
  {
  }

  function Hex4(n: nat): (s: string)
    requires n < 0x10000
    ensures |s| == 4
  {
    [Hex(n / 4096), Hex(n / 256 % 16), Hex(n / 16 % 16), Hex(n % 16)]
  }

  function Hex4Value(s: string): Option<nat>
    requires |s| >= 4
  {
    var a, b, c, d := HexValue(s[0]), HexValue(s[1]), HexValue(s[2]), HexValue(s[3]);
    if a.None? || b.None? || c.None? || d.None? then None
    else Some(((a.value * 16 + b.value) * 16 + c.value) * 16 + d.value)
  }

  lemma {:induction false} Hex4RoundTrip(n: nat, rest: string)
    requires n < 0x10000
    ensures Hex4Value(Hex4(n) + rest) == Some(n)
  {
    HexRoundTrip(n / 4096);
    HexRoundTrip(n / 256 % 16);
    HexRoundTrip(n / 16 % 16);
    HexRoundTrip(n % 16);
    Sixteens(n);
  }

  lemma {:induction false} Sixteens(n: nat)
    ensures ((n / 4096 * 16 + n / 256 % 16) * 16 + n / 16 % 16) * 16 + n % 16 == n
  {
    assert n / 256 == 16 * (n / 4096) + n / 256 % 16;
    assert n / 16 == 16 * (n / 256) + n / 16 % 16;
  }

  // ----- Characters -----

  function ShortEscape(c: char): Option<char> {
    match c
    case '\"' => Some('\"')
    case '\\' => Some('\\')
    case '\n' => Some('n')
    case '\r' => Some('r')
    case '\t' => Some('t')
    case '\U{8}' => Some('b')
    case '\U{C}' => Some('f')
    case _ => None
  }

  function ShortMeaning(c: char): Option<char> {
    match c
    case '\"' => Some('\"')
    case '\\' => Some('\\')
    case '/' => Some('/')
    case 'n' => Some('\n')
    case 'r' => Some('\r')
    case 't' => Some('\t')
    case 'b' => Some('\U{8}')
    case 'f' => Some('\U{C}')
    case _ => None
  }

  function UnicodeEscape(n: nat): string
    requires n < 0x10000
  {
    ['\\', 'u'] + Hex4(n)
  }

  function Escape(c: char): string {
    var short := ShortEscape(c);
    var n := c as int;
    if short.Some? then ['\\', short.value]
    else if 0x20 <= n <= 0x7E then [c]
    else if n < 0x10000 then UnicodeEscape(n)
    else UnicodeEscape(High(c)) + UnicodeEscape(Low(c))
  }

  datatype Read = Bad | One(c: char, rest: string)

  /** A code unit escape at the front: its value, if there is one. */
  function UnitAt(s: string): Option<nat> {
    if |s| >= 6 && s[0] == '\\' && s[1] == 'u' then Hex4Value(s[2..]) else None
  }

  predicate HighSurrogate(n: nat) { 0xD800 <= n < 0xDC00 }

  predicate LowSurrogate(n: nat) { 0xDC00 <= n < 0xE000 }

  /** The first character of a string body, escaped or not. */
  function ReadOne(s: string): (r: Read)
    ensures r.One? ==> |r.rest| < |s|
  {
    if s == "" || s[0] == '\"' || (s[0] as int) < 0x20 then Bad
    else if s[0] != '\\' then One(s[0], s[1..])
    else if |s| < 2 then Bad
    else if s[1] != 'u' then (if ShortMeaning(s[1]).Some? then One(ShortMeaning(s[1]).value, s[2..]) else Bad)
    else ReadUnit(s)
  }

  function ReadUnit(s: string): (r: Read)
    ensures r.One? ==> |r.rest| < |s|
  {
    var unit := UnitAt(s);
    if unit.None? then Bad
    else if HighSurrogate(unit.value) then
      var low := UnitAt(s[6..]);
      if low.Some? && LowSurrogate(low.value) then
        One(Combine(unit.value, low.value), s[12..])
      else Bad
    else if LowSurrogate(unit.value) || unit.value >= 0x10000 then Bad
    else One(unit.value as char, s[6..])
  }

  lemma {:induction false} UnitRoundTrip(n: nat, rest: string)
    requires n < 0x10000
    ensures UnitAt(UnicodeEscape(n) + rest) == Some(n) && (UnicodeEscape(n) + rest)[6..] == rest
  {
    var s := UnicodeEscape(n) + rest;
    assert s[2..] == Hex4(n) + rest;
    Hex4RoundTrip(n, rest);
  }

  lemma {:induction false} ReadShort(c: char, rest: string)
    requires ShortEscape(c).Some?
    ensures ReadOne(['\\', ShortEscape(c).value] + rest) == One(c, rest)
  {
    var s := ['\\', ShortEscape(c).value] + rest;
    assert s[2..] == rest;
  }

  lemma {:induction false} ReadEscaped(c: char, rest: string)
    requires c as int < 0x10000
    ensures ReadOne(UnicodeEscape(c as int) + rest) == One(c, rest)
  {
    UnitRoundTrip(c as int, rest);
  }

  lemma {:induction false} SplitPlane(v: nat)
    requires v < 0x100000
    ensures v / 0x400 < 0x400 && v / 0x400 * 0x400 + v % 0x400 == v
  {
  }

  function Combine(high: nat, low: nat): char
    requires HighSurrogate(high) && LowSurrogate(low)
  {
    (0x10000 + (high - 0xD800) * 0x400 + (low - 0xDC00)) as char
  }

  lemma {:induction false} ReadUnits(high: nat, low: nat, rest: string)
    requires HighSurrogate(high) && LowSurrogate(low)
    ensures ReadUnit(UnicodeEscape(high) + (UnicodeEscape(low) + rest)) == One(Combine(high, low), rest)
  {
    var tail := UnicodeEscape(low) + rest;
    var s := UnicodeEscape(high) + tail;
    UnitRoundTrip(high, tail);
    UnitRoundTrip(low, rest);
    assert s[12..] == tail[6..];
  }

  lemma {:induction false} ReadPair(c: char, rest: string)
    requires c as int >= 0x10000
    ensures ReadOne(Escape(c) + rest) == One(c, rest)
  {
    var high, low := High(c), Low(c);
    EscapePair(c, rest);
    ReadUnits(high, low, rest);
    CombineSplit(c);
  }

  function High(c: char): (n: nat)
    requires c as int >= 0x10000
    ensures HighSurrogate(n)
  {
    0xD800 + (c as int - 0x10000) / 0x400
  }

  function Low(c: char): (n: nat)
    requires c as int >= 0x10000
    ensures LowSurrogate(n)
  {
    0xDC00 + (c as int - 0x10000) % 0x400
  }

  lemma {:induction false} CombineSplit(c: char)
    requires c as int >= 0x10000
    ensures Combine(High(c), Low(c)) == c
  {
    SplitPlane(c as int - 0x10000);
  }

  lemma {:induction false} EscapePair(c: char, rest: string)
    requires c as int >= 0x10000
    ensures Escape(c) + rest == UnicodeEscape(High(c)) + (UnicodeEscape(Low(c)) + rest)
    ensures ReadOne(Escape(c) + rest) == ReadUnit(Escape(c) + rest)
  {
  }

  /** Reading an escaped character gives it back, whatever follows. */
  lemma {:induction false} ReadEscape(c: char, rest: string)
    ensures ReadOne(Escape(c) + rest) == One(c, rest)
  {
    if ShortEscape(c).Some? {
      ReadShort(c, rest);
    } else if 0x20 <= c as int <= 0x7E {
      assert ([c] + rest)[1..] == rest;
    } else if c as int < 0x10000 {
      ReadEscaped(c, rest);
    } else {
      ReadPair(c, rest);
    }
  }

  // ----- Strings -----

  function EscapeAll(s: string): string {
    if s == "" then "" else Escape(s[0]) + EscapeAll(s[1..])
  }

  function Quote(s: string): string { "\"" + EscapeAll(s) + "\"" }

  /** The body of a string up to its closing quote. */
  function ReadBody(s: string): (r: Option<(string, string)>)
    ensures r.Some? ==> |r.value.1| < |s|
    decreases |s|
  {
    if s == "" then None
    else if s[0] == '\"' then Some(("", s[1..]))
    else
      var first := ReadOne(s);
      if first.Bad? then None
      else
        var rest := ReadBody(first.rest);
        if rest.None? then None else Some(([first.c] + rest.value.0, rest.value.1))
  }

  function ReadString(s: string): (r: Option<(string, string)>)
    ensures r.Some? ==> |r.value.1| < |s|
  {
    if s != "" && s[0] == '\"' then ReadBody(s[1..]) else None
  }

  lemma {:induction false} EscapeHead(c: char, rest: string)
    ensures Escape(c) != "" && (Escape(c) + rest)[0] != '\"'
  {
  }

  lemma {:induction false} ReadBodyOf(s: string, rest: string)
    ensures ReadBody(EscapeAll(s) + ("\"" + rest)) == Some((s, rest))
  {
    var tail := "\"" + rest;
    if s == "" {
      assert EscapeAll(s) + tail == tail && tail[1..] == rest;
    } else {
      var more := EscapeAll(s[1..]) + tail;
      assert EscapeAll(s) + tail == Escape(s[0]) + more;
      EscapeHead(s[0], more);
      ReadEscape(s[0], more);
      ReadBodyOf(s[1..], rest);
      assert s == [s[0]] + s[1..];
    }
  }

  /** Reading a quoted string gives it back, whatever follows. */
  lemma {:induction false} ReadQuoted(s: string, rest: string)
    ensures ReadString(Quote(s) + rest) == Some((s, rest))
  {
    assert (Quote(s) + rest)[1..] == EscapeAll(s) + ("\"" + rest);
    ReadBodyOf(s, rest);
  }

  // ----- What is written -----

  predicate LowerHex(c: char) { '0' <= c <= '9' || 'a' <= c <= 'f' }

  function Nibble(c: char): int { if c <= '9' then c as int - 48 else c as int - 87 }

  /** A backslash, the letter u and four lower-case digits of the value. */
  ghost predicate WritesUnit(s: string, n: int) {
    && |s| == 6 && s[0] == '\\' && s[1] == 'u'
    && LowerHex(s[2]) && LowerHex(s[3]) && LowerHex(s[4]) && LowerHex(s[5])
    && n == 4096 * Nibble(s[2]) + 256 * Nibble(s[3]) + 16 * Nibble(s[4]) + Nibble(s[5])
  }

  ghost predicate WritesPair(s: string, n: int) {
    |s| == 12 && exists high: int, low: int ::
      && WritesUnit(s[..6], high) && WritesUnit(s[6..], low)
      && 0xD800 <= high < 0xDC00 && 0xDC00 <= low < 0xE000 && n == 0x10000 + (high - 0xD800) * 0x400 + (low - 0xDC00)
  }

  /** Quote, backslash and five controls by a letter, other printable ASCII as it is, the rest by code units. */
  ghost predicate EscapedAs(c: char, s: string) {
    var n := c as int;
    if n == 34 then s == ['\\', '\"']
    else if n == 92 then s == ['\\', '\\']
    else if n == 8 then s == ['\\', 'b']
    else if n == 9 then s == ['\\', 't']
    else if n == 10 then s == ['\\', 'n']
    else if n == 12 then s == ['\\', 'f']
    else if n == 13 then s == ['\\', 'r']
    else if 32 <= n <= 126 then s == [c]
    else if n < 65536 then WritesUnit(s, n)
    else WritesPair(s, n)
  }

  lemma {:induction false} NibbleOf(n: nat)
    requires n < 16
    ensures LowerHex(Hex(n)) && Nibble(Hex(n)) == n
  {
  }

  lemma {:induction false} UnitIsWritten(n: nat)
    requires n < 0x10000
    ensures WritesUnit(UnicodeEscape(n), n)
  {
    NibbleOf(n / 4096);
    NibbleOf(n / 256 % 16);
    NibbleOf(n / 16 % 16);
    NibbleOf(n % 16);
    Sixteens(n);
  }

  lemma {:induction false} UnitsWritePair(a: string, b: string, high: int, low: int)
    requires WritesUnit(a, high) && WritesUnit(b, low) && 0xD800 <= high < 0xDC00 && 0xDC00 <= low < 0xE000
    ensures WritesPair(a + b, 0x10000 + (high - 0xD800) * 0x400 + (low - 0xDC00))
  {
    assert (a + b)[..6] == a && (a + b)[6..] == b;
  }

  lemma {:induction false} EscapesWritePair(n: int, high: nat, low: nat)
    requires HighSurrogate(high) && LowSurrogate(low) && n == 0x10000 + (high - 0xD800) * 0x400 + (low - 0xDC00)
    ensures WritesPair(UnicodeEscape(high) + UnicodeEscape(low), n)
  {
    UnitIsWritten(high);
    UnitIsWritten(low);
    UnitsWritePair(UnicodeEscape(high), UnicodeEscape(low), high, low);
  }

  lemma {:induction false} PairIsWritten(c: char)
    requires c as int >= 0x10000
    ensures WritesPair(UnicodeEscape(High(c)) + UnicodeEscape(Low(c)), c as int)
  {
    EscapesWritePair(c as int, High(c), Low(c));
  }

  lemma {:induction false} PrintableMeans(c: char)
    requires 32 <= c as int <= 126
    ensures EscapedAs(c, Escape(c))
  {
  }

  lemma {:induction false} ControlMeans(c: char)
    requires c as int < 32
    ensures EscapedAs(c, Escape(c))
  {
    if ShortEscape(c).None? {
      UnitIsWritten(c as int);
    }
  }

  lemma {:induction false} EscapeMeans(c: char)
    ensures EscapedAs(c, Escape(c))
  {
    var n := c as int;
    if n < 32 {
      ControlMeans(c);
    } else if n <= 126 {
      PrintableMeans(c);
    } else if n < 0x10000 {
      UnitIsWritten(n);
    } else {
      PairIsWritten(c);
    }
  }

  /** A string is written between quotes, character by character. */
  lemma {:induction false} QuoteMeans(s: string)
    ensures exists pieces: seq<string> ::
              && |pieces| == |s| && (forall i | 0 <= i < |s| :: EscapedAs(s[i], pieces[i]))
              && Quote(s) == ['\"'] + Glue(pieces) + ['\"']
  {
    var pieces := seq(|s|, i requires 0 <= i < |s| => Escape(s[i]));
    forall i | 0 <= i < |s| ensures EscapedAs(s[i], pieces[i]) {
      EscapeMeans(s[i]);
    }
    GlueEscapes(s, pieces);
  }

  function Glue(pieces: seq<string>): string { if pieces == [] then "" else pieces[0] + Glue(pieces[1..]) }

  lemma {:induction false} GlueEscapes(s: string, pieces: seq<string>)
    requires |pieces| == |s| && forall i | 0 <= i < |s| :: pieces[i] == Escape(s[i])
    ensures EscapeAll(s) == Glue(pieces)
  {
    if s != "" {
      GlueEscapes(s[1..], pieces[1..]);
    }
  }
}
