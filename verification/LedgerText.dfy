/** Lines of the plan and what the extractor recognizes in them. */
module LedgerText {
  datatype Option<T> = None | Some(value: T)

  /**
    Facts of the host language: white space and decimal digits of the full
    character set, the slug of a title and the digest of a text.
   */
  datatype Lexicon = Lexicon(
    space: char -> bool, digit: char -> bool, slug: string -> string, digest: string -> string)

  // ----- Lines -----

  predicate Terminator(c: char) {
    c in {'\n', '\r', '\U{0B}', '\U{0C}', '\U{1C}', '\U{1D}', '\U{1E}', '\U{85}', '\U{2028}', '\U{2029}'}
  }

  /** The length of the first line, with its terminator. */
  function LineLength(s: string): (n: nat)
    requires s != ""
    ensures 0 < n <= |s|
  {
    if s[0] == '\r' && |s| > 1 && s[1] == '\n' then 2
    else if Terminator(s[0]) || |s| == 1 then 1
    else LineLength(s[1..]) + 1
  }

  function SplitLines(s: string): seq<string> {
    if s == "" then [] else [s[..LineLength(s)]] + SplitLines(s[LineLength(s)..])
  }

  function Concat(parts: seq<string>): string {
    if parts == [] then "" else parts[0] + Concat(parts[1..])
  }

  /** Splitting into lines loses nothing. */
  lemma {:induction false} ConcatSplit(s: string)
    ensures Concat(SplitLines(s)) == s
  {
    if s != "" {
      var n := LineLength(s);
      ConcatSplit(s[n..]);
      assert SplitLines(s)[1..] == SplitLines(s[n..]);
    }
  }

  lemma {:induction false} ConcatAppend(a: seq<string>, b: seq<string>)
    ensures Concat(a + b) == Concat(a) + Concat(b)
  {
    if a == [] {
      assert a + b == b;
    } else {
      ConcatAppend(a[1..], b);
      assert (a + b)[1..] == a[1..] + b;
    }
  }

  lemma {:induction false} ConcatOne(a: seq<string>, x: string)
    ensures Concat(a + [x]) == Concat(a) + x
  {
    ConcatAppend(a, [x]);
    assert Concat([x]) == x;
  }

  // ----- Recognizers -----

  predicate StartsWith(s: string, prefix: string) { |prefix| <= |s| && s[..|prefix|] == prefix }

  /** The line without trailing carriage returns and line feeds. */
  function Stripped(s: string): string {
    if s != "" && s[|s| - 1] in {'\r', '\n'} then Stripped(s[..|s| - 1]) else s
  }

  predicate Blank(lex: Lexicon, s: string) { forall c | c in s :: lex.space(c) }

  function Hashes(s: string): (n: nat)
    ensures n <= |s|
  {
    if s != "" && s[0] == '#' then Hashes(s[1..]) + 1 else 0
  }

  datatype Title = Title(level: nat, text: string)

  /** One to six hashes, a blank and a title that does not cross a line feed. */
  function MatchHeading(s: string): (r: Option<Title>)
    ensures r.Some? ==> 1 <= r.value.level <= 6 && r.value.text != ""
  {
    var n := Hashes(s);
    if !(1 <= n <= 6) || n >= |s| || s[n] != ' ' then None
    else
      var body := s[n + 1..];
      var text := if body != "" && body[|body| - 1] == '\n' then body[..|body| - 1] else body;
      if text == "" || '\n' in text then None else Some(Title(n, text))
  }

  function SkipWhile(s: string, p: char -> bool): (r: string)
    ensures |r| <= |s|
  {
    if s != "" && p(s[0]) then SkipWhile(s[1..], p) else s
  }

  predicate MatchListItem(lex: Lexicon, s: string) {
    var t := SkipWhile(s, lex.space);
    var u := SkipWhile(t, lex.digit);
    || (|t| >= 2 && t[0] in {'-', '*', '+'} && t[1] == ' ')
    || (|u| < |t| && StartsWith(u, ". "))
  }

  function Marks(lex: Lexicon, s: string): string {
    if s == "" then ""
    else if lex.space(s[0]) then Marks(lex, s[1..])
    else [s[0]] + Marks(lex, s[1..])
  }

  /** Three or more of one mark, blanks anywhere between. */
  predicate MatchSeparator(lex: Lexicon, s: string) {
    var m := Marks(lex, s);
    |m| >= 3 && m[0] in {'-', '*', '_'} && forall c | c in m :: c == m[0]
  }

  predicate MatchTableSeparator(lex: Lexicon, s: string) {
    |s| >= 2 && s[0] == '|' && forall c | c in s[1..] :: lex.space(c) || c in {':', '|', '-'}
  }

  predicate Fenced(s: string) { StartsWith(s, "```") || StartsWith(s, "~~~") }

  /** A line that goes on with the list item or paragraph before it. */
  predicate Continues(lex: Lexicon, s: string) {
    && !Blank(lex, s) && !MatchListItem(lex, s) && MatchHeading(s).None?
    && !StartsWith(s, "|") && !Fenced(s)
  }

  predicate Upper(c: char) { 'A' <= c <= 'Z' }

  /** A requirement number at the start of `s`: capitals, a dash and three digits. */
  function RequirementId(lex: Lexicon, s: string): Option<string> {
    var rest := SkipWhile(s, Upper);
    var n := |s| - |rest|;
    if n > 0 && |rest| >= 4 && rest[0] == '-' && lex.digit(rest[1]) && lex.digit(rest[2]) && lex.digit(rest[3])
    then Some(s[..n + 4]) else None
  }

  function AfterPrefix(lex: Lexicon, s: string, prefix: string): Option<string> {
    if !StartsWith(s, prefix) then None
    else
      var t := s[|prefix|..];
      var bold := if StartsWith(t, "**") then RequirementId(lex, t[2..]) else None;
      if bold.Some? then bold else RequirementId(lex, t)
  }

  /** The requirement a table row, small heading or list item defines. */
  function Definition(lex: Lexicon, s: string): Option<string> {
    var row := AfterPrefix(lex, s, "| ");
    if row.Some? then row
    else
      var small := AfterPrefix(lex, s, "#### ");
      if small.Some? then small
      else
        var bold := AfterPrefix(lex, s, "- **");
        if bold.Some? then bold else AfterPrefix(lex, s, "- ")
  }

  // ----- Numbered names -----

  function Decimal(n: nat): (s: string)
    ensures s != "" && forall c | c in s :: '0' <= c <= '9'
  {
    if n < 10 then [('0' as int + n) as char] else Decimal(n / 10) + [('0' as int + n % 10) as char]
  }

  lemma {:induction false} DecimalInjective(m: nat, n: nat)
    requires Decimal(m) == Decimal(n)
    ensures m == n
  {
    var s, t := Decimal(m), Decimal(n);
    assert s[|s| - 1] == t[|t| - 1];
    if m >= 10 && n >= 10 {
      assert Decimal(m / 10) == s[..|s| - 1] == t[..|t| - 1] == Decimal(n / 10);
      DecimalInjective(m / 10, n / 10);
    }
  }

  function Numbered(base: string, n: nat): string { base + ":" + Decimal(n) }

  lemma {:induction false} LastColon(a: string, s: string, b: string, t: string)
    requires a + ":" + s == b + ":" + t && ':' !in s && ':' !in t
    ensures a == b && s == t
  {
    var x := a + ":" + s;
    assert x[|a|] == ':' && x[|b|] == ':';
    assert a == x[..|a|] && b == x[..|b|] && s == x[|a| + 1..] && t == x[|b| + 1..];
  }

  /** A numbered name gives back its base and its number. */
  lemma {:induction false} NumberedInjective(a: string, m: nat, b: string, n: nat)
    requires Numbered(a, m) == Numbered(b, n)
    ensures a == b && m == n
  {
    LastColon(a, Decimal(m), b, Decimal(n));
    DecimalInjective(m, n);
  }

  lemma {:induction false} NumberedDiffer(a: string, m: nat, b: string, n: nat)
    requires a != b || m != n
    ensures Numbered(a, m) != Numbered(b, n)
  {
    if Numbered(a, m) == Numbered(b, n) {
      NumberedInjective(a, m, b, n);
    }
  }
}
