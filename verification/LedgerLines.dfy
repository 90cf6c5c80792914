/**
  What the recognizers of the plan mean, said of the characters of a line, and what
  kinds, parents and names of the extracted blocks mean in those terms.
 */
module LedgerLines {
  import opened LedgerText
  import opened LedgerExtract

  // ----- Lines -----

  /** The line boundaries of the host language, by code point. */
  predicate LineEnd(c: char) {
    var n := c as int;
    10 <= n <= 13 || 28 <= n <= 30 || n == 133 || n == 8232 || n == 8233
  }

  predicate NoEnds(s: string) { forall i | 0 <= i < |s| :: !LineEnd(s[i]) }

  predicate Ending(e: string) { e == "\r\n" || (|e| == 1 && LineEnd(e[0])) }

  ghost predicate EndsAt(line: string, n: nat) { n < |line| && Ending(line[n..]) && forall i | 0 <= i < n :: !LineEnd(line[i]) }

  ghost predicate Ended(line: string) { exists n: nat :: EndsAt(line, n) }

  /** A pair of carriage return and line feed is one boundary. */
  predicate SplitPair(a: string, b: string) { a != "" && b != "" && a[|a| - 1] == '\r' && b[0] == '\n' }

  ghost predicate Splits(lines: seq<string>, s: string) {
    && Concat(lines) == s
    && (forall i | 0 <= i < |lines| :: Ended(lines[i]) || (i == |lines| - 1 && lines[i] != "" && NoEnds(lines[i])))
    && (forall i | 0 <= i < |lines| - 1 :: !SplitPair(lines[i], lines[i + 1]))
  }

  lemma {:induction false} FirstLine(s: string)
    requires s != ""
    ensures
      var n := LineLength(s);
      && (EndsAt(s[..n], n - 1) || (n > 1 && EndsAt(s[..n], n - 2)) || (n == |s| && NoEnds(s)))
      && (n < |s| ==> Ended(s[..n]) && !SplitPair(s[..n], s[n..]))
  {
    var n := LineLength(s);
    if s[0] == '\r' && |s| > 1 && s[1] == '\n' {
      assert s[..2] == "\r\n" && s[..2][0..] == s[..2];
      assert EndsAt(s[..2], 0);
    } else if Terminator(s[0]) {
      assert s[..1][0..] == [s[0]];
      assert EndsAt(s[..1], 0);
    } else if |s| > 1 {
      var m := n - 1;
      FirstLine(s[1..]);
      assert s[1..][..m] == s[1..n] && s[..n][1..] == s[1..n];
      LongerLine(s, m);
    }
  }

  /** A line stays one with another character before it. */
  lemma {:induction false} LongerLine(s: string, m: nat)
    requires s != "" && m < |s| && !LineEnd(s[0])
    ensures forall k: nat :: EndsAt(s[1..][..m], k) ==> EndsAt(s[..m + 1], k + 1)
    ensures m > 0 && m < |s| - 1 ==> (SplitPair(s[..m + 1], s[m + 1..]) <==> SplitPair(s[1..][..m], s[1..][m..]))
    ensures NoEnds(s[1..]) ==> NoEnds(s)
  {
    forall k: nat | EndsAt(s[1..][..m], k) ensures EndsAt(s[..m + 1], k + 1) {
      assert s[..m + 1][k + 1..] == s[1..][..m][k..];
      var longer := s[..m + 1];
      forall i | 0 <= i < k + 1 ensures !LineEnd(longer[i]) {
        assert i > 0 ==> longer[i] == s[1..][..m][i - 1];
      }
    }
    if NoEnds(s[1..]) {
      forall i | 0 <= i < |s| ensures !LineEnd(s[i]) {
        assert i > 0 ==> s[i] == s[1..][i - 1];
      }
    }
  }

  /** The lines of a text are a split of it. */
  lemma {:induction false} SplitSplits(s: string)
    ensures Splits(SplitLines(s), s)
  {
    if s != "" {
      var n := LineLength(s);
      FirstLine(s);
      SplitSplits(s[n..]);
      ConcatSplit(s);
      var lines, rest := SplitLines(s), SplitLines(s[n..]);
      assert lines[1..] == rest;
      if n < |s| {
        assert rest[0] == s[n..][..LineLength(s[n..])];
      } else {
        assert s[..n] == s && rest == [];
      }
    }
  }

  /** The first line of a split has the length of the first line. */
  lemma {:induction false} FirstOfSplit(s: string, line: string, rest: string)
    requires s == line + rest && s != ""
    requires Ended(line) || (rest == "" && line != "" && NoEnds(line))
    requires rest != "" ==> !SplitPair(line, rest)
    ensures |line| == LineLength(s)
    decreases |s|
  {
    assert forall i | 0 <= i < |line| :: s[i] == line[i];
    if Ended(line) {
      var n: nat :| EndsAt(line, n);
      if n > 0 {
        ShorterLine(line, n);
        FirstOfSplit(s[1..], line[1..], rest);
      } else {
        assert line[0..] == line;
        assert rest != "" && line[|line| - 1] == '\r' ==> s[|line|] == rest[0];
      }
    } else if |line| > 1 {
      assert line[0] == s[0];
      assert s == line && s[1..] == line[1..] + "";
      assert NoEnds(line[1..]);
      FirstOfSplit(s[1..], line[1..], "");
    }
  }

  lemma {:induction false} ShorterLine(line: string, n: nat)
    requires n > 0 && EndsAt(line, n)
    ensures EndsAt(line[1..], n - 1) && !LineEnd(line[0])
  {
    assert line[1..][n - 1..] == line[n..];
    forall i | 0 <= i < n - 1 ensures !LineEnd(line[1..][i]) {
      assert line[1..][i] == line[i + 1];
    }
  }

  lemma {:induction false} SplitUnique(lines: seq<string>, s: string)
    requires Splits(lines, s)
    ensures lines == SplitLines(s)
  {
    if lines != [] {
      var line, rest := lines[0], Concat(lines[1..]);
      if |lines| > 1 {
        assert lines[1] != "";
        assert lines[1..][0] == lines[1];
        assert rest[0] == lines[1][0];
      } else {
        assert lines[1..] == [];
      }
      FirstOfSplit(s, line, rest);
      assert s[..|line|] == line && s[|line|..] == rest;
      forall i | 0 <= i < |lines[1..]|
        ensures Ended(lines[1..][i]) || (i == |lines[1..]| - 1 && lines[1..][i] != "" && NoEnds(lines[1..][i]))
      {
        assert lines[1..][i] == lines[i + 1];
      }
      forall i | 0 <= i < |lines[1..]| - 1 ensures !SplitPair(lines[1..][i], lines[1..][i + 1]) {
        assert lines[1..][i] == lines[i + 1] && lines[1..][i + 1] == lines[i + 2];
      }
      SplitUnique(lines[1..], rest);
    }
  }

  /** A text has exactly one split into lines, and it is the one that is read. */
  lemma {:induction false} SplitIsTheOne(lines: seq<string>, s: string)
    ensures Splits(lines, s) <==> lines == SplitLines(s)
  {
    SplitSplits(s);
    if Splits(lines, s) {
      SplitUnique(lines, s);
    }
  }

  /** Only carriage returns and line feeds from `n` on, and none just before. */
  ghost predicate StripsTo(s: string, n: nat) {
    && n <= |s| && (forall i | n <= i < |s| :: s[i] == '\r' || s[i] == '\n')
    && (n > 0 ==> s[n - 1] != '\r' && s[n - 1] != '\n')
  }

  lemma {:induction false} StrippedMeans(s: string)
    ensures exists n: nat :: StripsTo(s, n) && Stripped(s) == s[..n]
    ensures forall n: nat | StripsTo(s, n) :: n == |Stripped(s)|
  {
    StripsEnds(s);
    assert StripsTo(s, |Stripped(s)|);
  }

  lemma {:induction false} StripsEnds(s: string)
    ensures |Stripped(s)| <= |s| && Stripped(s) == s[..|Stripped(s)|] && StripsTo(s, |Stripped(s)|)
  {
    if s != "" && s[|s| - 1] in {'\r', '\n'} {
      StripsEnds(s[..|s| - 1]);
    } else {
      assert s[..|s|] == s;
    }
  }

  // ----- Headings -----

  predicate Hashed(s: string, n: nat) { n < |s| && s[n] == ' ' && forall i | 0 <= i < n :: s[i] == '#' }

  /** One to six hashes, a blank, and the title; a line feed may follow. */
  ghost predicate HeadingLine(s: string, n: nat, title: string) {
    && 1 <= n <= 6 && Hashed(s, n)
    && title != "" && '\n' !in title
    && (s[n + 1..] == title || s[n + 1..] == title + "\n")
  }

  lemma {:induction false} HashesAre(s: string)
    ensures
      var n := Hashes(s);
      (forall i | 0 <= i < n :: s[i] == '#') && (n < |s| ==> s[n] != '#')
  {
    if s != "" && s[0] == '#' {
      HashesAre(s[1..]);
      var n := Hashes(s);
      forall i | 0 <= i < n ensures s[i] == '#' {
        assert i > 0 ==> s[i] == s[1..][i - 1];
      }
      assert n < |s| ==> s[n] == s[1..][n - 1];
    }
  }

  /** A line is recognized as a heading of level `n` exactly when it starts with `n` hashes and a blank before its title. */
  lemma {:induction false} HeadingMeans(s: string, n: nat, title: string)
    ensures MatchHeading(s) == Some(Title(n, title)) <==> HeadingLine(s, n, title)
  {
    HashesAre(s);
    var m := Hashes(s);
    if HeadingLine(s, n, title) {
      assert m == n;
      var body := s[n + 1..];
      assert body == title + "\n" ==> body[..|body| - 1] == title;
    }
    if MatchHeading(s) == Some(Title(n, title)) {
      assert m == n;
      var body := s[n + 1..];
      assert body[|body| - 1] == '\n' ==> body == body[..|body| - 1] + "\n";
    }
  }

  ghost predicate IsHeadingLine(s: string) { exists n: nat, title: string :: HeadingLine(s, n, title) }

  lemma {:induction false} HeadingKnown(s: string)
    ensures IsHeadingLine(s) <==> MatchHeading(s).Some?
  {
    if MatchHeading(s).Some? {
      var t := MatchHeading(s).value;
      HeadingMeans(s, t.level, t.text);
      assert HeadingLine(s, t.level, t.text);
    }
    if IsHeadingLine(s) {
      var n: nat, title: string :| HeadingLine(s, n, title);
      HeadingMeans(s, n, title);
    }
  }

  // ----- Other lines -----

  /** White space and digits are apart from the marks that open blocks. */
  ghost predicate Sane(lex: Lexicon) {
    && (forall c | lex.space(c) || lex.digit(c) :: c !in {'#', '-', '*', '+', '_', '.', '|', '`', '~'})
    && (forall c :: !(lex.space(c) && lex.digit(c)))
  }

  ghost predicate AllIn(s: string, a: nat, b: nat, p: char -> bool) { a <= b <= |s| && forall i | a <= i < b :: p(s[i]) }

  ghost predicate AllOf(s: string, p: char -> bool) { AllIn(s, 0, |s|, p) }

  ghost predicate BulletAt(s: string, a: nat) { a + 1 < |s| && s[a] in {'-', '*', '+'} && s[a + 1] == ' ' }

  ghost predicate NumberAt(lex: Lexicon, s: string, a: nat, b: nat) {
    a < b && b + 1 < |s| && AllIn(s, a, b, lex.digit) && s[b] == '.' && s[b + 1] == ' '
  }

  ghost predicate ItemAt(lex: Lexicon, s: string, a: nat, b: nat) {
    AllIn(s, 0, a, lex.space) && (BulletAt(s, a) || NumberAt(lex, s, a, b))
  }

  /** Blanks, then a bullet or a number with a point, then a blank. */
  ghost predicate ListLine(lex: Lexicon, s: string) {
    exists a: nat, b: nat :: ItemAt(lex, s, a, b)
  }

  lemma {:induction false} SkipMeans(s: string, p: char -> bool)
    ensures
      var n := |s| - |SkipWhile(s, p)|;
      SkipWhile(s, p) == s[n..] && AllIn(s, 0, n, p) && (n < |s| ==> !p(s[n]))
  {
    if s != "" && p(s[0]) {
      SkipMeans(s[1..], p);
      var n := |s| - |SkipWhile(s, p)|;
      assert s[1..][n - 1..] == s[n..];
      forall i | 0 <= i < n ensures p(s[i]) {
        assert i > 0 ==> s[i] == s[1..][i - 1];
      }
    } else {
      assert s[0..] == s;
    }
  }

  lemma {:induction false} SkipIs(s: string, p: char -> bool, n: nat)
    requires n <= |s| && AllIn(s, 0, n, p) && (n < |s| ==> !p(s[n]))
    ensures SkipWhile(s, p) == s[n..]
  {
    SkipMeans(s, p);
    assert |s| - |SkipWhile(s, p)| == n;
  }

  /** After the blanks and digits that are skipped, what the recognizer looks at. */
  lemma {:induction false} ItemFound(lex: Lexicon, s: string)
    requires MatchListItem(lex, s)
    ensures ListLine(lex, s)
  {
    var t := SkipWhile(s, lex.space);
    var u := SkipWhile(t, lex.digit);
    SkipMeans(s, lex.space);
    SkipMeans(t, lex.digit);
    var a, b := |s| - |t|, |s| - |u|;
    assert forall i | a <= i < |s| :: s[i] == t[i - a];
    if |t| >= 2 && t[0] in {'-', '*', '+'} && t[1] == ' ' {
      assert BulletAt(s, a);
    } else {
      assert u[..2] == ". ";
      assert u[0] == s[b] && u[1] == s[b + 1];
      assert NumberAt(lex, s, a, b);
    }
    assert ItemAt(lex, s, a, b);
  }

  lemma {:induction false} ItemTaken(lex: Lexicon, s: string, a: nat, b: nat)
    requires Sane(lex) && ItemAt(lex, s, a, b)
    ensures MatchListItem(lex, s)
  {
    ItemStarts(lex, s, a, b);
    SkipIs(s, lex.space, a);
    var t := s[a..];
    assert forall i | 0 <= i < |t| :: t[i] == s[a + i];
    if NumberAt(lex, s, a, b) {
      SkipIs(t, lex.digit, b - a);
      var u := SkipWhile(t, lex.digit);
      assert u == t[b - a..] && u[0] == '.' && u[1] == ' ';
      assert u[..2] == ". ";
    }
  }

  lemma {:induction false} ListMeans(lex: Lexicon, s: string)
    requires Sane(lex)
    ensures MatchListItem(lex, s) <==> ListLine(lex, s)
  {
    if MatchListItem(lex, s) {
      ItemFound(lex, s);
    }
    if ListLine(lex, s) {
      var a: nat, b: nat :| ItemAt(lex, s, a, b);
      ItemTaken(lex, s, a, b);
    }
  }

  function CountOf(s: string, c: char): nat { multiset(s)[c] }

  /** Nothing but blanks and at least three of one mark. */
  ghost predicate SeparatorLine(lex: Lexicon, s: string) {
    exists c :: c in {'-', '*', '_'} && CountOf(s, c) >= 3 && forall i | 0 <= i < |s| :: lex.space(s[i]) || s[i] == c
  }

  lemma {:induction false} MarksMeans(lex: Lexicon, s: string)
    ensures forall c | c in Marks(lex, s) :: c in s && !lex.space(c)
    ensures forall c :: !lex.space(c) ==> CountOf(Marks(lex, s), c) == CountOf(s, c)
  {
    if s != "" {
      MarksMeans(lex, s[1..]);
      assert s == [s[0]] + s[1..];
    }
  }

  lemma {:induction false} OnlyOne(m: string, c: char)
    requires forall x | x in m :: x == c
    ensures CountOf(m, c) == |m|
  {
    if m != "" {
      assert forall x | x in m[1..] :: x in m;
      OnlyOne(m[1..], c);
      assert m[0] in m && m == [m[0]] + m[1..];
    }
  }

  lemma {:induction false} SeparatorMeans(lex: Lexicon, s: string)
    requires Sane(lex)
    ensures MatchSeparator(lex, s) <==> SeparatorLine(lex, s)
  {
    var m := Marks(lex, s);
    MarksMeans(lex, s);
    if MatchSeparator(lex, s) {
      var c := m[0];
      OnlyOne(m, c);
      forall i | 0 <= i < |s| ensures lex.space(s[i]) || s[i] == c {
        if !lex.space(s[i]) {
          assert CountOf(s, s[i]) > 0;
          assert s[i] in m;
        }
      }
      assert c in {'-', '*', '_'} && CountOf(s, c) >= 3;
    }
    if SeparatorLine(lex, s) {
      var c :| c in {'-', '*', '_'} && CountOf(s, c) >= 3 && forall i | 0 <= i < |s| :: lex.space(s[i]) || s[i] == c;
      assert CountOf(m, c) >= 3;
      OnlyOne(m, c);
      assert m[0] in m;
    }
  }

  ghost predicate Opens(s: string, a: char, b: char, c: char) { |s| >= 3 && s[0] == a && s[1] == b && s[2] == c }

  ghost predicate FenceLine(s: string) { Opens(s, '`', '`', '`') || Opens(s, '~', '~', '~') }

  ghost predicate RuleLine(lex: Lexicon, s: string) {
    |s| >= 2 && s[0] == '|' && forall i | 1 <= i < |s| :: lex.space(s[i]) || s[i] in {':', '|', '-'}
  }

  ghost predicate RowLine(s: string) { s != "" && s[0] == '|' }

  lemma {:induction false} ItemStarts(lex: Lexicon, s: string, a: nat, b: nat)
    requires ItemAt(lex, s, a, b)
    ensures s != "" && (lex.space(s[0]) || lex.digit(s[0]) || s[0] in {'-', '*', '+'})
    ensures a < |s| && (lex.digit(s[a]) || s[a] in {'-', '*', '+'})
  {
  }

  lemma {:induction false} FirstTells(lex: Lexicon, s: string)
    requires Sane(lex) && s != "" && s[0] in {'#', '|', '`', '~'}
    ensures !ListLine(lex, s) && !SeparatorLine(lex, s) && !AllOf(s, lex.space)
  {
    forall a: nat, b: nat ensures !ItemAt(lex, s, a, b) {
      if ItemAt(lex, s, a, b) {
        ItemStarts(lex, s, a, b);
      }
    }
  }

  lemma {:induction false} BlankApart(lex: Lexicon, s: string)
    requires Sane(lex) && AllOf(s, lex.space)
    ensures !ListLine(lex, s) && !SeparatorLine(lex, s)
  {
    forall a: nat, b: nat ensures !ItemAt(lex, s, a, b) {
      if ItemAt(lex, s, a, b) {
        ItemStarts(lex, s, a, b);
      }
    }
    forall c | CountOf(s, c) > 0 ensures lex.space(c) {
      assert c in s;
    }
  }

  /** Kinds are told apart by what the line is made of; only a separator can also look like a list item. */
  lemma {:induction false} KindMeans(lex: Lexicon, s: string)
    requires Sane(lex)
    ensures
      var kind := KindOf(lex, s);
      && (kind == HeadingBlock <==> IsHeadingLine(s))
      && (kind == Code <==> FenceLine(s))
      && (kind == Spacing <==> AllOf(s, lex.space))
      && (kind == Separator <==> SeparatorLine(lex, s))
      && (kind == TableSeparator <==> RuleLine(lex, s))
      && (kind == TableRow <==> RowLine(s) && !RuleLine(lex, s))
      && (kind == ListItem <==> ListLine(lex, s) && !SeparatorLine(lex, s))
  {
    HeadingKnown(s);
    ListMeans(lex, s);
    SeparatorMeans(lex, s);
    FenceMeans(s);
    RuleMeans(lex, s);
    BlankMeans(lex, s);
    if IsHeadingLine(s) {
      var n: nat, title: string :| HeadingLine(s, n, title);
      assert s[0] == '#';
    }
    if s != "" && s[0] in {'#', '|', '`', '~'} {
      FirstTells(lex, s);
    }
    if AllOf(s, lex.space) {
      BlankApart(lex, s);
    }
  }

  lemma {:induction false} FenceMeans(s: string)
    ensures Fenced(s) <==> FenceLine(s)
    ensures StartsWith(s, "|") <==> RowLine(s)
  {
    if |s| >= 3 {
      assert s[..3] == [s[0], s[1], s[2]];
    }
    if |s| >= 1 {
      assert s[..1] == [s[0]];
    }
  }

  lemma {:induction false} RuleMeans(lex: Lexicon, s: string)
    ensures MatchTableSeparator(lex, s) <==> RuleLine(lex, s)
  {
    if |s| >= 2 {
      forall i | 1 <= i < |s| ensures s[i] == s[1..][i - 1] {
      }
      if RuleLine(lex, s) {
        forall c | c in s[1..] ensures lex.space(c) || c in {':', '|', '-'} {
          var i :| 0 <= i < |s[1..]| && s[1..][i] == c;
          assert s[i + 1] == c;
        }
      }
      if MatchTableSeparator(lex, s) {
        forall i | 1 <= i < |s| ensures lex.space(s[i]) || s[i] in {':', '|', '-'} {
          assert s[1..][i - 1] in s[1..];
        }
      }
    }
  }

  lemma {:induction false} BlankMeans(lex: Lexicon, s: string)
    ensures Blank(lex, s) <==> AllOf(s, lex.space)
  {
  }

  // ----- Requirement numbers -----

  /** Capitals from `at` on, a dash and three digits. */
  ghost predicate NumberFrom(lex: Lexicon, s: string, at: nat, id: string) {
    && |id| >= 5 && at + |id| <= |s| && id == s[at..at + |id|]
    && (forall i | at <= i < at + |id| - 4 :: 'A' <= s[i] <= 'Z')
    && s[at + |id| - 4] == '-'
    && forall i | at + |id| - 3 <= i < at + |id| :: lex.digit(s[i])
  }

  lemma {:induction false} RequirementMeans(lex: Lexicon, s: string, id: string)
    ensures RequirementId(lex, s) == Some(id) <==> NumberFrom(lex, s, 0, id)
  {
    var rest := SkipWhile(s, Upper);
    var n := |s| - |rest|;
    SkipMeans(s, Upper);
    assert forall i | 0 <= i < |rest| :: rest[i] == s[n + i];
    if NumberFrom(lex, s, 0, id) {
      assert !Upper(s[|id| - 4]);
      SkipIs(s, Upper, |id| - 4);
      assert lex.digit(s[|id| - 3]) && lex.digit(s[|id| - 2]) && lex.digit(s[|id| - 1]);
    }
  }

  ghost predicate Begins(s: string, prefix: string) { |prefix| <= |s| && forall i | 0 <= i < |prefix| :: s[i] == prefix[i] }

  lemma {:induction false} BeginsMeans(s: string, prefix: string)
    ensures StartsWith(s, prefix) <==> Begins(s, prefix)
  {
    if Begins(s, prefix) {
      assert s[..|prefix|] == prefix;
    }
    if StartsWith(s, prefix) {
      assert forall i | 0 <= i < |prefix| :: s[..|prefix|][i] == s[i];
    }
  }

  lemma {:induction false} NumberShift(lex: Lexicon, s: string, at: nat, id: string)
    requires at <= |s|
    ensures NumberFrom(lex, s[at..], 0, id) <==> NumberFrom(lex, s, at, id)
  {
    var t := s[at..];
    assert forall i | 0 <= i < |t| :: t[i] == s[at + i];
    if at + |id| <= |s| {
      assert t[..|id|] == s[at..at + |id|] && t[0..0 + |id|] == t[..|id|];
    }
    if NumberFrom(lex, t, 0, id) {
      forall i | at <= i < at + |id| - 4 ensures 'A' <= s[i] <= 'Z' {
        assert t[i - at] == s[i];
      }
      forall i | at + |id| - 3 <= i < at + |id| ensures lex.digit(s[i]) {
        assert t[i - at] == s[i];
      }
    }
  }

  /** The number right after the prefix, or after two stars that follow it. */
  ghost predicate AfterStars(lex: Lexicon, s: string, at: nat, id: string) {
    NumberFrom(lex, s, at, id) || (at + 2 <= |s| && s[at] == '*' && s[at + 1] == '*' && NumberFrom(lex, s, at + 2, id))
  }

  lemma {:induction false} AfterPrefixMeans(lex: Lexicon, s: string, prefix: string, id: string)
    ensures AfterPrefix(lex, s, prefix) == Some(id) <==> Begins(s, prefix) && AfterStars(lex, s, |prefix|, id)
  {
    BeginsMeans(s, prefix);
    if StartsWith(s, prefix) {
      var at := |prefix|;
      var t := s[at..];
      BeginsMeans(t, "**");
      assert forall i | 0 <= i < |t| :: t[i] == s[at + i];
      if |t| >= 2 {
        assert t[2..] == s[at + 2..];
        RequirementMeans(lex, t[2..], id);
        NumberShift(lex, s, at + 2, id);
        if t[0] == '*' {
          StarsApart(lex, t);
        }
      }
      RequirementMeans(lex, t, id);
      NumberShift(lex, s, at, id);
    }
  }

  /** A number does not start with a star. */
  lemma {:induction false} StarsApart(lex: Lexicon, t: string)
    requires t != "" && t[0] == '*'
    ensures RequirementId(lex, t).None?
  {
    assert SkipWhile(t, Upper) == t;
  }

  lemma {:induction false} NumberUnique(lex: Lexicon, s: string, at: nat, a: string, b: string)
    requires NumberFrom(lex, s, at, a) && NumberFrom(lex, s, at, b)
    ensures a == b
  {
    assert s[at + |a| - 4] == '-' && s[at + |b| - 4] == '-';
    assert |a| == |b|;
  }

  lemma {:induction false} AfterStarsUnique(lex: Lexicon, s: string, at: nat, a: string, b: string)
    requires AfterStars(lex, s, at, a) && AfterStars(lex, s, at, b)
    ensures a == b
  {
    if NumberFrom(lex, s, at, a) && NumberFrom(lex, s, at, b) {
      NumberUnique(lex, s, at, a, b);
    } else {
      NumberUnique(lex, s, at + 2, a, b);
    }
  }

  ghost predicate DefinesAfter(lex: Lexicon, s: string, prefix: string, id: string) {
    Begins(s, prefix) && AfterStars(lex, s, |prefix|, id)
  }

  /** A table row, a small heading or a list item that starts with a requirement number, in bold or not. */
  ghost predicate Defines(lex: Lexicon, s: string, id: string) {
    || DefinesAfter(lex, s, "| ", id) || DefinesAfter(lex, s, "#### ", id)
    || DefinesAfter(lex, s, "- **", id) || DefinesAfter(lex, s, "- ", id)
  }

  lemma {:induction false} PrefixesApart(s: string)
    ensures Begins(s, "| ") ==> s != "" && s[0] == '|'
    ensures Begins(s, "#### ") ==> s != "" && s[0] == '#'
    ensures Begins(s, "- ") ==> s != "" && s[0] == '-'
    ensures Begins(s, "- **") ==> |s| >= 4 && s[0] == '-' && s[2] == '*' && s[3] == '*' && Begins(s, "- ")
  {
    if Begins(s, "- **") {
      assert s[0] == "- **"[0] && s[1] == "- **"[1] && s[2] == "- **"[2] && s[3] == "- **"[3];
    }
    if Begins(s, "| ") {
      assert s[0] == "| "[0];
    }
    if Begins(s, "#### ") {
      assert s[0] == "#### "[0];
    }
    if Begins(s, "- ") {
      assert s[0] == "- "[0];
    }
  }

  /** A bold list item says the same number whichever way its stars are read. */
  lemma {:induction false} BoldItem(lex: Lexicon, s: string, a: string, b: string)
    requires DefinesAfter(lex, s, "- **", a) && DefinesAfter(lex, s, "- ", b)
    ensures a == b
  {
    PrefixesApart(s);
    assert NumberFrom(lex, s, 4, b);
    AfterStarsUnique(lex, s, 4, a, b);
  }

  lemma {:induction false} DefinesUnique(lex: Lexicon, s: string, a: string, b: string)
    requires Defines(lex, s, a) && Defines(lex, s, b)
    ensures a == b
  {
    PrefixesApart(s);
    if DefinesAfter(lex, s, "| ", a) {
      AfterStarsUnique(lex, s, 2, a, b);
    } else if DefinesAfter(lex, s, "#### ", a) {
      AfterStarsUnique(lex, s, 5, a, b);
    } else if DefinesAfter(lex, s, "- **", a) && DefinesAfter(lex, s, "- **", b) {
      AfterStarsUnique(lex, s, 4, a, b);
    } else if DefinesAfter(lex, s, "- ", a) && DefinesAfter(lex, s, "- ", b) {
      AfterStarsUnique(lex, s, 2, a, b);
    } else if DefinesAfter(lex, s, "- **", a) {
      BoldItem(lex, s, a, b);
    } else {
      BoldItem(lex, s, b, a);
    }
  }

  /** The requirement a block defines is the number its first line starts with. */
  lemma {:induction false} DefinitionMeans(lex: Lexicon, s: string, id: string)
    ensures Definition(lex, s) == Some(id) <==> Defines(lex, s, id)
  {
    AfterPrefixMeans(lex, s, "| ", id);
    AfterPrefixMeans(lex, s, "#### ", id);
    AfterPrefixMeans(lex, s, "- **", id);
    AfterPrefixMeans(lex, s, "- ", id);
    if Defines(lex, s, id) {
      assert Definition(lex, s).Some?;
      var got := Definition(lex, s).value;
      AfterPrefixMeans(lex, s, "| ", got);
      AfterPrefixMeans(lex, s, "#### ", got);
      AfterPrefixMeans(lex, s, "- **", got);
      AfterPrefixMeans(lex, s, "- ", got);
      DefinesUnique(lex, s, id, got);
    }
  }

  // ----- Numbers in names -----

  function Value(digits: string): int {
    if digits == "" then 0 else 10 * Value(digits[..|digits| - 1]) + (digits[|digits| - 1] as int - '0' as int)
  }

  /** A number is written in decimal, without leading zeros. */
  lemma {:induction false} DecimalMeans(n: nat)
    ensures Value(Decimal(n)) == n && (Decimal(n)[0] == '0' ==> n == 0)
  {
    if n >= 10 {
      DecimalMeans(n / 10);
      var front := Decimal(n / 10);
      assert Decimal(n)[..|Decimal(n)| - 1] == front && Decimal(n)[0] == front[0];
    } else {
      assert Decimal(n)[..0] == "";
    }
  }
}
