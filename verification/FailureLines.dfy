/** The lines the failure parsers recognize, as the grammars they are taken from, said of their characters. */
module FailureLines {
  import opened FailureParsers

  predicate AlphaChar(c: char) { 65 <= c as int <= 90 || 97 <= c as int <= 122 }

  predicate DigitChar(c: char) { 48 <= c as int <= 57 }

  // ----- Segments -----

  ghost predicate NoSep(s: string, sep: char, i: nat, j: nat) { i <= j <= |s| && forall k | i <= k < j :: s[k] != sep }

  /** The characters from `i` to `j` lie between two separators or ends. */
  ghost predicate Segment(s: string, sep: char, i: nat, j: nat) {
    && NoSep(s, sep, i, j) && (i == 0 || s[i - 1] == sep) && (j == |s| || s[j] == sep)
  }

  ghost predicate IsSegment(s: string, sep: char, part: string) {
    exists i: nat, j: nat :: Segment(s, sep, i, j) && part == s[i..j]
  }

  /** The last part starts after the last separator. */
  lemma {:induction false} LastPart(s: string, sep: char) returns (i: nat)
    ensures Segment(s, sep, i, |s|) && Split(s, sep)[|Split(s, sep)| - 1] == s[i..]
  {
    if s == "" {
      i := 0;
    } else {
      var front, c := s[..|s| - 1], s[|s| - 1];
      if c == sep {
        i := |s|;
      } else {
        i := LastPart(front, sep);
        assert s[i..] == front[i..] + [c];
      }
    }
  }

  lemma {:induction false} LastPartIs(s: string, sep: char, i: nat)
    requires Segment(s, sep, i, |s|)
    ensures Split(s, sep)[|Split(s, sep)| - 1] == s[i..]
  {
    var j := LastPart(s, sep);
    assert i == j;
  }

  lemma {:induction false} SplitStep(s: string, sep: char)
    requires s != ""
    ensures
      var before, parts := Split(s[..|s| - 1], sep), Split(s, sep);
      if s[|s| - 1] == sep then parts == before + [""] && parts[..|parts| - 1] == before
      else |parts| == |before| && parts[..|parts| - 1] == before[..|before| - 1]
  {
  }

  lemma {:induction false} Within(s: string, i: nat, j: nat)
    requires i <= j < |s|
    ensures s[..|s| - 1][i..j] == s[i..j]
  {
  }

  lemma {:induction false} SegmentGrows(s: string, sep: char, i: nat, j: nat)
    requires s != "" && Segment(s[..|s| - 1], sep, i, j) && (j < |s| - 1 || s[|s| - 1] == sep)
    ensures j < |s| && Segment(s, sep, i, j) && s[i..j] == s[..|s| - 1][i..j]
  {
  }

  lemma {:induction false} LastOfFront(s: string, sep: char, part: string) returns (i: nat)
    requires s != "" && s[|s| - 1] == sep
    requires part == Split(s[..|s| - 1], sep)[|Split(s[..|s| - 1], sep)| - 1]
    ensures i < |s| && Segment(s, sep, i, |s| - 1) && part == s[i..|s| - 1]
  {
    var front := s[..|s| - 1];
    i := LastPart(front, sep);
    assert front[i..] == front[i..|front|];
    SegmentGrows(s, sep, i, |front|);
  }

  /** Every part but the last ends before a separator. */
  lemma {:induction false} EarlierPart(s: string, sep: char, part: string) returns (i: nat, j: nat)
    requires part in Split(s, sep)[..|Split(s, sep)| - 1]
    ensures j < |s| && Segment(s, sep, i, j) && part == s[i..j]
  {
    var before := Split(s[..|s| - 1], sep);
    SplitStep(s, sep);
    if part in before[..|before| - 1] {
      i, j := EarlierPart(s[..|s| - 1], sep, part);
      SegmentGrows(s, sep, i, j);
    } else {
      i := LastOfFront(s, sep, part);
      j := |s| - 1;
    }
  }

  /** A segment that ends at a separator is a part other than the last. */
  lemma {:induction false} BeforeLast(s: string, sep: char, i: nat, j: nat)
    requires j < |s| && Segment(s, sep, i, j)
    ensures s[i..j] in Split(s, sep)[..|Split(s, sep)| - 1]
  {
    var front := s[..|s| - 1];
    SplitStep(s, sep);
    Within(s, i, j);
    if j == |front| {
      LastPartIs(front, sep, i);
      assert front[i..] == front[i..j];
    } else {
      BeforeLast(front, sep, i, j);
    }
  }

  lemma {:induction false} SplitFinds(s: string, sep: char, i: nat, j: nat)
    requires Segment(s, sep, i, j)
    ensures s[i..j] in Split(s, sep)
  {
    if j == |s| {
      LastPartIs(s, sep, i);
      assert s[i..j] == s[i..];
    } else {
      BeforeLast(s, sep, i, j);
    }
  }

  /** Splitting gives exactly what stands between separators. */
  lemma {:induction false} SplitMeans(s: string, sep: char, part: string)
    ensures part in Split(s, sep) <==> IsSegment(s, sep, part)
  {
    var parts := Split(s, sep);
    if part in parts {
      if part in parts[..|parts| - 1] {
        var i, j := EarlierPart(s, sep, part);
      } else {
        assert part == parts[|parts| - 1];
        var i := LastPart(s, sep);
        assert part == s[i..|s|];
      }
    }
    if IsSegment(s, sep, part) {
      var i: nat, j: nat :| Segment(s, sep, i, j) && part == s[i..j];
      SplitFinds(s, sep, i, j);
    }
  }

  // ----- Fixed beginnings and ends -----

  lemma {:induction false} StartsMeans(s: string, x: string)
    ensures StartsWith(s, x) <==> exists rest :: s == x + rest
  {
    if StartsWith(s, x) {
      assert s == x + s[|x|..];
    }
    if rest :| s == x + rest {
      assert s[..|x|] == x;
    }
  }

  lemma {:induction false} EndsMeans(s: string, x: string)
    ensures EndsWith(s, x) <==> exists rest :: s == rest + x
  {
    if EndsWith(s, x) {
      assert s == s[..|s| - |x|] + x;
    }
    if rest :| s == rest + x {
      assert s[|s| - |x|..] == x;
    }
  }

  lemma {:induction false} MiddleMeans(s: string, head: string, tail: string, middle: string)
    ensures Middle(s, head, tail) == Some(middle) <==> middle != "" && s == head + middle + tail
  {
    if Middle(s, head, tail) == Some(middle) {
      assert s == s[..|head|] + s[|head|..|s| - |tail|] + s[|s| - |tail|..];
    }
    if middle != "" && s == head + middle + tail {
      assert s[..|head|] == head && s[|s| - |tail|..] == tail && s[|head|..|s| - |tail|] == middle;
    }
  }

  // ----- Libtest -----

  ghost predicate Number(s: string) { s != "" && forall i | 0 <= i < |s| :: DigitChar(s[i]) }

  lemma {:induction false} NumberMeans(s: string)
    ensures Digits(s) <==> Number(s)
  {
    assert forall i | 0 <= i < |s| :: s[i] in s;
    if Number(s) {
      forall c | c in s ensures '0' <= c <= '9' {
        var i :| 0 <= i < |s| && s[i] == c;
      }
    }
  }

  ghost predicate RunningLine(text: string) {
    exists n :: Number(n) && (text == "running " + n + " test" || text == "running " + n + " tests")
  }

  lemma {:induction false} RunningMeans(text: string)
    ensures IsRunningHeader(text) <==> RunningLine(text)
  {
    var one, many := Middle(text, "running ", " test"), Middle(text, "running ", " tests");
    if one.Some? {
      MiddleMeans(text, "running ", " test", one.value);
      NumberMeans(one.value);
    }
    if many.Some? {
      MiddleMeans(text, "running ", " tests", many.value);
      NumberMeans(many.value);
    }
    if n :| Number(n) && (text == "running " + n + " test" || text == "running " + n + " tests") {
      MiddleMeans(text, "running ", " test", n);
      MiddleMeans(text, "running ", " tests", n);
      NumberMeans(n);
    }
  }

  ghost predicate NameChar(c: char) { AlphaChar(c) || DigitChar(c) || c in {'_', ':', '.', '-', '/'} }

  /** At most 256 characters of the alphabet, and no empty or dot part between slashes. */
  ghost predicate TestName(name: string) {
    && 0 < |name| <= 256 && (forall i | 0 <= i < |name| :: NameChar(name[i]))
    && forall part | IsSegment(name, '/', part) :: part != "" && part != "." && part != ".."
  }

  lemma {:induction false} CharMeans(c: char)
    ensures TestNameChar(c) <==> NameChar(c)
  {
    var marks := "_:.-/";
    assert c in marks <==> c == marks[0] || c == marks[1] || c == marks[2] || c == marks[3] || c == marks[4];
  }

  lemma {:induction false} TestNameMeans(name: string)
    ensures SafeTestName(name) <==> TestName(name)
  {
    forall c ensures TestNameChar(c) <==> NameChar(c) {
      CharMeans(c);
    }
    forall part ensures part in Split(name, '/') <==> IsSegment(name, '/', part) {
      SplitMeans(name, '/', part);
    }
    if TestName(name) {
      forall c | c in name ensures TestNameChar(c) {
        var i :| 0 <= i < |name| && name[i] == c;
      }
    }
  }

  ghost predicate ResultText(text: string) { exists rest :: text == "test result:" + rest }

  ghost predicate FailedLine(text: string, name: string) { TestName(name) && text == "test " + name + " ... FAILED" }

  lemma {:induction false} FirstsDiffer(text: string)
    ensures RunningLine(text) ==> text != "" && text[0] == 'r'
    ensures ResultText(text) ==> text != "" && text[0] == 't'
    ensures forall name :: FailedLine(text, name) ==> text != "" && text[0] == 't'
  {
  }

  /** Each kind of line is recognized exactly by its grammar; a result line wins over a test named like one. */
  lemma {:induction false} LibtestLineMeans(text: string, name: string)
    ensures ClassifyLibtest(text) == RunningHeader <==> RunningLine(text)
    ensures ClassifyLibtest(text) == ResultLine <==> ResultText(text)
    ensures ClassifyLibtest(text) == FailuresHeader <==> text == "failures:"
    ensures ClassifyLibtest(text) == FailedTest(name) <==> FailedLine(text, name) && !ResultText(text)
  {
    RunningMeans(text);
    StartsMeans(text, "test result:");
    MiddleMeans(text, "test ", " ... FAILED", name);
    TestNameMeans(name);
    FirstsDiffer(text);
    assert "failures:"[0] == 'f';
  }

  // ----- Unittest -----

  ghost predicate RuleText(text: string) { |text| >= 10 && forall i | 0 <= i < |text| :: text[i] == '=' }

  ghost predicate Component(s: string) {
    && s != "" && (AlphaChar(s[0]) || s[0] == '_')
    && forall i | 0 <= i < |s| :: AlphaChar(s[i]) || DigitChar(s[i]) || s[i] == '_'
  }

  ghost predicate Qualified(s: string) { forall part | IsSegment(s, '.', part) :: Component(part) }

  lemma {:induction false} ComponentMeans(s: string)
    ensures Ident(s) <==> Component(s)
  {
    assert forall i | 0 <= i < |s| :: s[i] in s;
    if Component(s) {
      forall c | c in s ensures IdentStart(c) || '0' <= c <= '9' {
        var i :| 0 <= i < |s| && s[i] == c;
      }
    }
  }

  lemma {:induction false} QualifiedMeans(s: string)
    ensures Dotted(s) <==> Qualified(s)
  {
    forall part ensures part in Split(s, '.') <==> IsSegment(s, '.', part) {
      SplitMeans(s, '.', part);
    }
    forall part ensures Ident(part) <==> Component(part) {
      ComponentMeans(part);
    }
  }

  ghost predicate HeaderLine(text: string, name: string, parent: string) {
    Component(name) && Qualified(parent) && text == name + " (" + parent + ")"
  }

  ghost predicate StatusLine(text: string, name: string, parent: string, status: string) {
    (status == "FAIL" || status == "ERROR") && exists header :: HeaderLine(header, name, parent) && text == header + " ... " + status
  }

  ghost predicate DescribedLine(text: string, status: string) {
    (status == "FAIL" || status == "ERROR") && exists prefix :: prefix != "" && text == prefix + " ... " + status
  }

  lemma {:induction false} RuleMeans(text: string)
    ensures ClassifyUnittest(text) == Rule <==> RuleText(text)
  {
    assert forall i | 0 <= i < |text| :: text[i] in text;
    if RuleText(text) {
      forall c | c in text ensures c == '=' {
        var i :| 0 <= i < |text| && text[i] == c;
      }
    }
  }

  /** Two words are what stands before and after the only blank. */
  lemma {:induction false} TwoWords(text: string, a: string, b: string)
    requires ' ' !in a && ' ' !in b && text == a + " " + b
    ensures Split(text, ' ') == [a, b]
    decreases |b|
  {
    if b == "" {
      assert text[..|text| - 1] == a;
      OneWord(a);
    } else {
      var front := b[..|b| - 1];
      assert text[..|text| - 1] == a + " " + front;
      assert ' ' !in front && b[|b| - 1] in b;
      TwoWords(a + " " + front, a, front);
      assert b == front + [b[|b| - 1]];
    }
  }

  lemma {:induction false} OneWord(a: string)
    requires ' ' !in a
    ensures Split(a, ' ') == [a]
  {
    if a != "" {
      assert ' ' !in a[..|a| - 1] && a[|a| - 1] in a;
      OneWord(a[..|a| - 1]);
      assert a == a[..|a| - 1] + [a[|a| - 1]];
    }
  }

  lemma {:induction false} WordsOf(text: string)
    requires |Split(text, ' ')| <= 2
    ensures
      var words := Split(text, ' ');
      && (|words| == 1 ==> text == words[0] && ' ' !in text)
      && (|words| == 2 ==> text == words[0] + " " + words[1] && ' ' !in words[0] && ' ' !in words[1])
  {
    if text != "" {
      var front, c := text[..|text| - 1], text[|text| - 1];
      var before := Split(front, ' ');
      SplitStep(text, ' ');
      WordsOf(front);
      assert text == front + [c];
      if c != ' ' && |before| == 2 {
        assert before[0] + " " + before[1] + [c] == before[0] + " " + (before[1] + [c]);
      }
    }
  }

  lemma {:induction false} ComponentPlain(s: string)
    requires Component(s)
    ensures ' ' !in s && '.' !in s && '(' !in s
  {
  }

  /** The characters of a qualified name are those of its parts and dots. */
  lemma {:induction false} QualifiedPlain(s: string)
    requires Qualified(s)
    ensures s != "" && ' ' !in s && '(' !in s && ')' !in s
  {
    forall k | 0 <= k < |s| ensures s[k] == '.' || AlphaChar(s[k]) || DigitChar(s[k]) || s[k] == '_' {
      if s[k] != '.' {
        var i, j := Around(s, '.', k);
        assert IsSegment(s, '.', s[i..j]);
        assert s[i..j][k - i] == s[k];
      }
    }
    if s == "" {
      assert Segment(s, '.', 0, 0) && "" == s[0..0];
      assert IsSegment(s, '.', "");
    }
  }

  /** The segment a character lies in. */
  lemma {:induction false} Around(s: string, sep: char, k: nat) returns (i: nat, j: nat)
    requires k < |s| && s[k] != sep
    ensures i <= k < j && Segment(s, sep, i, j)
  {
    i := k;
    while i > 0 && s[i - 1] != sep
      invariant i <= k && NoSep(s, sep, i, k)
    {
      i := i - 1;
    }
    j := k + 1;
    while j < |s| && s[j] != sep
      invariant k < j <= |s| && NoSep(s, sep, k, j)
    {
      j := j + 1;
    }
  }

  lemma {:induction false} HeaderMeans(text: string, name: string, parent: string)
    ensures MatchTestHeader(text) == Some((name, parent)) <==> HeaderLine(text, name, parent)
  {
    ComponentMeans(name);
    QualifiedMeans(parent);
    var words := Split(text, ' ');
    if MatchTestHeader(text) == Some((name, parent)) {
      WordsOf(text);
      MiddleMeans(words[1], "(", ")", parent);
      assert name + " " + ("(" + parent + ")") == name + " (" + parent + ")";
    }
    if HeaderLine(text, name, parent) {
      ComponentPlain(name);
      QualifiedPlain(parent);
      var second := "(" + parent + ")";
      assert text == name + " " + second;
      TwoWords(text, name, second);
      MiddleMeans(second, "(", ")", parent);
    }
  }

  lemma {:induction false} StatusMeans(text: string, status: string)
    ensures TrailingStatus(text) == Some(status) <==>
            (status == "FAIL" || status == "ERROR") && exists prefix :: text == prefix + " ... " + status
  {
    EndsMeans(text, " ... FAIL");
    EndsMeans(text, " ... ERROR");
    assert forall p: string :: p + " ... " + "FAIL" == p + " ... FAIL" && p + " ... " + "ERROR" == p + " ... ERROR";
    if prefix :| text == prefix + " ... " + status {
      if status == "ERROR" {
        assert text[|text| - 1] == 'R';
      }
      if EndsWith(text, " ... FAIL") {
        assert text[|text| - 1] == 'L';
      }
    }
  }

  lemma {:induction false} BeforeStatus(text: string, prefix: string, status: string)
    requires text == prefix + " ... " + status
    ensures |text| >= |status| + 5 && text[..|text| - |status| - 5] == prefix
  {
    assert |" ... "| == 5;
  }

  /** Lines with a status at their end. */
  lemma {:induction false} OutcomeMeans(text: string, prefix: string, status: string, name: string, parent: string)
    requires text == prefix + " ... " + status && (status == "FAIL" || status == "ERROR") && !RuleText(text)
    ensures ClassifyUnittest(text) == Outcome(name, parent, status) <==> HeaderLine(prefix, name, parent)
    ensures ClassifyUnittest(text) == Described(status) <==> prefix != "" && forall m, p :: !HeaderLine(prefix, m, p)
    ensures !ClassifyUnittest(text).TestHeader?
    ensures ClassifyUnittest(text).Outcome? ==> ClassifyUnittest(text).status == status
    ensures ClassifyUnittest(text).Described? ==> ClassifyUnittest(text).status == status
  {
    RuleMeans(text);
    StatusMeans(text, status);
    BeforeStatus(text, prefix, status);
    HeaderMeans(prefix, name, parent);
    if MatchTestHeader(prefix).Some? {
      HeaderMeans(prefix, MatchTestHeader(prefix).value.0, MatchTestHeader(prefix).value.1);
    }
    forall m, p ensures HeaderLine(prefix, m, p) <==> MatchTestHeader(prefix) == Some((m, p)) {
      HeaderMeans(prefix, m, p);
    }
  }

  /** Lines without one. */
  lemma {:induction false} PlainMeans(text: string, name: string, parent: string)
    requires TrailingStatus(text).None? && !RuleText(text)
    ensures ClassifyUnittest(text) == TestHeader(name, parent) <==> HeaderLine(text, name, parent)
    ensures ClassifyUnittest(text).TestHeader? || ClassifyUnittest(text).Plain?
  {
    RuleMeans(text);
    HeaderMeans(text, name, parent);
  }

  lemma {:induction false} HeaderHasNoStatus(text: string, name: string, parent: string)
    requires HeaderLine(text, name, parent)
    ensures TrailingStatus(text).None? && !RuleText(text)
  {
    assert text[|text| - 1] == ')' && text[0] == name[0];
    if TrailingStatus(text).Some? {
      StatusEnds(text);
    }
  }

  lemma {:induction false} StatusEnds(text: string)
    requires TrailingStatus(text).Some?
    ensures text != "" && text[|text| - 1] in {'L', 'R'}
  {
    var status := TrailingStatus(text).value;
    StatusMeans(text, status);
    assert text[|text| - 1] == status[|status| - 1];
  }

  lemma {:induction false} StatusIsNoRule(text: string, prefix: string, status: string)
    requires text == prefix + " ... " + status
    ensures !RuleText(text)
  {
    assert text[|prefix|] == ' ';
  }

  lemma {:induction false} StatusUnique(text: string, a: string, s: string, b: string, t: string)
    requires text == a + " ... " + s == b + " ... " + t && s in {"FAIL", "ERROR"} && t in {"FAIL", "ERROR"}
    ensures a == b && s == t
  {
    assert text[|text| - 1] == s[|s| - 1] == t[|t| - 1];
    BeforeStatus(text, a, s);
    BeforeStatus(text, b, t);
  }

  /** Each kind of line is recognized exactly by its grammar; a status line wins over a described one. */
  lemma {:induction false} UnittestLineMeans(text: string, name: string, parent: string, status: string)
    ensures ClassifyUnittest(text) == Rule <==> RuleText(text)
    ensures ClassifyUnittest(text) == TestHeader(name, parent) <==> HeaderLine(text, name, parent)
    ensures ClassifyUnittest(text) == Outcome(name, parent, status) <==> StatusLine(text, name, parent, status)
    ensures ClassifyUnittest(text) == Described(status) <==>
            DescribedLine(text, status) && forall m, p :: !StatusLine(text, m, p, status)
  {
    RuleMeans(text);
    if HeaderLine(text, name, parent) {
      HeaderHasNoStatus(text, name, parent);
    }
    var got := TrailingStatus(text);
    if got.Some? {
      StatusMeans(text, got.value);
      var prefix :| text == prefix + " ... " + got.value;
      StatusIsNoRule(text, prefix, got.value);
      WithStatus(text, prefix, got.value, name, parent, status);
    } else {
      StatusMeans(text, status);
      if !RuleText(text) {
        PlainMeans(text, name, parent);
      }
    }
  }

  lemma {:induction false} WithStatus(text: string, prefix: string, got: string, name: string, parent: string, status: string)
    requires text == prefix + " ... " + got && got in {"FAIL", "ERROR"} && !RuleText(text)
    ensures !ClassifyUnittest(text).TestHeader? && !HeaderLine(text, name, parent)
    ensures ClassifyUnittest(text) == Outcome(name, parent, status) <==> StatusLine(text, name, parent, status)
    ensures ClassifyUnittest(text) == Described(status) <==>
            DescribedLine(text, status) && forall m, p :: !StatusLine(text, m, p, status)
  {
    OutcomeMeans(text, prefix, got, name, parent);
    assert text[|text| - 1] == got[|got| - 1] != ')';
    forall b, t | t in {"FAIL", "ERROR"} && text == b + " ... " + t ensures b == prefix && t == got {
      StatusUnique(text, prefix, got, b, t);
    }
    forall m, p ensures StatusLine(text, m, p, status) <==> status == got && HeaderLine(prefix, m, p) {
    }
  }

  // ----- Names -----

  /** A test already named by its parent keeps that name; otherwise the method is added to it. */
  lemma {:induction false} IdentifierMeans(name: string, parent: string)
    requires Component(name)
    ensures Identifier(name, parent) ==
            if parent == name || (exists front :: parent == front + "." + name) then parent else parent + "." + name
  {
    ComponentPlain(name);
    var i := LastPart(parent, '.');
    var last := parent[i..];
    if last == name {
      if i == 0 {
        assert parent == name;
      } else {
        assert parent == parent[..i - 1] + "." + name;
      }
    }
    if parent == name {
      assert Segment(parent, '.', 0, |parent|) && parent[0..] == parent;
      LastPartIs(parent, '.', 0);
    }
    if front :| parent == front + "." + name {
      var n := |front| + 1;
      assert parent[n..] == name && forall k | n <= k < |parent| :: parent[k] in name;
      assert parent[n - 1] == '.';
      LastPartIs(parent, '.', n);
    }
  }

  /** An identifier is reported if it is a qualified name of at most 256 characters. */
  lemma {:induction false} SafeMeans(id: string)
    ensures SafeIdentifier(id) <==> |id| <= 256 && Qualified(id)
  {
    QualifiedMeans(id);
  }
}
