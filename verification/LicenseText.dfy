/** The texts that are read as given tokens: words and parentheses with blanks between them. */
module LicenseText {
  import opened LicenseExpression

  predicate PlainChar(c: char) {
    var n := c as int;
    48 <= n <= 57 || 65 <= n <= 90 || 97 <= n <= 122 || c in {'-', '.', '+', '_', ':'}
  }

  ghost predicate PlainWord(w: string) { w != "" && forall i | 0 <= i < |w| :: PlainChar(w[i]) }

  /** The text of a token. */
  ghost predicate Writes(t: Token, w: string) {
    match t
    case Identifier(name) => w == name && PlainWord(w) && w != "AND" && w != "OR" && w != "WITH"
    case And => w == "AND"
    case Or => w == "OR"
    case With => w == "WITH"
    case LeftParen => w == "("
    case RightParen => w == ")"
  }

  predicate IsParen(t: Token) { t == LeftParen || t == RightParen }

  function Blanks(n: nat): string { if n == 0 then "" else " " + Blanks(n - 1) }

  /** Words with so many blanks before each, and after the last. */
  function LaidOut(gaps: seq<nat>, words: seq<string>): string
    requires |gaps| == |words| + 1
  {
    if words == [] then Blanks(gaps[0]) else Blanks(gaps[0]) + words[0] + LaidOut(gaps[1..], words[1..])
  }

  /** Two words are kept apart by a blank; parentheses need none. */
  ghost predicate Apart(gaps: seq<nat>, ts: seq<Token>) {
    |gaps| == |ts| + 1 && forall i | 0 <= i < |ts| - 1 :: gaps[i + 1] > 0 || IsParen(ts[i]) || IsParen(ts[i + 1])
  }

  ghost predicate Writing(s: string, gaps: seq<nat>, words: seq<string>, ts: seq<Token>) {
    && |words| == |ts| && |gaps| == |ts| + 1 && s == LaidOut(gaps, words)
    && (forall i | 0 <= i < |ts| :: Writes(ts[i], words[i])) && Apart(gaps, ts)
  }

  ghost predicate IsWriting(s: string, ts: seq<Token>) { exists gaps, words :: Writing(s, gaps, words, ts) }

  lemma {:induction false} CharMeans(c: char)
    ensures WordChar(c) <==> PlainChar(c)
  {
  }

  lemma {:induction false} WordsMean(w: string)
    ensures PlainWord(w) <==> Word(w)
  {
    assert forall i | 0 <= i < |w| :: w[i] in w;
    forall c ensures WordChar(c) <==> PlainChar(c) {
      CharMeans(c);
    }
    if PlainWord(w) {
      forall c | c in w ensures WordChar(c) {
        var i :| 0 <= i < |w| && w[i] == c;
      }
    }
  }

  lemma {:induction false} WordOfLength(s: string)
    ensures
      var n := WordLength(s);
      (forall i | 0 <= i < n :: WordChar(s[i])) && (n < |s| ==> !WordChar(s[n]))
  {
    if s != "" && WordChar(s[0]) {
      WordOfLength(s[1..]);
      var n := WordLength(s);
      forall i | 0 <= i < n ensures WordChar(s[i]) {
        assert i > 0 ==> s[i] == s[1..][i - 1];
      }
      assert n < |s| ==> s[n] == s[1..][n - 1];
    }
  }

  /** The text of a token starts with a character that tells words and parentheses from blanks. */
  lemma {:induction false} WritesHead(t: Token, w: string)
    requires Writes(t, w)
    ensures w != "" && w[0] != ' '
    ensures IsParen(t) <==> w[0] == '(' || w[0] == ')'
    ensures IsParen(t) ==> |w| == 1 && t == (if w[0] == '(' then LeftParen else RightParen)
    ensures !IsParen(t) ==> Word(w) && TokenOf(w) == t
  {
    WordsMean(w);
    CharMeans('(');
    CharMeans(')');
    if t == And || t == Or || t == With {
      assert forall i | 0 <= i < |w| :: PlainChar(w[i]);
    }
  }

  /** What follows a word in a layout does not go on with it. */
  lemma {:induction false} WordStops(gaps: seq<nat>, words: seq<string>, ts: seq<Token>)
    requires |words| == |ts| && |gaps| == |ts| + 1 && (forall i | 0 <= i < |ts| :: Writes(ts[i], words[i]))
    requires ts != [] ==> gaps[0] > 0 || IsParen(ts[0])
    ensures
      var rest := LaidOut(gaps, words);
      rest == "" || !WordChar(rest[0])
  {
    if gaps[0] == 0 && ts != [] {
      WritesHead(ts[0], words[0]);
      assert LaidOut(gaps, words)[0] == words[0][0];
    }
  }

  lemma {:induction false} WritingIsRead(s: string, gaps: seq<nat>, words: seq<string>, ts: seq<Token>)
    requires Writing(s, gaps, words, ts)
    ensures Tokens(s) == Some(ts)
    decreases |s|
  {
    if gaps[0] > 0 {
      var less := gaps[0 := gaps[0] - 1];
      assert less[1..] == gaps[1..];
      assert s[1..] == LaidOut(less, words);
      WritingIsRead(s[1..], less, words, ts);
    } else if ts != [] {
      var w, rest := words[0], LaidOut(gaps[1..], words[1..]);
      WritesHead(ts[0], w);
      assert s == w + rest && s[..|w|] == w && s[|w|..] == rest;
      forall i | 0 <= i < |ts[1..]| ensures Writes(ts[1..][i], words[1..][i]) {
        assert Writes(ts[i + 1], words[i + 1]);
      }
      forall i | 0 <= i < |ts[1..]| - 1 ensures gaps[1..][i + 1] > 0 || IsParen(ts[1..][i]) || IsParen(ts[1..][i + 1]) {
        assert gaps[(i + 1) + 1] > 0 || IsParen(ts[i + 1]) || IsParen(ts[(i + 1) + 1]);
      }
      WritingIsRead(rest, gaps[1..], words[1..], ts[1..]);
      if !IsParen(ts[0]) {
        if |ts| > 1 {
          assert gaps[0 + 1] > 0 || IsParen(ts[0]) || IsParen(ts[0 + 1]);
        }
        WordStops(gaps[1..], words[1..], ts[1..]);
        WordLengthOf(w, rest);
      }
      assert ts == [ts[0]] + ts[1..];
    }
  }

  lemma {:induction false} ReadWord(s: string, w: string, rest: string, t: Token, gaps: seq<nat>, words: seq<string>, ts: seq<Token>)
    requires s == w + rest && Writes(t, w) && Writing(rest, gaps, words, ts)
    requires IsParen(t) || rest == "" || !WordChar(rest[0])
    ensures Writing(s, [0] + gaps, [w] + words, [t] + ts)
  {
    var gaps', words', ts' := [0] + gaps, [w] + words, [t] + ts;
    assert gaps'[1..] == gaps && words'[1..] == words;
    assert LaidOut(gaps', words') == "" + w + LaidOut(gaps, words);
    forall i | 0 <= i < |ts'| - 1 ensures gaps'[i + 1] > 0 || IsParen(ts'[i]) || IsParen(ts'[i + 1]) {
      if i > 0 {
        assert gaps[(i - 1) + 1] > 0 || IsParen(ts[i - 1]) || IsParen(ts[(i - 1) + 1]);
      } else if gaps[0] == 0 {
        WritesHead(ts[0], words[0]);
        assert rest[0] == words[0][0];
      }
    }
  }

  lemma {:induction false} SkipBlank(s: string, gaps: seq<nat>, words: seq<string>, ts: seq<Token>)
    requires s != "" && s[0] == ' ' && Writing(s[1..], gaps, words, ts)
    ensures Writing(s, gaps[0 := gaps[0] + 1], words, ts)
  {
    var more := gaps[0 := gaps[0] + 1];
    assert more[1..] == gaps[1..];
    assert s == " " + s[1..];
    assert Blanks(gaps[0] + 1) == " " + Blanks(gaps[0]);
    assert LaidOut(more, words) == " " + LaidOut(gaps, words);
  }

  lemma {:induction false} TokenWrites(w: string)
    requires Word(w)
    ensures Writes(TokenOf(w), w) && !IsParen(TokenOf(w))
  {
    WordsMean(w);
  }

  lemma {:induction false} ReadIsWriting(s: string) returns (gaps: seq<nat>, words: seq<string>)
    requires Tokens(s).Some?
    ensures Writing(s, gaps, words, Tokens(s).value)
    decreases |s|
  {
    if s == "" {
      gaps, words := [0], [];
    } else if s[0] == ' ' {
      gaps, words := ReadIsWriting(s[1..]);
      SkipBlank(s, gaps, words, Tokens(s).value);
      gaps := gaps[0 := gaps[0] + 1];
    } else {
      var n := if s[0] == '(' || s[0] == ')' then 1 else WordLength(s);
      var w, rest := s[..n], s[n..];
      var t := if s[0] == '(' then LeftParen else if s[0] == ')' then RightParen else TokenOf(w);
      gaps, words := ReadIsWriting(rest);
      FirstToken(s, n, w, rest, t);
      ReadWord(s, w, rest, t, gaps, words, Tokens(rest).value);
      gaps, words := [0] + gaps, [w] + words;
    }
  }

  lemma {:induction false} FirstToken(s: string, n: nat, w: string, rest: string, t: Token)
    requires s != "" && s[0] != ' ' && 0 < n <= |s| && w == s[..n] && rest == s[n..]
    requires n == (if s[0] == '(' || s[0] == ')' then 1 else WordLength(s))
    requires t == (if s[0] == '(' then LeftParen else if s[0] == ')' then RightParen else TokenOf(w))
    ensures s == w + rest && Writes(t, w) && (IsParen(t) || rest == "" || !WordChar(rest[0]))
  {
    if s[0] != '(' && s[0] != ')' {
      WordOfLength(s);
      assert Word(w);
      TokenWrites(w);
    } else {
      assert w == [s[0]];
    }
  }

  /** A text is read as these tokens exactly when it is a writing of them. */
  lemma {:induction false} TokensMean(s: string, ts: seq<Token>)
    ensures Tokens(s) == Some(ts) <==> IsWriting(s, ts)
  {
    if Tokens(s) == Some(ts) {
      var gaps, words := ReadIsWriting(s);
    }
    if IsWriting(s, ts) {
      var gaps, words :| Writing(s, gaps, words, ts);
      WritingIsRead(s, gaps, words, ts);
    }
  }
}
