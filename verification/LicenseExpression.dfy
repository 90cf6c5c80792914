/**
  License expressions (Annex D of the SPDX Specification 2.3): the recursive
  descent parser accepts exactly the expressions of the grammar whose
  parentheses nest at most 32 deep.
 */
module LicenseExpression {
  const MAX_DEPTH: nat := 32
  const MAX_TOKENS: nat := 1024

  datatype Option<T> = None | Some(value: T)

  datatype Token = Identifier(name: string) | And | Or | With | LeftParen | RightParen

  // ----- The grammar -----

  datatype Disjunction = OnlyAnd(only: Conjunction) | OrElse(first: Conjunction, rest: Disjunction)

  datatype Conjunction = OnlyAtom(only: Atom) | AndAlso(first: Atom, rest: Conjunction)

  datatype Atom = License(name: string) | LicenseWith(name: string, exception: string) | Parens(inner: Disjunction)

  function Print(d: Disjunction): seq<Token> {
    match d
    case OnlyAnd(c) => PrintConjunction(c)
    case OrElse(c, rest) => PrintConjunction(c) + [Or] + Print(rest)
  }

  function PrintConjunction(c: Conjunction): seq<Token> {
    match c
    case OnlyAtom(a) => PrintAtom(a)
    case AndAlso(a, rest) => PrintAtom(a) + [And] + PrintConjunction(rest)
  }

  function PrintAtom(a: Atom): seq<Token> {
    match a
    case License(n) => [Identifier(n)]
    case LicenseWith(n, x) => [Identifier(n), With, Identifier(x)]
    case Parens(d) => [LeftParen] + Print(d) + [RightParen]
  }

  function Max(a: nat, b: nat): nat { if a > b then a else b }

  function Nesting(d: Disjunction): nat {
    match d
    case OnlyAnd(c) => NestingConjunction(c)
    case OrElse(c, rest) => Max(NestingConjunction(c), Nesting(rest))
  }

  function NestingConjunction(c: Conjunction): nat {
    match c
    case OnlyAtom(a) => NestingAtom(a)
    case AndAlso(a, rest) => Max(NestingAtom(a), NestingConjunction(rest))
  }

  function NestingAtom(a: Atom): nat {
    match a
    case License(_) => 0
    case LicenseWith(_, _) => 0
    case Parens(d) => Nesting(d) + 1
  }

  // ----- What the parser computes -----

  predicate Next(ts: seq<Token>, t: Token) { ts != [] && ts[0] == t }

  predicate NextIdentifier(ts: seq<Token>) { ts != [] && ts[0].Identifier? }

  /** The tokens left after the longest expression at the front. */
  function ParseOr(ts: seq<Token>, depth: nat): (r: Option<seq<Token>>)
    ensures r.Some? ==> |r.value| < |ts|
    decreases |ts|, 2
  {
    var r := ParseAnd(ts, depth);
    if r.None? then None
    else if Next(r.value, Or) then ParseOr(r.value[1..], depth)
    else r
  }

  function ParseAnd(ts: seq<Token>, depth: nat): (r: Option<seq<Token>>)
    ensures r.Some? ==> |r.value| < |ts|
    decreases |ts|, 1
  {
    var r := ParseAtom(ts, depth);
    if r.None? then None
    else if Next(r.value, And) then ParseAnd(r.value[1..], depth)
    else r
  }

  function ParseAtom(ts: seq<Token>, depth: nat): (r: Option<seq<Token>>)
    ensures r.Some? ==> |r.value| < |ts|
    decreases |ts|, 0
  {
    if depth > MAX_DEPTH then None
    else if NextIdentifier(ts) then
      (if Next(ts[1..], With) then (if NextIdentifier(ts[2..]) then Some(ts[3..]) else None) else Some(ts[1..]))
    else if Next(ts, LeftParen) then
      var r := ParseOr(ts[1..], depth + 1);
      if r.Some? && Next(r.value, RightParen) then Some(r.value[1..]) else None
    else None
  }

  // ----- Soundness -----

  lemma {:induction false} Joined(x: seq<Token>, r: seq<Token>, y: seq<Token>, z: seq<Token>)
    requires r != [] && r[1..] == y + z
    ensures x + r == x + [r[0]] + y + z
  {
    assert r == [r[0]] + r[1..];
  }

  lemma {:induction false} ParsedOr(ts: seq<Token>, depth: nat) returns (d: Disjunction)
    requires ParseOr(ts, depth).Some?
    ensures ts == Print(d) + ParseOr(ts, depth).value && depth + Nesting(d) <= MAX_DEPTH
    decreases |ts|, 2
  {
    var c := ParsedAnd(ts, depth);
    var r := ParseAnd(ts, depth).value;
    if Next(r, Or) {
      var rest := ParsedOr(r[1..], depth);
      d := OrElse(c, rest);
      Joined(PrintConjunction(c), r, Print(rest), ParseOr(ts, depth).value);
    } else {
      d := OnlyAnd(c);
    }
  }

  lemma {:induction false} ParsedAnd(ts: seq<Token>, depth: nat) returns (c: Conjunction)
    requires ParseAnd(ts, depth).Some?
    ensures ts == PrintConjunction(c) + ParseAnd(ts, depth).value && depth + NestingConjunction(c) <= MAX_DEPTH
    decreases |ts|, 1
  {
    var a := ParsedAtom(ts, depth);
    var r := ParseAtom(ts, depth).value;
    if Next(r, And) {
      var rest := ParsedAnd(r[1..], depth);
      c := AndAlso(a, rest);
      Joined(PrintAtom(a), r, PrintConjunction(rest), ParseAnd(ts, depth).value);
    } else {
      c := OnlyAtom(a);
    }
  }

  lemma {:induction false} ParsedAtom(ts: seq<Token>, depth: nat) returns (a: Atom)
    requires ParseAtom(ts, depth).Some?
    ensures ts == PrintAtom(a) + ParseAtom(ts, depth).value && depth + NestingAtom(a) <= MAX_DEPTH
    decreases |ts|, 0
  {
    if NextIdentifier(ts) {
      if Next(ts[1..], With) {
        a := LicenseWith(ts[0].name, ts[2].name);
        assert ts == [ts[0], ts[1], ts[2]] + ts[3..];
      } else {
        a := License(ts[0].name);
        assert ts == [ts[0]] + ts[1..];
      }
    } else {
      var d := ParsedOr(ts[1..], depth + 1);
      var r := ParseOr(ts[1..], depth + 1).value;
      a := Parens(d);
      assert r == [RightParen] + r[1..];
      assert ts == [LeftParen] + ts[1..];
      assert ts == [LeftParen] + (Print(d) + ([RightParen] + r[1..]));
    }
  }

  // ----- Completeness -----

  predicate StopsAtom(rest: seq<Token>) { !Next(rest, With) }

  predicate StopsAnd(rest: seq<Token>) { StopsAtom(rest) && !Next(rest, And) }

  predicate StopsOr(rest: seq<Token>) { StopsAnd(rest) && !Next(rest, Or) }

  lemma {:induction false} OrParses(d: Disjunction, rest: seq<Token>, depth: nat)
    requires StopsOr(rest) && depth + Nesting(d) <= MAX_DEPTH
    ensures ParseOr(Print(d) + rest, depth) == Some(rest)
    decreases d
  {
    match d
    case OnlyAnd(c) =>
      AndParses(c, rest, depth);
    case OrElse(c, more) =>
      var tail := [Or] + (Print(more) + rest);
      AndParses(c, tail, depth);
      assert Print(d) + rest == PrintConjunction(c) + tail;
      assert tail[1..] == Print(more) + rest;
      OrParses(more, rest, depth);
  }

  lemma {:induction false} AndParses(c: Conjunction, rest: seq<Token>, depth: nat)
    requires StopsAnd(rest) && depth + NestingConjunction(c) <= MAX_DEPTH
    ensures ParseAnd(PrintConjunction(c) + rest, depth) == Some(rest)
    decreases c
  {
    match c
    case OnlyAtom(a) =>
      AtomParses(a, rest, depth);
    case AndAlso(a, more) =>
      var tail := [And] + (PrintConjunction(more) + rest);
      AtomParses(a, tail, depth);
      assert PrintConjunction(c) + rest == PrintAtom(a) + tail;
      assert tail[1..] == PrintConjunction(more) + rest;
      AndParses(more, rest, depth);
  }

  lemma {:induction false} AtomParses(a: Atom, rest: seq<Token>, depth: nat)
    requires StopsAtom(rest) && depth + NestingAtom(a) <= MAX_DEPTH
    ensures ParseAtom(PrintAtom(a) + rest, depth) == Some(rest)
    decreases a
  {
    var ts := PrintAtom(a) + rest;
    match a
    case License(n) =>
      assert ts[1..] == rest;
    case LicenseWith(n, x) =>
      assert ts[1..][0] == With && ts[2..][0] == Identifier(x) && ts[3..] == rest;
    case Parens(d) =>
      var tail := [RightParen] + rest;
      OrParses(d, tail, depth + 1);
      assert ts[1..] == Print(d) + tail;
      assert tail[1..] == rest;
  }

  ghost predicate Derives(d: Disjunction, ts: seq<Token>) { Print(d) == ts && Nesting(d) <= MAX_DEPTH }

  /** A token list is accepted exactly when the grammar derives it within the nesting bound. */
  lemma {:induction false} AcceptedIffDerived(ts: seq<Token>)
    ensures ParseOr(ts, 0) == Some([]) <==> exists d :: Derives(d, ts)
  {
    if ParseOr(ts, 0) == Some([]) {
      var d := ParsedOr(ts, 0);
      assert Print(d) + [] == Print(d);
      assert Derives(d, ts);
    }
    if exists d :: Derives(d, ts) {
      var d :| Derives(d, ts);
      OrParses(d, [], 0);
      assert Print(d) + [] == Print(d);
    }
  }

  // ----- The parser -----

  class LicenseParser {
    const tokens: seq<Token>
    var cursor: nat

    constructor (tokens: seq<Token>)
      ensures this.tokens == tokens && cursor == 0
    {
      this.tokens, cursor := tokens, 0;
    }

    function Left(): seq<Token>
      reads this
    {
      if cursor <= |tokens| then tokens[cursor..] else []
    }

    ghost predicate Valid()
      reads this
    {
      cursor <= |tokens|
    }

    method Consume(t: Token) returns (ok: bool)
      requires Valid()
      modifies this
      ensures Valid() && ok == Next(old(Left()), t)
      ensures ok ==> Left() == old(Left())[1..]
      ensures !ok ==> cursor == old(cursor)
    {
      ok := cursor < |tokens| && tokens[cursor] == t;
      if ok { cursor := cursor + 1; }
    }

    method ParseDisjunction(depth: nat) returns (ok: bool)
      requires Valid()
      modifies this
      ensures Valid()
      ensures ok <==> ParseOr(old(Left()), depth).Some?
      ensures ok ==> Left() == ParseOr(old(Left()), depth).value
      decreases |Left()|, 2
    {
      ghost var all := Left();
      ok := ParseConjunction(depth);
      if !ok { return; }
      var more := Consume(Or);
      while more
        invariant Valid() && |Left()| < |all|
        invariant ParseOr(all, depth) == if more then ParseOr(Left(), depth) else Some(Left())
        decreases |Left()|, more
      {
        ok := ParseConjunction(depth);
        if !ok { return; }
        more := Consume(Or);
      }
      ok := true;
    }

    method ParseConjunction(depth: nat) returns (ok: bool)
      requires Valid()
      modifies this
      ensures Valid()
      ensures ok <==> ParseAnd(old(Left()), depth).Some?
      ensures ok ==> Left() == ParseAnd(old(Left()), depth).value
      decreases |Left()|, 1
    {
      ghost var all := Left();
      ok := ParseOne(depth);
      if !ok { return; }
      var more := Consume(And);
      while more
        invariant Valid() && |Left()| < |all|
        invariant ParseAnd(all, depth) == if more then ParseAnd(Left(), depth) else Some(Left())
        decreases |Left()|, more
      {
        ok := ParseOne(depth);
        if !ok { return; }
        more := Consume(And);
      }
      ok := true;
    }

    method ParseOne(depth: nat) returns (ok: bool)
      requires Valid()
      modifies this
      ensures Valid()
      ensures ok <==> ParseAtom(old(Left()), depth).Some?
      ensures ok ==> Left() == ParseAtom(old(Left()), depth).value
      decreases |Left()|, 0
    {
      ghost var all := Left();
      if depth > MAX_DEPTH || cursor == |tokens| { return false; }
      if tokens[cursor].Identifier? {
        cursor := cursor + 1;
        assert Left() == all[1..];
        var exempt := Consume(With);
        if exempt {
          if cursor < |tokens| && tokens[cursor].Identifier? {
            cursor := cursor + 1;
            assert Left() == all[3..];
          } else {
            return false;
          }
        }
        return true;
      }
      if tokens[cursor] == LeftParen {
        cursor := cursor + 1;
        assert Left() == all[1..];
        ok := ParseDisjunction(depth + 1);
        if !ok { return; }
        ok := Consume(RightParen);
        return;
      }
      return false;
    }
  }

  // ----- Text -----

  predicate WordChar(c: char) {
    'a' <= c <= 'z' || 'A' <= c <= 'Z' || '0' <= c <= '9' || c in {'-', '.', '+', '_', ':'}
  }

  function WordLength(s: string): (n: nat)
    ensures n <= |s|
  {
    if s != "" && WordChar(s[0]) then WordLength(s[1..]) + 1 else 0
  }

  function TokenOf(word: string): Token {
    if word == "AND" then And else if word == "OR" then Or else if word == "WITH" then With else Identifier(word)
  }

  function Tokens(s: string): Option<seq<Token>>
    decreases |s|
  {
    if s == "" then Some([])
    else if s[0] == ' ' then Tokens(s[1..])
    else
      var n := if s[0] == '(' || s[0] == ')' then 1 else WordLength(s);
      if n == 0 then None
      else
        After([if s[0] == '(' then LeftParen else if s[0] == ')' then RightParen else TokenOf(s[..n])], Tokens(s[n..]))
  }

  /** What the tokenizer of the source computes, word by word. */
  method Tokenize(source: string) returns (r: Option<seq<Token>>)
    ensures r == Tokens(source)
  {
    var tokens: seq<Token> := [];
    var cursor := 0;
    assert source[0..] == source;
    AfterNothing(Tokens(source));
    while cursor < |source|
      invariant cursor <= |source|
      invariant Tokens(source) == After(tokens, Tokens(source[cursor..]))
    {
      ghost var left := source[cursor..];
      if source[cursor] == ' ' {
        cursor := cursor + 1;
        assert source[cursor..] == left[1..];
        continue;
      }
      AfterAll(tokens);
      if source[cursor] == '(' {
        tokens := tokens + [LeftParen];
        cursor := cursor + 1;
        assert source[cursor..] == left[1..];
      } else if source[cursor] == ')' {
        tokens := tokens + [RightParen];
        cursor := cursor + 1;
        assert source[cursor..] == left[1..];
      } else {
        var end := WordEnd(source, cursor);
        if end == cursor { return None; }
        assert source[cursor..end] == left[..end - cursor] && source[end..] == left[end - cursor..];
        tokens := tokens + [TokenOf(source[cursor..end])];
        cursor := end;
      }
    }
    assert source[cursor..] == "";
    assert tokens + [] == tokens;
    return Some(tokens);
  }

  function After(tokens: seq<Token>, rest: Option<seq<Token>>): Option<seq<Token>> {
    if rest.None? then None else Some(tokens + rest.value)
  }

  lemma {:induction false} AfterNothing(rest: Option<seq<Token>>)
    ensures After([], rest) == rest
  {
    if rest.Some? {
      assert [] + rest.value == rest.value;
    }
  }

  lemma {:induction false} AfterAll(tokens: seq<Token>)
    ensures forall t, rest :: After(tokens, After([t], rest)) == After(tokens + [t], rest)
  {
    forall t, rest ensures After(tokens, After([t], rest)) == After(tokens + [t], rest) {
      if rest.Some? {
        assert tokens + ([t] + rest.value) == tokens + [t] + rest.value;
      }
    }
  }

  method WordEnd(source: string, start: nat) returns (end: nat)
    requires start <= |source|
    ensures start <= end <= |source| && end - start == WordLength(source[start..])
  {
    end := start;
    while end < |source| && WordChar(source[end])
      invariant start <= end <= |source|
      invariant WordLength(source[start..]) == (end - start) + WordLength(source[end..])
    {
      assert source[end..][1..] == source[end + 1..];
      end := end + 1;
    }
  }

  /** The whole check: some tokens, not too many, derived by the grammar. */
  method ValidExpression(source: string) returns (ok: bool)
    ensures ok <==>
      var ts := Tokens(source);
      ts.Some? && 0 < |ts.value| <= MAX_TOKENS && exists d :: Derives(d, ts.value)
  {
    var ts := Tokenize(source);
    if ts.None? || |ts.value| == 0 || |ts.value| > MAX_TOKENS { return false; }
    var parser := new LicenseParser(ts.value);
    assert parser.Left() == ts.value;
    ok := parser.ParseDisjunction(0);
    AcceptedIffDerived(ts.value);
    ok := ok && parser.cursor == |parser.tokens|;
  }

  // ----- Printing to text and back -----

  function Spell(t: Token): string {
    match t
    case Identifier(n) => n
    case And => "AND"
    case Or => "OR"
    case With => "WITH"
    case LeftParen => "("
    case RightParen => ")"
  }

  /** Tokens separated by blanks. */
  function Render(ts: seq<Token>): string {
    if ts == [] then "" else Spell(ts[0]) + " " + Render(ts[1..])
  }

  ghost predicate Word(s: string) { s != "" && forall c | c in s :: WordChar(c) }

  ghost predicate Spellable(ts: seq<Token>) {
    forall i | 0 <= i < |ts| && ts[i].Identifier? :: Word(ts[i].name) && ts[i].name !in {"AND", "OR", "WITH"}
  }

  lemma {:induction false} WordLengthOf(w: string, rest: string)
    requires forall c | c in w :: WordChar(c)
    requires rest == "" || !WordChar(rest[0])
    ensures WordLength(w + rest) == |w|
  {
    if w == "" {
      assert w + rest == rest;
    } else {
      WordLengthOf(w[1..], rest);
      assert (w + rest)[1..] == w[1..] + rest;
    }
  }

  lemma {:induction false} RenderRoundTrip(ts: seq<Token>)
    requires Spellable(ts)
    ensures Tokens(Render(ts)) == Some(ts)
  {
    if ts != [] {
      var w, rest := Spell(ts[0]), Render(ts[1..]);
      assert Spellable(ts[1..]);
      RenderRoundTrip(ts[1..]);
      SpellRoundTrip(ts[0], rest);
      assert ts == [ts[0]] + ts[1..];
    }
  }

  lemma {:induction false} SpellRoundTrip(t: Token, rest: string)
    requires t.Identifier? ==> Word(t.name) && t.name !in {"AND", "OR", "WITH"}
    requires Tokens(rest).Some?
    ensures Tokens(Spell(t) + " " + rest) == Some([t] + Tokens(rest).value)
  {
    var w := Spell(t);
    var s := w + " " + rest;
    var tail := " " + rest;
    assert s == w + tail && tail[1..] == rest && s[|w|..] == tail && s[..|w|] == w;
    if t != LeftParen && t != RightParen {
      assert Word(w);
      WordLengthOf(w, tail);
      assert TokenOf(w) == t;
    }
  }

  /** Printing any expression within the bounds gives a text that is accepted. */
  lemma {:induction false} PrintedIsAccepted(d: Disjunction)
    requires Spellable(Print(d)) && Nesting(d) <= MAX_DEPTH
    ensures
      var ts := Tokens(Render(Print(d)));
      ts == Some(Print(d)) && Print(d) != [] && ParseOr(Print(d), 0) == Some([])
  {
    RenderRoundTrip(Print(d));
    OrParses(d, [], 0);
    assert Print(d) + [] == Print(d);
  }
}
