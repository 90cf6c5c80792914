/** The extracted blocks, parents and names in terms of the characters of the lines. */
module LedgerMeaning {
  import opened LedgerText
  import opened LedgerExtract
  import opened LedgerLines

  // ----- Where blocks end -----

  /** Line `j` goes on with the block that line `start` opens, by what it is made of. */
  ghost predicate GoesOn(lex: Lexicon, lines: seq<string>, start: nat, kind: Kind, j: nat)
    requires start < j < |lines|
  {
    match kind
    case Spacing => AllOf(lines[j], lex.space)
    case ListItem => IsProse(lex, lines[j])
    case Paragraph => IsProse(lex, lines[j])
    case Code => !(start + 1 < j && SameFence(lines[start], lines[j - 1]))
    case _ => false
  }

  ghost predicate IsProse(lex: Lexicon, s: string) {
    !AllOf(s, lex.space) && !ListLine(lex, s) && !IsHeadingLine(s) && !RowLine(s) && !FenceLine(s)
  }

  /** Both lines start with the same three marks. */
  ghost predicate SameFence(open: string, close: string) {
    |open| >= 3 && |close| >= 3 && close[0] == open[0] && close[1] == open[1] && close[2] == open[2]
  }

  lemma {:induction false} FenceText(line: string)
    requires FenceLine(Stripped(line))
    ensures |line| >= 3 && Fence(Stripped(line)) == line[..3]
  {
    StripsEnds(line);
    var t := Stripped(line);
    assert |t| > 3 ==> t[..3] == line[..3];
    assert |t| == 3 ==> t == line[..3];
  }

  lemma {:induction false} JoinsMeans(lex: Lexicon, lines: seq<string>, start: nat, kind: Kind, j: nat)
    requires Sane(lex) && start < j < |lines| && kind == KindOf(lex, Stripped(lines[start]))
    ensures Joins(lex, lines, start, kind, j) <==> GoesOn(lex, lines, start, kind, j)
  {
    HeadingKnown(lines[j]);
    ListMeans(lex, lines[j]);
    FenceMeans(lines[j]);
    BlankMeans(lex, lines[j]);
    if kind == Code {
      KindMeans(lex, Stripped(lines[start]));
      FenceText(lines[start]);
      SameStart(lines[j - 1], lines[start]);
    }
  }

  lemma {:induction false} SameStart(s: string, open: string)
    requires |open| >= 3
    ensures StartsWith(s, open[..3]) <==> SameFence(open, s)
  {
    BeginsMeans(s, open[..3]);
    assert open[..3][0] == open[0] && open[..3][1] == open[1] && open[..3][2] == open[2];
  }

  /** A block takes the lines that go on with its first line, and stops at the first one that does not. */
  ghost predicate LongestRun(lex: Lexicon, lines: seq<string>, start: nat, kind: Kind, end: nat) {
    && start < end <= |lines|
    && (forall j | start < j < end :: GoesOn(lex, lines, start, kind, j))
    && (end < |lines| ==> !GoesOn(lex, lines, start, kind, end))
  }

  lemma {:induction false} BlockEnds(lex: Lexicon, lines: seq<string>, blocks: seq<Block>, i: nat)
    requires Sane(lex) && BlocksOk(lex, lines, blocks) && i < |blocks|
    ensures 0 < blocks[i].startLine && LongestRun(lex, lines, blocks[i].startLine - 1, blocks[i].kind, blocks[i].endLine)
  {
    assert BlockOk(lex, lines, blocks, i);
    var kind, start, end := blocks[i].kind, blocks[i].startLine - 1, blocks[i].endLine;
    forall j | start < j < end ensures GoesOn(lex, lines, start, kind, j) {
      JoinsMeans(lex, lines, start, kind, j);
    }
    if end < |lines| {
      JoinsMeans(lex, lines, start, kind, end);
    }
  }

  // ----- Headings -----

  ghost predicate OpensWith(lines: seq<string>, b: Block, n: nat, title: string) {
    0 < b.startLine <= |lines| && HeadingLine(Stripped(lines[b.startLine - 1]), n, title)
  }

  /** A heading block's level is the number of hashes its line starts with, its title what follows the blank. */
  lemma {:induction false} HeadingBlockMeans(lex: Lexicon, lines: seq<string>, blocks: seq<Block>, i: nat, n: nat, title: string)
    requires BlocksOk(lex, lines, blocks) && i < |blocks|
    ensures OpensWith(lines, blocks[i], n, title) <==>
            IsHeading(blocks[i]) && Own(blocks[i]).level == n && Own(blocks[i]).title == title
  {
    assert BlockOk(lex, lines, blocks, i);
    var b := blocks[i];
    var line := Stripped(lines[b.startLine - 1]);
    HeadingMeans(line, n, title);
    HeadingKind(lex, line);
    BlockPlaced(lex, lines, blocks, i);
    if b.kind == HeadingBlock {
      assert Own(b) == OwnHeading(lex, blocks, i, MatchHeading(line).value);
    }
  }

  lemma {:induction false} IsHeadingMeans(lex: Lexicon, lines: seq<string>, blocks: seq<Block>, i: nat)
    requires BlocksOk(lex, lines, blocks) && i < |blocks| && IsHeading(blocks[i])
    ensures OpensWith(lines, blocks[i], Own(blocks[i]).level, Own(blocks[i]).title) && 1 <= Own(blocks[i]).level <= 6
  {
    HeadingBlockMeans(lex, lines, blocks, i, Own(blocks[i]).level, Own(blocks[i]).title);
  }

  lemma {:induction false} NothingToStrip(line: string)
    requires NoEnds(line)
    ensures Stripped(line) == line
  {
    if line != "" {
      assert !LineEnd(line[|line| - 1]);
    }
  }

  lemma {:induction false} WithTail(line: string, t: string, n: nat, title: string, tail: string)
    requires HeadingLine(t, n, title) && '\n' !in t && line == t + tail && tail in {"", "\n", "\r", "\r\n"}
    ensures IsHeadingLine(line)
  {
    assert t[n + 1..] == title by {
      assert '\n' in title + "\n";
      assert forall c | c in t[n + 1..] :: c in t;
    }
    assert line[n + 1..] == title + tail;
    assert forall i | 0 <= i < |t| :: line[i] == t[i];
    WithEnd(line, n, title, tail);
  }

  /** A heading without its line end is one with it. */
  lemma {:induction false} EndedHeading(line: string, n: nat, title: string)
    requires HeadingLine(Stripped(line), n, title) && (Ended(line) || NoEnds(line))
    ensures IsHeadingLine(line)
  {
    StripsEnds(line);
    var t := Stripped(line);
    if NoEnds(line) {
      NothingToStrip(line);
    } else {
      var m: nat :| EndsAt(line, m);
      EndIsShort(line, m, t);
      WithTail(line, t, n, title, line[|t|..]);
    }
  }

  ghost predicate EndChar(line: string, i: int) { 0 <= i < |line| && LineEnd(line[i]) }

  lemma {:induction false} EndIsShort(line: string, m: nat, t: string)
    requires EndsAt(line, m) && StripsTo(line, |t|) && |t| <= |line| && t == line[..|t|]
    ensures '\n' !in t && line[|t|..] in {"", "\n", "\r", "\r\n"}
  {
    assert |line| - m <= 2;
    var tail := line[|t|..];
    assert forall i | 0 <= i < |tail| :: tail[i] == line[|t| + i];
    assert |t| == |line| || EndChar(line, |t|);
    assert |t| < m ==> !EndChar(line, |t|);
    if |tail| == 1 {
      assert tail == [line[|t|]];
    } else if |tail| == 2 {
      assert line[m..] == tail;
    }
  }

  lemma {:induction false} WithEnd(line: string, n: nat, title: string, tail: string)
    requires 1 <= n <= 6 && Hashed(line, n) && title != "" && '\n' !in title
    requires line[n + 1..] == title + tail && tail in {"", "\n", "\r", "\r\n"}
    ensures IsHeadingLine(line)
  {
    if tail == "\r" || tail == "\r\n" {
      var longer := title + "\r";
      assert title + "\r\n" == longer + "\n";
      assert HeadingLine(line, n, longer);
    } else {
      assert title + "" == title;
      assert HeadingLine(line, n, title);
    }
  }

  /** Outside fenced blocks, every line of heading form opens a heading block. */
  lemma {:induction false} HeadingLineOpens(lex: Lexicon, source: string, blocks: seq<Block>, i: nat, l: nat)
    requires Sane(lex) && BlocksOk(lex, SplitLines(source), blocks) && i < |blocks|
    requires blocks[i].startLine - 1 <= l < blocks[i].endLine <= |SplitLines(source)|
    requires IsHeadingLine(Stripped(SplitLines(source)[l]))
    ensures if l == blocks[i].startLine - 1 then blocks[i].kind == HeadingBlock else blocks[i].kind == Code
  {
    var lines := SplitLines(source);
    SplitSplits(source);
    BlockEnds(lex, lines, blocks, i);
    var n: nat, title: string :| HeadingLine(Stripped(lines[l]), n, title);
    if l == blocks[i].startLine - 1 {
      HeadingBlockMeans(lex, lines, blocks, i, n, title);
    } else {
      EndedHeading(lines[l], n, title);
      StripsEnds(lines[l]);
      assert GoesOn(lex, lines, blocks[i].startLine - 1, blocks[i].kind, l);
      assert lines[l][0] == Stripped(lines[l])[0] == '#';
    }
  }

  // ----- Parents -----

  /** Block `j` opens with fewer than `n` hashes. */
  ghost predicate Outranks(lines: seq<string>, b: Block, n: nat) {
    exists m: nat, title: string :: m < n && OpensWith(lines, b, m, title)
  }

  /** The rank of a block: its hashes, or seven if it is no heading. */
  ghost predicate HasRank(lines: seq<string>, b: Block, n: nat) {
    (exists title: string :: OpensWith(lines, b, n, title))
    || (n == 7 && forall m: nat, title: string :: !OpensWith(lines, b, m, title))
  }

  lemma {:induction false} RankMeans(lex: Lexicon, lines: seq<string>, blocks: seq<Block>, i: nat)
    requires BlocksOk(lex, lines, blocks) && i < |blocks|
    ensures HasRank(lines, blocks[i], Rank(blocks[i]))
    ensures forall n: nat :: Outranks(lines, blocks[i], n) <==> IsHeading(blocks[i]) && Own(blocks[i]).level < n
  {
    forall n: nat, title: string
      ensures OpensWith(lines, blocks[i], n, title) <==>
              IsHeading(blocks[i]) && Own(blocks[i]).level == n && Own(blocks[i]).title == title
    {
      HeadingBlockMeans(lex, lines, blocks, i, n, title);
    }
    if IsHeading(blocks[i]) {
      assert OpensWith(lines, blocks[i], Own(blocks[i]).level, Own(blocks[i]).title);
    }
  }

  lemma {:induction false} NearestMeans(lex: Lexicon, lines: seq<string>, blocks: seq<Block>, n: nat, rank: nat)
    requires BlocksOk(lex, lines, blocks) && n <= |blocks|
    ensures
      var p := Nearest(blocks, n, rank);
      && (p.Some? ==> p.value < n && Outranks(lines, blocks[p.value], rank))
      && forall j | (if p.Some? then p.value else -1) < j < n :: !Outranks(lines, blocks[j], rank)
  {
    if n > 0 {
      RankMeans(lex, lines, blocks, n - 1);
      NearestMeans(lex, lines, blocks, n - 1, rank);
    }
  }

  /** Record `p` is the last before `i` that opens with fewer hashes than record `i` has. */
  ghost predicate IsParent(lines: seq<string>, records: seq<Record>, i: nat, n: nat, p: nat)
    requires i < |records|
  {
    p < i && Outranks(lines, records[p].block, n) && forall j | p < j < i :: !Outranks(lines, records[j].block, n)
  }

  ghost predicate HasParent(lines: seq<string>, records: seq<Record>, i: nat, n: nat, id: string)
    requires i < |records|
  {
    exists p: nat :: IsParent(lines, records, i, n, p) && records[p].block.id == id
  }

  ghost predicate NoParent(lines: seq<string>, records: seq<Record>, i: nat, n: nat)
    requires i < |records|
  {
    forall j | 0 <= j < i :: !Outranks(lines, records[j].block, n)
  }

  /** A record's parent is the nearest earlier block that opens with fewer hashes; without one it has none. */
  ghost predicate ParentRule(lines: seq<string>, records: seq<Record>, i: nat, n: nat)
    requires i < |records|
  {
    && HasRank(lines, records[i].block, n)
    && if records[i].parent.None? then NoParent(lines, records, i, n)
       else HasParent(lines, records, i, n, records[i].parent.value)
  }

  lemma {:induction false} NearestParent(lex: Lexicon, lines: seq<string>, records: seq<Record>, i: nat, n: nat)
    requires BlocksOk(lex, lines, Blocks(records)) && i < |records|
    ensures
      var p := Nearest(Blocks(records), i, n);
      if p.None? then NoParent(lines, records, i, n) else p.value < i && IsParent(lines, records, i, n, p.value)
  {
    NearestMeans(lex, lines, Blocks(records), i, n);
    assert forall j | 0 <= j < |records| :: Blocks(records)[j] == records[j].block;
  }

  lemma {:induction false} ParentMeans(lex: Lexicon, source: string, records: seq<Record>, i: nat)
    requires Extracted(lex, source, records) && i < |records|
    ensures exists n: nat :: ParentRule(SplitLines(source), records, i, n)
  {
    var lines, blocks := SplitLines(source), Blocks(records);
    var n := Rank(blocks[i]);
    RankMeans(lex, lines, blocks, i);
    NearestParent(lex, lines, records, i, n);
    assert records[i].parent == ParentId(blocks, i);
    assert ParentRule(lines, records, i, n);
  }

  // ----- Names -----

  lemma {:induction false} CountIsSize(names: seq<string>, n: nat, s: string)
    requires n <= |names|
    ensures CountIn(names, n, s) == |set j | 0 <= j < n && names[j] == s|
  {
    var all := set j | 0 <= j < n && names[j] == s;
    if n == 0 {
      assert all == {};
    } else {
      CountIsSize(names, n - 1, s);
      var before := set j | 0 <= j < n - 1 && names[j] == s;
      assert all == if names[n - 1] == s then before + {n - 1} else before;
    }
  }

  ghost predicate Under(ancestry: seq<Heading>, prefix: string) {
    exists k :: 0 <= k < |ancestry| && Begins(ancestry[k].title, prefix)
  }

  lemma {:induction false} UnderMeans(ancestry: seq<Heading>, prefix: string)
    ensures AnyTitle(ancestry, prefix) <==> Under(ancestry, prefix)
  {
    if ancestry != [] {
      BeginsMeans(ancestry[0].title, prefix);
      UnderMeans(ancestry[1..], prefix);
      if Under(ancestry[1..], prefix) {
        var k :| 0 <= k < |ancestry[1..]| && Begins(ancestry[1..][k].title, prefix);
        assert Begins(ancestry[k + 1].title, prefix);
      }
      if Under(ancestry, prefix) && !Begins(ancestry[0].title, prefix) {
        var k :| 0 <= k < |ancestry| && Begins(ancestry[k].title, prefix);
        assert Begins(ancestry[1..][k - 1].title, prefix);
      }
    }
  }

  /** The part of the plan a requirement number belongs to. */
  ghost predicate InPart(ancestry: seq<Heading>, part: string) {
    if Under(ancestry, "Appendix I") then part == "audit"
    else if Under(ancestry, "18.") then part == "backlog"
    else if Under(ancestry, "20.") then part == "adr-proposal"
    else part == "catalog"
  }

  ghost predicate KindWord(kind: Kind, word: string) {
    || (kind == HeadingBlock && word == "heading") || (kind == Code && word == "code_or_diagram")
    || (kind == Spacing && word == "spacing") || (kind == Separator && word == "separator")
    || (kind == TableSeparator && word == "table_separator") || (kind == TableRow && word == "table_row")
    || (kind == ListItem && word == "list_item") || (kind == Paragraph && word == "paragraph")
  }

  /** A defined requirement is named by its part and number, anything else by its kind and twenty digits of its digest. */
  ghost predicate BaseMeans(lex: Lexicon, b: Block, base: string) {
    if b.original.Some? then exists part :: InPart(b.ancestry, part) && base == part + ":" + b.original.value
    else exists word, digest: string ::
      && KindWord(b.kind, word) && base == "source:" + word + ":" + digest
      && digest <= lex.digest(b.text) && (|digest| == 20 || digest == lex.digest(b.text)) && |digest| <= 20
  }

  lemma {:induction false} BaseIs(lex: Lexicon, b: Block)
    ensures BaseMeans(lex, b, BaseOf(lex, b))
  {
    if b.original.Some? {
      UnderMeans(b.ancestry, "Appendix I");
      UnderMeans(b.ancestry, "18.");
      UnderMeans(b.ancestry, "20.");
      assert InPart(b.ancestry, Namespace(b.ancestry));
    } else {
      assert KindWord(b.kind, KindName(b.kind));
      assert Shorten(lex.digest(b.text)) <= lex.digest(b.text);
    }
  }

  /** How often a base was used before block `i`, and that the block is named with the next number. */
  ghost predicate NthOf(bases: seq<string>, i: nat, id: string, number: nat)
    requires i < |bases|
  {
    && number == |set j | 0 <= j < i && bases[j] == bases[i]| + 1
    && exists digits :: Value(digits) == number && id == bases[i] + ":" + digits
  }

  /** A block's id is its base and the number of blocks up to it with that base. */
  lemma {:induction false} NameMeans(lex: Lexicon, lines: seq<string>, blocks: seq<Block>, i: nat)
    requires BlocksOk(lex, lines, blocks) && i < |blocks|
    ensures exists bases: seq<string>, number ::
              && |bases| == |blocks| && (forall j | 0 <= j < |blocks| :: BaseMeans(lex, blocks[j], bases[j]))
              && NthOf(bases, i, blocks[i].id, number)
  {
    var bases := Bases(lex, blocks);
    forall j | 0 <= j < |blocks| ensures BaseMeans(lex, blocks[j], bases[j]) {
      BaseIs(lex, blocks[j]);
    }
    BlockNamed(lex, lines, blocks, i);
    NameIs(lex, blocks, i, bases);
    CountIsSize(bases, i, bases[i]);
    var number := CountIn(bases, i, bases[i]) + 1;
    DecimalMeans(number);
    assert NthOf(bases, i, blocks[i].id, number);
  }

  ghost predicate SlugAt(lex: Lexicon, blocks: seq<Block>, j: int, slug: string) {
    0 <= j < |blocks| && IsHeading(blocks[j]) && lex.slug(Own(blocks[j]).title) == slug
  }

  lemma {:induction false} SlugsAreSize(lex: Lexicon, blocks: seq<Block>, n: nat, slug: string)
    requires n <= |blocks|
    ensures SlugUses(lex, blocks, n, slug) == |set j | 0 <= j < n && SlugAt(lex, blocks, j, slug)|
  {
    var all := set j | 0 <= j < n && SlugAt(lex, blocks, j, slug);
    if n == 0 {
      assert all == {};
    } else {
      SlugsAreSize(lex, blocks, n - 1, slug);
      var before := set j | 0 <= j < n - 1 && SlugAt(lex, blocks, j, slug);
      assert all == if SlugAt(lex, blocks, n - 1, slug) then before + {n - 1} else before;
    }
  }

  /** A heading is named by its slug and the number of headings up to it with that slug. */
  lemma {:induction false} HeadingNameMeans(lex: Lexicon, lines: seq<string>, blocks: seq<Block>, i: nat)
    requires BlocksOk(lex, lines, blocks) && i < |blocks| && blocks[i].kind == HeadingBlock
    ensures IsHeading(blocks[i])
    ensures
      var slug := lex.slug(Own(blocks[i]).title);
      exists digits ::
        && Value(digits) == |set j | 0 <= j < i && SlugAt(lex, blocks, j, slug)| + 1
        && Own(blocks[i]).id == "heading:" + slug + ":" + digits
  {
    BlockTitled(lex, lines, blocks, i);
    var slug := lex.slug(Own(blocks[i]).title);
    SlugsAreSize(lex, blocks, i, slug);
    DecimalMeans(SlugUses(lex, blocks, i, slug) + 1);
  }
}
