/**
  Extraction of the plan into blocks: one pass over the lines with a stack of
  open headings, then parents and children.
 */
module LedgerExtract {
  import opened LedgerText

  datatype Kind = HeadingBlock | Code | Spacing | Separator | TableSeparator | TableRow | ListItem | Paragraph

  function KindName(kind: Kind): string {
    match kind
    case HeadingBlock => "heading"
    case Code => "code_or_diagram"
    case Spacing => "spacing"
    case Separator => "separator"
    case TableSeparator => "table_separator"
    case TableRow => "table_row"
    case ListItem => "list_item"
    case Paragraph => "paragraph"
  }

  datatype Heading = Heading(id: string, title: string, level: nat)

  datatype Block = Block(
    id: string, original: Option<string>, kind: Kind, startLine: nat, endLine: nat, text: string,
    ancestry: seq<Heading>)

  datatype Record = Record(block: Block, parent: Option<string>, children: seq<string>)

  // ----- Where a block ends -----

  function KindOf(lex: Lexicon, line: string): Kind {
    if MatchHeading(line).Some? then HeadingBlock
    else if Fenced(line) then Code
    else if Blank(lex, line) then Spacing
    else if MatchSeparator(lex, line) then Separator
    else if StartsWith(line, "|") then (if MatchTableSeparator(lex, line) then TableSeparator else TableRow)
    else if MatchListItem(lex, line) then ListItem
    else Paragraph
  }

  function Fence(line: string): string { if |line| > 3 then line[..3] else line }

  /** Line `j` belongs to the block that line `start` opens. */
  predicate Joins(lex: Lexicon, lines: seq<string>, start: nat, kind: Kind, j: nat)
    requires start < j < |lines|
  {
    match kind
    case Spacing => Blank(lex, lines[j])
    case ListItem => Continues(lex, lines[j])
    case Paragraph => Continues(lex, lines[j])
    case Code => j == start + 1 || !StartsWith(lines[j - 1], Fence(Stripped(lines[start])))
    case _ => false
  }

  /** A block is a longest run of joining lines. */
  ghost predicate Spans(lex: Lexicon, lines: seq<string>, start: nat, kind: Kind, end: nat) {
    && start < end <= |lines|
    && kind == KindOf(lex, Stripped(lines[start]))
    && (forall j | start < j < end :: Joins(lex, lines, start, kind, j))
    && (end < |lines| ==> !Joins(lex, lines, start, kind, end))
  }

  method ScanBlock(lex: Lexicon, lines: seq<string>, start: nat) returns (kind: Kind, end: nat)
    requires start < |lines|
    ensures Spans(lex, lines, start, kind, end)
  {
    kind := KindOf(lex, Stripped(lines[start]));
    match kind {
      case Code => end := ScanFence(lex, lines, start);
      case Spacing => end := ScanRun(lex, lines, start, kind);
      case ListItem => end := ScanRun(lex, lines, start, kind);
      case Paragraph => end := ScanRun(lex, lines, start, kind);
      case _ => end := start + 1;
    }
  }

  /** Up to and including the line that closes the fence. */
  method ScanFence(lex: Lexicon, lines: seq<string>, start: nat) returns (end: nat)
    requires start < |lines|
    ensures start < end <= |lines|
    ensures forall j | start < j < end :: Joins(lex, lines, start, Code, j)
    ensures end < |lines| ==> !Joins(lex, lines, start, Code, end)
  {
    var fence := Fence(Stripped(lines[start]));
    end := start + 1;
    while end < |lines|
      invariant start < end <= |lines|
      invariant forall j | start < j < end :: Joins(lex, lines, start, Code, j)
      invariant end < |lines| ==> Joins(lex, lines, start, Code, end)
    {
      var closes := StartsWith(lines[end], fence);
      end := end + 1;
      if closes { break; }
    }
  }

  method ScanRun(lex: Lexicon, lines: seq<string>, start: nat, kind: Kind) returns (end: nat)
    requires start < |lines|
    ensures start < end <= |lines|
    ensures forall j | start < j < end :: Joins(lex, lines, start, kind, j)
    ensures end < |lines| ==> !Joins(lex, lines, start, kind, end)
  {
    end := start + 1;
    while end < |lines| && Joins(lex, lines, start, kind, end)
      invariant start < end <= |lines|
      invariant forall j | start < j < end :: Joins(lex, lines, start, kind, j)
    {
      end := end + 1;
    }
  }

  // ----- Names -----

  predicate AnyTitle(ancestry: seq<Heading>, prefix: string) {
    ancestry != [] && (StartsWith(ancestry[0].title, prefix) || AnyTitle(ancestry[1..], prefix))
  }

  function Namespace(ancestry: seq<Heading>): string {
    if AnyTitle(ancestry, "Appendix I") then "audit"
    else if AnyTitle(ancestry, "18.") then "backlog"
    else if AnyTitle(ancestry, "20.") then "adr-proposal"
    else "catalog"
  }

  function Shorten(s: string): string { if |s| > 20 then s[..20] else s }

  function Base(lex: Lexicon, original: Option<string>, kind: Kind, text: string, ancestry: seq<Heading>): string {
    if original.Some? then Namespace(ancestry) + ":" + original.value
    else "source:" + KindName(kind) + ":" + Shorten(lex.digest(text))
  }

  function BaseOf(lex: Lexicon, b: Block): string { Base(lex, b.original, b.kind, b.text, b.ancestry) }

  function Bases(lex: Lexicon, blocks: seq<Block>): (r: seq<string>)
    ensures |r| == |blocks|
  {
    seq(|blocks|, i requires 0 <= i < |blocks| => BaseOf(lex, blocks[i]))
  }

  function CountIn(names: seq<string>, n: nat, s: string): nat
    requires n <= |names|
  {
    if n == 0 then 0 else CountIn(names, n - 1, s) + if names[n - 1] == s then 1 else 0
  }

  /** How many of the first `n` blocks have this base. */
  function Uses(lex: Lexicon, blocks: seq<Block>, n: nat, base: string): nat
    requires n <= |blocks|
  {
    CountIn(Bases(lex, blocks), n, base)
  }

  function SlugName(slug: string): string { "heading:" + slug }

  predicate IsHeading(b: Block) { b.kind == HeadingBlock && b.ancestry != [] }

  function Own(b: Block): Heading
    requires IsHeading(b)
  {
    b.ancestry[|b.ancestry| - 1]
  }

  /** How many of the first `n` blocks are headings with this slug. */
  function SlugUses(lex: Lexicon, blocks: seq<Block>, n: nat, slug: string): nat
    requires n <= |blocks|
  {
    if n == 0 then 0
    else
      SlugUses(lex, blocks, n - 1, slug)
      + if IsHeading(blocks[n - 1]) && lex.slug(Own(blocks[n - 1]).title) == slug then 1 else 0
  }

  // ----- Parents -----

  /** Headings rank by their level, everything else below every heading. */
  function Rank(b: Block): nat { if IsHeading(b) then Own(b).level else 7 }

  /** The nearest heading among the first `n` blocks that outranks `rank`. */
  function Nearest(blocks: seq<Block>, n: nat, rank: nat): (p: Option<nat>)
    requires n <= |blocks|
    ensures p.Some? ==> p.value < n && IsHeading(blocks[p.value]) && Own(blocks[p.value]).level < rank
  {
    if n == 0 then None
    else if IsHeading(blocks[n - 1]) && Own(blocks[n - 1]).level < rank then Some(n - 1)
    else Nearest(blocks, n - 1, rank)
  }

  function ParentIndex(blocks: seq<Block>, i: nat): (p: Option<nat>)
    requires i < |blocks|
    ensures p.Some? ==> p.value < i && IsHeading(blocks[p.value])
  {
    Nearest(blocks, i, Rank(blocks[i]))
  }

  /** The headings a block stands under. */
  function Above(blocks: seq<Block>, p: Option<nat>): seq<Heading>
    requires p.Some? ==> p.value < |blocks|
  {
    if p.Some? then blocks[p.value].ancestry else []
  }

  // ----- What the pass over the lines promises for each block -----

  ghost predicate TextOk(lex: Lexicon, lines: seq<string>, b: Block) {
    && 0 < b.startLine <= b.endLine <= |lines|
    && Spans(lex, lines, b.startLine - 1, b.kind, b.endLine)
    && b.text == Concat(lines[b.startLine - 1..b.endLine])
    && b.original == Definition(lex, Stripped(lines[b.startLine - 1]))
  }

  /** `b` is named by its base and the number of earlier blocks with that base. */
  ghost predicate Named(lex: Lexicon, blocks: seq<Block>, n: nat, b: Block)
    requires n <= |blocks|
  {
    b.id == Numbered(BaseOf(lex, b), Uses(lex, blocks, n, BaseOf(lex, b)) + 1)
  }

  function OwnHeading(lex: Lexicon, blocks: seq<Block>, n: nat, title: Title): Heading
    requires n <= |blocks|
  {
    var slug := lex.slug(title.text);
    Heading(Numbered(SlugName(slug), SlugUses(lex, blocks, n, slug) + 1), title.text, title.level)
  }

  /** `b` stands under the nearest heading that outranks it and everything that heading stands under. */
  ghost predicate Placed(lex: Lexicon, title: Option<Title>, blocks: seq<Block>, n: nat, b: Block)
    requires n <= |blocks|
  {
    var above := Above(blocks, Nearest(blocks, n, Rank(b)));
    if b.kind == HeadingBlock then title.Some? && b.ancestry == above + [OwnHeading(lex, blocks, n, title.value)]
    else b.ancestry == above
  }

  function TitleOf(lines: seq<string>, b: Block): Option<Title> {
    if 0 < b.startLine <= |lines| then MatchHeading(Stripped(lines[b.startLine - 1])) else None
  }

  ghost predicate BlockOk(lex: Lexicon, lines: seq<string>, blocks: seq<Block>, i: nat) {
    && i < |blocks|
    && TextOk(lex, lines, blocks[i])
    && blocks[i].startLine == (if i == 0 then 1 else blocks[i - 1].endLine + 1)
    && Named(lex, blocks, i, blocks[i])
    && Placed(lex, TitleOf(lines, blocks[i]), blocks, i, blocks[i])
  }

  ghost predicate BlocksOk(lex: Lexicon, lines: seq<string>, blocks: seq<Block>) {
    forall i: nat {:trigger BlockOk(lex, lines, blocks, i)} | i < |blocks| :: BlockOk(lex, lines, blocks, i)
  }

  // ----- Appending a block -----

  lemma {:induction false} CountPrefix(names: seq<string>, more: seq<string>, n: nat, s: string)
    requires n <= |names| && names <= more
    ensures CountIn(more, n, s) == CountIn(names, n, s)
  {
    if n > 0 {
      CountPrefix(names, more, n - 1, s);
    }
  }

  lemma {:induction false} BasesAppend(lex: Lexicon, blocks: seq<Block>, b: Block)
    ensures Bases(lex, blocks + [b]) == Bases(lex, blocks) + [BaseOf(lex, b)]
  {
  }

  lemma {:induction false} UsesPrefix(lex: Lexicon, blocks: seq<Block>, b: Block, n: nat, base: string)
    requires n <= |blocks|
    ensures Uses(lex, blocks + [b], n, base) == Uses(lex, blocks, n, base)
  {
    BasesAppend(lex, blocks, b);
    CountPrefix(Bases(lex, blocks), Bases(lex, blocks + [b]), n, base);
  }

  lemma {:induction false} SlugUsesPrefix(lex: Lexicon, blocks: seq<Block>, b: Block, n: nat, slug: string)
    requires n <= |blocks|
    ensures SlugUses(lex, blocks + [b], n, slug) == SlugUses(lex, blocks, n, slug)
  {
    if n > 0 {
      SlugUsesPrefix(lex, blocks, b, n - 1, slug);
    }
  }

  lemma {:induction false} NearestPrefix(blocks: seq<Block>, b: Block, n: nat, rank: nat)
    requires n <= |blocks|
    ensures Nearest(blocks + [b], n, rank) == Nearest(blocks, n, rank)
  {
    if n > 0 {
      NearestPrefix(blocks, b, n - 1, rank);
    }
  }

  lemma {:induction false} PlacedPrefix(lex: Lexicon, title: Option<Title>, blocks: seq<Block>, x: Block, n: nat, b: Block)
    requires n <= |blocks| && Placed(lex, title, blocks, n, b)
    ensures Placed(lex, title, blocks + [x], n, b)
  {
    NearestPrefix(blocks, x, n, Rank(b));
    var p := Nearest(blocks, n, Rank(b));
    assert Above(blocks + [x], p) == Above(blocks, p);
    if title.Some? {
      SlugUsesPrefix(lex, blocks, x, n, lex.slug(title.value.text));
    }
  }

  lemma {:induction false} NamedPrefix(lex: Lexicon, blocks: seq<Block>, x: Block, n: nat, b: Block)
    requires n <= |blocks| && Named(lex, blocks, n, b)
    ensures Named(lex, blocks + [x], n, b)
  {
    UsesPrefix(lex, blocks, x, n, BaseOf(lex, b));
  }

  lemma {:induction false} BlockOkPrefix(lex: Lexicon, lines: seq<string>, blocks: seq<Block>, b: Block, i: nat)
    requires BlockOk(lex, lines, blocks, i)
    ensures BlockOk(lex, lines, blocks + [b], i)
  {
    var blocks' := blocks + [b];
    assert blocks'[i] == blocks[i] && (i > 0 ==> blocks'[i - 1] == blocks[i - 1]);
    PlacedPrefix(lex, TitleOf(lines, blocks[i]), blocks, b, i, blocks[i]);
    NamedPrefix(lex, blocks, b, i, blocks[i]);
  }

  lemma {:induction false} AppendBlock(lex: Lexicon, lines: seq<string>, blocks: seq<Block>, b: Block)
    requires BlocksOk(lex, lines, blocks) && BlockOk(lex, lines, blocks + [b], |blocks|)
    ensures BlocksOk(lex, lines, blocks + [b])
  {
    forall i: nat | i < |blocks| ensures BlockOk(lex, lines, blocks + [b], i) {
      assert BlockOk(lex, lines, blocks, i);
      BlockOkPrefix(lex, lines, blocks, b, i);
    }
  }

  // ----- The stack of open headings -----

  /** Entry `k` of the open headings is the heading of block `at[k]`, under the entries before it. */
  ghost predicate Entry(blocks: seq<Block>, open: seq<Heading>, at: seq<nat>, k: int) {
    && 0 <= k < |at| == |open| && at[k] < |blocks|
    && IsHeading(blocks[at[k]]) && blocks[at[k]].ancestry == open[..k + 1]
  }

  /** No heading of the blocks from `from` on has a level below `level`. */
  ghost predicate NoneOutranks(blocks: seq<Block>, from: nat, level: nat) {
    forall j | from <= j < |blocks| && IsHeading(blocks[j]) :: level <= Own(blocks[j]).level
  }

  function Below(at: seq<nat>, k: nat): nat
    requires k <= |at|
  {
    if k == 0 then 0 else at[k - 1] + 1
  }

  ghost predicate Guarded(blocks: seq<Block>, open: seq<Heading>, at: seq<nat>, k: int) {
    0 <= k < |at| == |open| && NoneOutranks(blocks, Below(at, k), open[k].level)
  }

  ghost predicate NoHeading(blocks: seq<Block>, from: nat) {
    forall j | from <= j < |blocks| :: !IsHeading(blocks[j])
  }

  /**
    `open` are the open headings and `at` the blocks they come from. Later ones are
    deeper, no heading after the one below an entry outranks that entry, and no
    heading follows the top.
   */
  ghost predicate Stack(blocks: seq<Block>, open: seq<Heading>, at: seq<nat>) {
    && |at| == |open| && Deepening(open)
    && (forall k {:trigger Entry(blocks, open, at, k)} | 0 <= k < |at| :: Entry(blocks, open, at, k))
    && (forall k {:trigger Guarded(blocks, open, at, k)} | 0 <= k < |at| :: Guarded(blocks, open, at, k))
    && NoHeading(blocks, Below(at, |at|))
  }

  ghost predicate CutAt(open: seq<Heading>, rank: nat, m: nat) {
    && m <= |open|
    && (forall k | 0 <= k < m :: open[k].level < rank)
    && (forall k | m <= k < |open| :: open[k].level >= rank)
  }

  function Keep(open: seq<Heading>, rank: nat): seq<Heading> {
    if open == [] then []
    else (if open[0].level < rank then [open[0]] else []) + Keep(open[1..], rank)
  }

  ghost predicate Deepening(open: seq<Heading>) {
    forall k, l | 0 <= k < l < |open| :: open[k].level < open[l].level
  }

  /** On a deepening stack the kept headings are a prefix. */
  lemma {:induction false} KeepIsCut(open: seq<Heading>, rank: nat) returns (m: nat)
    requires Deepening(open)
    ensures CutAt(open, rank, m) && Keep(open, rank) == open[..m]
  {
    if open == [] {
      m := 0;
    } else {
      var n := KeepIsCut(open[1..], rank);
      if open[0].level < rank {
        m := n + 1;
        assert open[..m] == [open[0]] + open[1..][..n];
      } else {
        m := 0;
        assert n == 0;
      }
    }
  }

  /** No heading between outranks: this is what nearest means. */
  lemma {:induction false} NearestIs(blocks: seq<Block>, n: nat, rank: nat, p: Option<nat>)
    requires n <= |blocks|
    ensures Nearest(blocks, n, rank) == p <==>
            && (p.Some? ==> p.value < n && IsHeading(blocks[p.value]) && Own(blocks[p.value]).level < rank)
            && forall j | (if p.Some? then p.value else -1) < j < n && IsHeading(blocks[j]) :: Own(blocks[j]).level >= rank
  {
    if n > 0 {
      NearestIs(blocks, n - 1, rank, p);
    }
  }

  /** The top of what is kept is the nearest heading of lower level. */
  lemma {:induction false} NearestIsKept(blocks: seq<Block>, open: seq<Heading>, at: seq<nat>, rank: nat, m: nat)
    requires Stack(blocks, open, at) && CutAt(open, rank, m)
    ensures Nearest(blocks, |blocks|, rank) == if m == 0 then None else Some(at[m - 1])
    ensures Above(blocks, Nearest(blocks, |blocks|, rank)) == open[..m]
  {
    var p := if m == 0 then None else Some(at[m - 1]);
    if m > 0 {
      assert Entry(blocks, open, at, m - 1);
      assert Own(blocks[at[m - 1]]) == open[m - 1];
    }
    if m < |at| {
      assert Guarded(blocks, open, at, m);
    }
    NearestIs(blocks, |blocks|, rank, p);
  }

  lemma {:induction false} PushEntry(blocks: seq<Block>, open: seq<Heading>, at: seq<nat>, m: nat, b: Block, k: nat)
    requires Stack(blocks, open, at) && IsHeading(b) && CutAt(open, Own(b).level, m) && k <= m
    requires b.ancestry == open[..m] + [Own(b)]
    ensures Entry(blocks + [b], b.ancestry, at[..m] + [|blocks|], k)
  {
    if k < m {
      assert Entry(blocks, open, at, k);
      assert b.ancestry[..k + 1] == open[..k + 1];
    } else {
      assert b.ancestry[..k + 1] == b.ancestry;
    }
  }

  lemma {:induction false} PushGuard(blocks: seq<Block>, open: seq<Heading>, at: seq<nat>, m: nat, b: Block, k: nat)
    requires Stack(blocks, open, at) && IsHeading(b) && CutAt(open, Own(b).level, m) && k <= m
    requires b.ancestry == open[..m] + [Own(b)]
    ensures Guarded(blocks + [b], b.ancestry, at[..m] + [|blocks|], k)
  {
    var at' := at[..m] + [|blocks|];
    assert Below(at', k) == Below(at, k);
    if k < |at| {
      assert Guarded(blocks, open, at, k);
    }
  }

  lemma {:induction false} PushHeading(blocks: seq<Block>, open: seq<Heading>, at: seq<nat>, m: nat, b: Block)
    requires Stack(blocks, open, at) && IsHeading(b) && CutAt(open, Own(b).level, m)
    requires b.ancestry == open[..m] + [Own(b)]
    ensures Stack(blocks + [b], b.ancestry, at[..m] + [|blocks|])
  {
    forall k | 0 <= k <= m
      ensures Entry(blocks + [b], b.ancestry, at[..m] + [|blocks|], k)
      ensures Guarded(blocks + [b], b.ancestry, at[..m] + [|blocks|], k)
    {
      PushEntry(blocks, open, at, m, b, k);
      PushGuard(blocks, open, at, m, b, k);
    }
  }

  lemma {:induction false} PassBlock(blocks: seq<Block>, open: seq<Heading>, at: seq<nat>, b: Block)
    requires Stack(blocks, open, at) && !IsHeading(b)
    ensures Stack(blocks + [b], open, at)
  {
    forall k | 0 <= k < |at| ensures Entry(blocks + [b], open, at, k) && Guarded(blocks + [b], open, at, k) {
      assert Entry(blocks, open, at, k) && Guarded(blocks, open, at, k);
    }
  }

  // ----- The pass over the lines -----

  function Get(counter: map<string, nat>, key: string): nat { if key in counter then counter[key] else 0 }

  function Bump(counter: map<string, nat>, key: string): map<string, nat> { counter[key := Get(counter, key) + 1] }

  ghost predicate CountsBases(lex: Lexicon, blocks: seq<Block>, counter: map<string, nat>) {
    forall s :: Get(counter, s) == Uses(lex, blocks, |blocks|, s)
  }

  ghost predicate CountsSlugs(lex: Lexicon, blocks: seq<Block>, counter: map<string, nat>) {
    forall s :: Get(counter, s) == SlugUses(lex, blocks, |blocks|, s)
  }

  lemma {:induction false} BumpBase(lex: Lexicon, blocks: seq<Block>, counter: map<string, nat>, b: Block)
    requires CountsBases(lex, blocks, counter)
    ensures CountsBases(lex, blocks + [b], Bump(counter, BaseOf(lex, b)))
  {
    var base := BaseOf(lex, b);
    forall s ensures Get(Bump(counter, base), s) == Uses(lex, blocks + [b], |blocks| + 1, s) {
      UsesLast(lex, blocks, b, base, s);
      assert Get(counter, s) == Uses(lex, blocks, |blocks|, s);
    }
  }

  lemma {:induction false} UsesLast(lex: Lexicon, blocks: seq<Block>, b: Block, base: string, s: string)
    requires base == BaseOf(lex, b)
    ensures Uses(lex, blocks + [b], |blocks| + 1, s) == Uses(lex, blocks, |blocks|, s) + if s == base then 1 else 0
  {
    BasesAppend(lex, blocks, b);
    CountPrefix(Bases(lex, blocks), Bases(lex, blocks + [b]), |blocks|, s);
  }

  lemma {:induction false} BumpSlug(lex: Lexicon, blocks: seq<Block>, counter: map<string, nat>, b: Block)
    requires CountsSlugs(lex, blocks, counter)
    ensures CountsSlugs(lex, blocks + [b], if IsHeading(b) then Bump(counter, lex.slug(Own(b).title)) else counter)
  {
    var counter' := if IsHeading(b) then Bump(counter, lex.slug(Own(b).title)) else counter;
    forall s ensures Get(counter', s) == SlugUses(lex, blocks + [b], |blocks + [b]|, s) {
      SlugUsesPrefix(lex, blocks, b, |blocks|, s);
      assert Get(counter, s) == SlugUses(lex, blocks, |blocks|, s);
    }
  }

  /** The number of lines covered so far. */
  function End(blocks: seq<Block>): nat { if blocks == [] then 0 else blocks[|blocks| - 1].endLine }

  lemma {:induction false} NewBlockOk(lex: Lexicon, lines: seq<string>, blocks: seq<Block>, b: Block)
    requires TextOk(lex, lines, b) && b.startLine == End(blocks) + 1
    requires Named(lex, blocks, |blocks|, b) && Placed(lex, TitleOf(lines, b), blocks, |blocks|, b)
    ensures BlockOk(lex, lines, blocks + [b], |blocks|)
  {
    var n, blocks' := |blocks|, blocks + [b];
    assert blocks'[n] == b && (n > 0 ==> blocks'[n - 1] == blocks[n - 1]);
    PlacedPrefix(lex, TitleOf(lines, b), blocks, b, n, b);
    NamedPrefix(lex, blocks, b, n, b);
  }

  ghost predicate Shallow(open: seq<Heading>) { forall h | h in open :: 1 <= h.level <= 6 }

  lemma {:induction false} OpenHeading(blocks: seq<Block>, open: seq<Heading>, at: seq<nat>, own: Heading) returns (m: nat)
    requires Stack(blocks, open, at)
    ensures CutAt(open, own.level, m) && Keep(open, own.level) == open[..m]
    ensures Above(blocks, Nearest(blocks, |blocks|, own.level)) == Keep(open, own.level)
  {
    m := KeepIsCut(open, own.level);
    NearestIsKept(blocks, open, at, own.level, m);
  }

  lemma {:induction false} OpenForBody(blocks: seq<Block>, open: seq<Heading>, at: seq<nat>)
    requires Stack(blocks, open, at) && Shallow(open)
    ensures Above(blocks, Nearest(blocks, |blocks|, 7)) == open
  {
    NearestIsKept(blocks, open, at, 7, |open|);
    assert open[..|open|] == open;
  }

  /** The open headings and the two counters, while reading. */
  datatype Reader = Reader(open: seq<Heading>, uses: map<string, nat>, slugUses: map<string, nat>)

  ghost predicate Tracks(lex: Lexicon, blocks: seq<Block>, r: Reader, at: seq<nat>) {
    && Stack(blocks, r.open, at) && Shallow(r.open)
    && CountsBases(lex, blocks, r.uses) && CountsSlugs(lex, blocks, r.slugUses)
  }

  /** The reader once a block with this title, if any, has been met. */
  function Descend(lex: Lexicon, r: Reader, title: Option<Title>): Reader {
    if title.None? then r
    else
      var Title(level, text) := title.value;
      var slug := lex.slug(text);
      var slugUses := Bump(r.slugUses, slug);
      var own := Heading(Numbered(SlugName(slug), slugUses[slug]), text, level);
      r.(open := Keep(r.open, level) + [own], slugUses := slugUses)
  }

  function Name(lex: Lexicon, r: Reader, b: Block): (r': Reader) { r.(uses := Bump(r.uses, BaseOf(lex, b))) }

  lemma {:induction false} TracksHeading(lex: Lexicon, blocks: seq<Block>, r: Reader, at: seq<nat>, title: Title, b: Block)
    returns (at': seq<nat>)
    requires Stack(blocks, r.open, at) && Shallow(r.open) && CountsSlugs(lex, blocks, r.slugUses)
    requires 1 <= title.level <= 6 && b.kind == HeadingBlock
    requires b.ancestry == Descend(lex, r, Some(title)).open
    ensures Stack(blocks + [b], b.ancestry, at') && Shallow(b.ancestry)
    ensures CountsSlugs(lex, blocks + [b], Descend(lex, r, Some(title)).slugUses)
    ensures Placed(lex, Some(title), blocks, |blocks|, b)
  {
    var own := OwnHeading(lex, blocks, |blocks|, title);
    var slug := lex.slug(title.text);
    assert Get(r.slugUses, slug) == SlugUses(lex, blocks, |blocks|, slug);
    var m := OpenHeading(blocks, r.open, at, own);
    assert b.ancestry == Keep(r.open, title.level) + [own];
    PushHeading(blocks, r.open, at, m, b);
    BumpSlug(lex, blocks, r.slugUses, b);
    at' := at[..m] + [|blocks|];
  }

  lemma {:induction false} TracksBody(lex: Lexicon, blocks: seq<Block>, r: Reader, at: seq<nat>, b: Block)
    requires Stack(blocks, r.open, at) && Shallow(r.open) && CountsSlugs(lex, blocks, r.slugUses)
    requires b.kind != HeadingBlock && b.ancestry == r.open
    ensures Stack(blocks + [b], b.ancestry, at) && CountsSlugs(lex, blocks + [b], r.slugUses)
    ensures Placed(lex, None, blocks, |blocks|, b)
  {
    OpenForBody(blocks, r.open, at);
    PassBlock(blocks, r.open, at, b);
    BumpSlug(lex, blocks, r.slugUses, b);
  }

  lemma {:induction false} TracksName(lex: Lexicon, blocks: seq<Block>, uses: map<string, nat>, b: Block)
    requires CountsBases(lex, blocks, uses)
    requires b.id == Numbered(BaseOf(lex, b), Get(uses, BaseOf(lex, b)) + 1)
    ensures CountsBases(lex, blocks + [b], Bump(uses, BaseOf(lex, b))) && Named(lex, blocks, |blocks|, b)
  {
    var base := BaseOf(lex, b);
    assert Get(uses, base) == Uses(lex, blocks, |blocks|, base);
    BumpBase(lex, blocks, uses, b);
  }

  lemma {:induction false} TracksPlace(lex: Lexicon, blocks: seq<Block>, r: Reader, at: seq<nat>, title: Option<Title>, b: Block)
    returns (at': seq<nat>)
    requires Stack(blocks, r.open, at) && Shallow(r.open) && CountsSlugs(lex, blocks, r.slugUses)
    requires (b.kind == HeadingBlock <==> title.Some?) && (title.Some? ==> 1 <= title.value.level <= 6)
    requires b.ancestry == Descend(lex, r, title).open
    ensures Stack(blocks + [b], b.ancestry, at') && Shallow(b.ancestry)
    ensures CountsSlugs(lex, blocks + [b], Descend(lex, r, title).slugUses)
    ensures Placed(lex, title, blocks, |blocks|, b)
  {
    if title.Some? {
      at' := TracksHeading(lex, blocks, r, at, title.value, b);
    } else {
      TracksBody(lex, blocks, r, at, b);
      at' := at;
    }
  }

  lemma {:induction false} TracksNext(lex: Lexicon, blocks: seq<Block>, r: Reader, at: seq<nat>, title: Option<Title>, b: Block)
    returns (at': seq<nat>)
    requires Tracks(lex, blocks, r, at) && (b.kind == HeadingBlock <==> title.Some?)
    requires title.Some? ==> 1 <= title.value.level <= 6
    requires b.ancestry == Descend(lex, r, title).open
    requires b.id == Numbered(BaseOf(lex, b), Get(r.uses, BaseOf(lex, b)) + 1)
    ensures Tracks(lex, blocks + [b], Name(lex, Descend(lex, r, title), b), at')
    ensures Named(lex, blocks, |blocks|, b) && Placed(lex, title, blocks, |blocks|, b)
  {
    TracksName(lex, blocks, r.uses, b);
    at' := TracksPlace(lex, blocks, r, at, title, b);
  }

  method ReadBlocks(lex: Lexicon, lines: seq<string>) returns (blocks: seq<Block>)
    ensures BlocksOk(lex, lines, blocks) && End(blocks) == |lines|
  {
    blocks := [];
    var r := Reader([], map[], map[]);
    ghost var at: seq<nat> := [];
    var i := 0;
    while i < |lines|
      invariant i == End(blocks) <= |lines|
      invariant BlocksOk(lex, lines, blocks)
      invariant Tracks(lex, blocks, r, at)
    {
      var b;
      b, r, at := ReadBlock(lex, lines, i, r, blocks, at);
      AppendBlock(lex, lines, blocks, b);
      blocks := blocks + [b];
      i := b.endLine;
    }
  }

  method ReadBlock(lex: Lexicon, lines: seq<string>, start: nat, r: Reader, ghost blocks: seq<Block>, ghost at: seq<nat>)
    returns (b: Block, r': Reader, ghost at': seq<nat>)
    requires start < |lines| && start == End(blocks) && Tracks(lex, blocks, r, at)
    ensures BlockOk(lex, lines, blocks + [b], |blocks|) && Tracks(lex, blocks + [b], r', at')
    ensures b.startLine == start + 1 && start < b.endLine <= |lines|
  {
    var line := Stripped(lines[start]);
    var kind, end := ScanBlock(lex, lines, start);
    var title := MatchHeading(line);
    r' := Descend(lex, r, title);
    var text := Concat(lines[start..end]);
    var original := Definition(lex, line);
    var base := Base(lex, original, kind, text, r'.open);
    b := Block(Numbered(base, Get(r.uses, base) + 1), original, kind, start + 1, end, text, r'.open);
    r' := Name(lex, r', b);
    HeadingKind(lex, line);
    at' := TracksNext(lex, blocks, r, at, title, b);
    NewBlockOk(lex, lines, blocks, b);
  }

  lemma {:induction false} HeadingKind(lex: Lexicon, line: string)
    ensures KindOf(lex, line) == HeadingBlock <==> MatchHeading(line).Some?
  {
  }

  // ----- Nothing is lost and no name is used twice -----

  function Texts(blocks: seq<Block>): seq<string> { seq(|blocks|, i requires 0 <= i < |blocks| => blocks[i].text) }

  /** Block `i` holds its lines and starts where the one before it ends. */
  ghost predicate TileAt(lines: seq<string>, blocks: seq<Block>, i: nat) {
    && i < |blocks| && blocks[i].startLine == (if i == 0 then 1 else blocks[i - 1].endLine + 1)
    && 0 < blocks[i].startLine <= blocks[i].endLine <= |lines|
    && blocks[i].text == Concat(lines[blocks[i].startLine - 1..blocks[i].endLine])
  }

  ghost predicate Tiles(lines: seq<string>, blocks: seq<Block>) {
    forall i: nat {:trigger TileAt(lines, blocks, i)} | i < |blocks| :: TileAt(lines, blocks, i)
  }

  lemma {:induction false} BlocksTile(lex: Lexicon, lines: seq<string>, blocks: seq<Block>)
    requires BlocksOk(lex, lines, blocks)
    ensures Tiles(lines, blocks)
  {
    forall i: nat | i < |blocks| ensures TileAt(lines, blocks, i) {
      assert BlockOk(lex, lines, blocks, i);
    }
  }

  lemma {:induction false} TextsCover(lines: seq<string>, blocks: seq<Block>, n: nat)
    requires Tiles(lines, blocks) && n <= |blocks|
    ensures End(blocks[..n]) <= |lines| && Concat(Texts(blocks[..n])) == Concat(lines[..End(blocks[..n])])
  {
    if n == 0 {
      assert Texts(blocks[..0]) == [] && lines[..0] == [];
    } else {
      TextsCover(lines, blocks, n - 1);
      assert TileAt(lines, blocks, n - 1);
      var b, before := blocks[n - 1], blocks[..n - 1];
      assert blocks[..n][n - 1] == b;
      assert b.startLine - 1 == End(before);
      assert Texts(blocks[..n]) == Texts(before) + [b.text];
      ConcatOne(Texts(before), b.text);
      ConcatAppend(lines[..End(before)], lines[End(before)..b.endLine]);
      assert lines[..End(before)] + lines[End(before)..b.endLine] == lines[..b.endLine];
    }
  }

  /** The texts of the blocks put together are the source. */
  lemma {:induction false} Lossless(lex: Lexicon, source: string, blocks: seq<Block>)
    requires BlocksOk(lex, SplitLines(source), blocks) && End(blocks) == |SplitLines(source)|
    ensures Concat(Texts(blocks)) == source
  {
    var lines := SplitLines(source);
    BlocksTile(lex, lines, blocks);
    TextsCover(lines, blocks, |blocks|);
    assert blocks[..|blocks|] == blocks && lines[..|lines|] == lines;
    ConcatSplit(source);
  }

  lemma {:induction false} CountGrows(names: seq<string>, m: nat, n: nat, s: string)
    requires m <= n <= |names|
    ensures CountIn(names, m, s) <= CountIn(names, n, s)
  {
    if m < n {
      CountGrows(names, m, n - 1, s);
    }
  }

  lemma {:induction false} SlugUsesGrow(lex: Lexicon, blocks: seq<Block>, m: nat, n: nat, slug: string)
    requires m <= n <= |blocks|
    ensures SlugUses(lex, blocks, m, slug) <= SlugUses(lex, blocks, n, slug)
  {
    if m < n {
      SlugUsesGrow(lex, blocks, m, n - 1, slug);
    }
  }

  lemma {:induction false} BlockNamed(lex: Lexicon, lines: seq<string>, blocks: seq<Block>, i: nat)
    requires BlocksOk(lex, lines, blocks) && i < |blocks|
    ensures Named(lex, blocks, i, blocks[i])
  {
    assert BlockOk(lex, lines, blocks, i);
  }

  lemma {:induction false} CountRises(names: seq<string>, i: nat, j: nat)
    requires i < j < |names| && names[i] == names[j]
    ensures CountIn(names, i, names[i]) < CountIn(names, j, names[j])
  {
    CountGrows(names, i + 1, j, names[i]);
  }

  lemma {:induction false} NumbersDiffer(names: seq<string>, i: nat, j: nat)
    requires i < j < |names|
    ensures Numbered(names[i], CountIn(names, i, names[i]) + 1) != Numbered(names[j], CountIn(names, j, names[j]) + 1)
  {
    if names[i] == names[j] {
      CountRises(names, i, j);
    }
    NumberedDiffer(names[i], CountIn(names, i, names[i]) + 1, names[j], CountIn(names, j, names[j]) + 1);
  }

  lemma {:induction false} NameIs(lex: Lexicon, blocks: seq<Block>, i: nat, names: seq<string>)
    requires i < |blocks| && Named(lex, blocks, i, blocks[i]) && names == Bases(lex, blocks)
    ensures blocks[i].id == Numbered(names[i], CountIn(names, i, names[i]) + 1)
  {
    assert names[i] == BaseOf(lex, blocks[i]);
  }

  /** Block ids are pairwise distinct, whatever the digest. */
  lemma {:induction false} IdsDistinct(lex: Lexicon, lines: seq<string>, blocks: seq<Block>, i: nat, j: nat)
    requires BlocksOk(lex, lines, blocks) && i < j < |blocks|
    ensures blocks[i].id != blocks[j].id
  {
    var names := Bases(lex, blocks);
    BlockNamed(lex, lines, blocks, i);
    NameIs(lex, blocks, i, names);
    BlockNamed(lex, lines, blocks, j);
    NameIs(lex, blocks, j, names);
    NumbersDiffer(names, i, j);
  }

  ghost predicate Titled(lex: Lexicon, blocks: seq<Block>, i: nat) {
    && i < |blocks| && IsHeading(blocks[i])
    && var slug := lex.slug(Own(blocks[i]).title);
       Own(blocks[i]).id == Numbered(SlugName(slug), SlugUses(lex, blocks, i, slug) + 1)
  }

  lemma {:induction false} BlockPlaced(lex: Lexicon, lines: seq<string>, blocks: seq<Block>, i: nat)
    requires BlockOk(lex, lines, blocks, i)
    ensures i < |blocks| && Placed(lex, TitleOf(lines, blocks[i]), blocks, i, blocks[i])
  {
  }

  lemma {:induction false} PlacedTitled(lex: Lexicon, title: Option<Title>, blocks: seq<Block>, i: nat)
    requires i < |blocks| && Placed(lex, title, blocks, i, blocks[i]) && blocks[i].kind == HeadingBlock
    ensures Titled(lex, blocks, i)
  {
    assert Own(blocks[i]) == OwnHeading(lex, blocks, i, title.value);
  }

  lemma {:induction false} BlockTitled(lex: Lexicon, lines: seq<string>, blocks: seq<Block>, i: nat)
    requires BlocksOk(lex, lines, blocks) && i < |blocks| && blocks[i].kind == HeadingBlock
    ensures Titled(lex, blocks, i)
  {
    BlockPlaced(lex, lines, blocks, i);
    PlacedTitled(lex, TitleOf(lines, blocks[i]), blocks, i);
  }

  lemma {:induction false} HeadingIdsDistinct(lex: Lexicon, blocks: seq<Block>, i: nat, j: nat)
    requires Titled(lex, blocks, i) && Titled(lex, blocks, j) && i < j
    ensures Own(blocks[i]).id != Own(blocks[j]).id
  {
    var s, t := lex.slug(Own(blocks[i]).title), lex.slug(Own(blocks[j]).title);
    var m, n := SlugUses(lex, blocks, i, s) + 1, SlugUses(lex, blocks, j, t) + 1;
    assert s == SlugName(s)[8..] && t == SlugName(t)[8..];
    SlugUsesGrow(lex, blocks, i + 1, j, s);
    NumberedDiffer(SlugName(s), m, SlugName(t), n);
  }

  // ----- Parents and children -----

  ghost predicate AllDistinct(ids: seq<string>) { forall i, j | 0 <= i < j < |ids| :: ids[i] != ids[j] }

  function Ids(blocks: seq<Block>): seq<string> { seq(|blocks|, i requires 0 <= i < |blocks| => blocks[i].id) }

  function ParentId(blocks: seq<Block>, i: nat): Option<string>
    requires i < |blocks|
  {
    var p := ParentIndex(blocks, i);
    if p.Some? then Some(blocks[p.value].id) else None
  }

  /** The blocks among the first `n` whose parent is block `p`, in document order. */
  function ChildIds(blocks: seq<Block>, n: nat, p: nat): seq<string>
    requires n <= |blocks|
  {
    if n == 0 then []
    else ChildIds(blocks, n - 1, p) + if ParentIndex(blocks, n - 1) == Some(p) then [blocks[n - 1].id] else []
  }

  ghost predicate ChildAt(blocks: seq<Block>, i: int, p: nat, id: string) {
    0 <= i < |blocks| && ParentIndex(blocks, i) == Some(p) && blocks[i].id == id
  }

  ghost predicate HasChild(blocks: seq<Block>, n: nat, p: nat, id: string) {
    exists i :: 0 <= i < n && ChildAt(blocks, i, p, id)
  }

  lemma {:induction false} HasChildStep(blocks: seq<Block>, n: nat, p: nat, id: string)
    ensures HasChild(blocks, n + 1, p, id) <==> HasChild(blocks, n, p, id) || ChildAt(blocks, n, p, id)
  {
  }

  lemma {:induction false} ChildIdsStep(blocks: seq<Block>, i: nat, p: nat)
    requires i < |blocks|
    ensures ChildIds(blocks, i + 1, p) ==
            if ParentIndex(blocks, i) == Some(p) then ChildIds(blocks, i, p) + [blocks[i].id] else ChildIds(blocks, i, p)
  {
  }

  lemma {:induction false} ChildIdsMembers(blocks: seq<Block>, n: nat, p: nat, id: string)
    requires n <= |blocks|
    ensures id in ChildIds(blocks, n, p) <==> HasChild(blocks, n, p, id)
  {
    if n > 0 {
      ChildIdsMembers(blocks, n - 1, p, id);
      ChildIdsStep(blocks, n - 1, p);
      HasChildStep(blocks, n - 1, p, id);
    }
  }

  /** The map from heading names to the records of the headings. */
  ghost predicate HeadingMap(blocks: seq<Block>, n: nat, m: map<string, string>) {
    n <= |blocks| && forall i | 0 <= i < n && IsHeading(blocks[i]) :: Own(blocks[i]).id in m && m[Own(blocks[i]).id] == blocks[i].id
  }

  method MapHeadings(lex: Lexicon, lines: seq<string>, blocks: seq<Block>) returns (m: map<string, string>)
    requires BlocksOk(lex, lines, blocks)
    ensures HeadingMap(blocks, |blocks|, m)
  {
    m := map[];
    for i := 0 to |blocks|
      invariant HeadingMap(blocks, i, m)
    {
      if blocks[i].kind == HeadingBlock {
        BlockTitled(lex, lines, blocks, i);
        forall j | 0 <= j < i && IsHeading(blocks[j]) ensures Own(blocks[j]).id != Own(blocks[i]).id {
          BlockTitled(lex, lines, blocks, j);
          HeadingIdsDistinct(lex, blocks, j, i);
        }
        m := m[Own(blocks[i]).id := blocks[i].id];
      }
    }
  }

  /** What a block stands under, without its own heading. */
  function AboveOf(b: Block): seq<Heading> {
    if b.kind == HeadingBlock && b.ancestry != [] then b.ancestry[..|b.ancestry| - 1] else b.ancestry
  }

  lemma {:induction false} PlacedAbove(lex: Lexicon, title: Option<Title>, blocks: seq<Block>, i: nat)
    requires i < |blocks| && Placed(lex, title, blocks, i, blocks[i])
    ensures AboveOf(blocks[i]) == Above(blocks, ParentIndex(blocks, i))
  {
  }

  /** The last heading a block stands under is the heading of its parent. */
  lemma {:induction false} LastAboveIsParent(lex: Lexicon, lines: seq<string>, blocks: seq<Block>, i: nat)
    requires BlocksOk(lex, lines, blocks) && i < |blocks|
    ensures
      var above, p := AboveOf(blocks[i]), ParentIndex(blocks, i);
      if p.Some? then above != [] && above[|above| - 1] == Own(blocks[p.value]) else above == []
  {
    BlockPlaced(lex, lines, blocks, i);
    PlacedAbove(lex, TitleOf(lines, blocks[i]), blocks, i);
  }

  method LinkParents(lex: Lexicon, lines: seq<string>, blocks: seq<Block>) returns (parents: seq<Option<string>>)
    requires BlocksOk(lex, lines, blocks)
    ensures |parents| == |blocks| && forall i | 0 <= i < |blocks| :: parents[i] == ParentId(blocks, i)
  {
    var headings := MapHeadings(lex, lines, blocks);
    parents := [];
    for i := 0 to |blocks|
      invariant |parents| == i && forall j | 0 <= j < i :: parents[j] == ParentId(blocks, j)
    {
      var b := blocks[i];
      LastAboveIsParent(lex, lines, blocks, i);
      var above := AboveOf(b);
      parents := parents + [if above != [] then Some(headings[above[|above| - 1].id]) else None];
    }
  }

  /** Where each id is. */
  ghost predicate IdMap(ids: seq<string>, m: map<string, nat>) {
    forall i: nat | i < |ids| :: ids[i] in m && m[ids[i]] == i
  }

  method IndexIds(ids: seq<string>) returns (m: map<string, nat>)
    requires AllDistinct(ids)
    ensures IdMap(ids, m)
  {
    m := map[];
    for i := 0 to |ids|
      invariant IdMap(ids[..i], m)
    {
      m := m[ids[i] := i];
    }
    assert ids[..|ids|] == ids;
  }

  ghost predicate ChildrenUpTo(blocks: seq<Block>, n: nat, children: seq<seq<string>>) {
    n <= |blocks| == |children| && forall p: nat | p < |blocks| :: children[p] == ChildIds(blocks, n, p)
  }

  lemma {:induction false} ChildrenStep(blocks: seq<Block>, i: nat, children: seq<seq<string>>)
    requires i < |blocks| && ChildrenUpTo(blocks, i, children)
    ensures
      var q := ParentIndex(blocks, i);
      ChildrenUpTo(blocks, i + 1, if q.Some? then children[q.value := children[q.value] + [blocks[i].id]] else children)
  {
    var q := ParentIndex(blocks, i);
    var after := if q.Some? then children[q.value := children[q.value] + [blocks[i].id]] else children;
    forall p: nat | p < |blocks| ensures after[p] == ChildIds(blocks, i + 1, p) {
      ChildIdsStep(blocks, i, p);
    }
  }

  method LinkChildren(blocks: seq<Block>, parents: seq<Option<string>>) returns (children: seq<seq<string>>)
    requires AllDistinct(Ids(blocks)) && |parents| == |blocks|
    requires forall i | 0 <= i < |blocks| :: parents[i] == ParentId(blocks, i)
    ensures |children| == |blocks| && forall p: nat | p < |blocks| :: children[p] == ChildIds(blocks, |blocks|, p)
  {
    var byId := IndexIds(Ids(blocks));
    children := seq(|blocks|, _ => []);
    for i := 0 to |blocks|
      invariant ChildrenUpTo(blocks, i, children)
    {
      ChildrenStep(blocks, i, children);
      if parents[i].Some? {
        ParentFound(blocks, byId, i);
        var p := byId[parents[i].value];
        children := children[p := children[p] + [blocks[i].id]];
      }
    }
  }

  lemma {:induction false} ParentFound(blocks: seq<Block>, byId: map<string, nat>, i: nat)
    requires IdMap(Ids(blocks), byId) && i < |blocks| && ParentId(blocks, i).Some?
    ensures ParentId(blocks, i).value in byId && ParentIndex(blocks, i) == Some(byId[ParentId(blocks, i).value])
    ensures byId[ParentId(blocks, i).value] < |blocks|
  {
    var q := ParentIndex(blocks, i).value;
    assert Ids(blocks)[q] == blocks[q].id;
  }

  // ----- The extraction -----

  ghost function Blocks(records: seq<Record>): seq<Block> { seq(|records|, i requires 0 <= i < |records| => records[i].block) }

  /**
    Every record's block, name and place as above, its parent the nearest earlier
    heading that outranks it, its children exactly the records it is the parent of.
   */
  ghost predicate Extracted(lex: Lexicon, source: string, records: seq<Record>) {
    var lines, blocks := SplitLines(source), Blocks(records);
    && BlocksOk(lex, lines, blocks) && End(blocks) == |lines|
    && Concat(Texts(blocks)) == source
    && AllDistinct(Ids(blocks))
    && (forall i: nat | i < |records| :: records[i].parent == ParentId(blocks, i))
    && (forall p: nat | p < |records| :: records[p].children == ChildIds(blocks, |blocks|, p))
  }

  method Extract(lex: Lexicon, source: string) returns (records: seq<Record>)
    ensures Extracted(lex, source, records)
  {
    var lines := SplitLines(source);
    var blocks := ReadBlocks(lex, lines);
    Lossless(lex, source, blocks);
    forall i, j | 0 <= i < j < |Ids(blocks)| ensures Ids(blocks)[i] != Ids(blocks)[j] {
      IdsDistinct(lex, lines, blocks, i, j);
    }
    var parents := LinkParents(lex, lines, blocks);
    var children := LinkChildren(blocks, parents);
    records := seq(|blocks|, i requires 0 <= i < |blocks| => Record(blocks[i], parents[i], children[i]));
    assert Blocks(records) == blocks;
  }

  /** Parents and children are inverse to each other. */
  lemma {:induction false} ChildrenInverse(lex: Lexicon, source: string, records: seq<Record>, i: nat, p: nat)
    requires Extracted(lex, source, records) && i < |records| && p < |records|
    ensures records[i].block.id in records[p].children <==> records[i].parent == Some(records[p].block.id)
  {
    var blocks := Blocks(records);
    assert blocks[i] == records[i].block && blocks[p] == records[p].block;
    var id, q := blocks[i].id, ParentIndex(blocks, i);
    ChildIdsMembers(blocks, |blocks|, p, id);
    SameId(blocks, i);
    assert ChildAt(blocks, i, p, id) <==> q == Some(p);
    if q.Some? {
      SameId(blocks, q.value);
    }
  }

  lemma {:induction false} SameId(blocks: seq<Block>, i: nat)
    requires AllDistinct(Ids(blocks)) && i < |blocks|
    ensures forall j | 0 <= j < |blocks| && blocks[j].id == blocks[i].id :: j == i
  {
    var ids := Ids(blocks);
    forall j | 0 <= j < |blocks| && blocks[j].id == blocks[i].id ensures j == i {
      assert ids[j] == ids[i];
    }
  }
}
