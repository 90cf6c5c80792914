/**
  The chunk lists a PNG map source may consist of, stated over the whole list,
  and the proof that the walk admits exactly their serializations.
 */
module PngContainer {
  import opened PngChecksum
  import opened PngAdmission

  // ----- The contract over chunk lists -----

  ghost predicate KindAt(cs: seq<Piece>, i: int, kind: Kind) {
    0 <= i < |cs| && cs[i].kind == kind
  }

  ghost predicate NoneBefore(cs: seq<Piece>, i: int, kind: Kind) {
    forall j | 0 <= j < i :: !KindAt(cs, j, kind)
  }

  /** The big-endian number in the four bytes at `i`. */
  ghost function Word(d: seq<byte>, i: nat): nat
    requires i + 4 <= |d|
  {
    d[i] as nat * 16777216 + d[i + 1] as nat * 65536 + d[i + 2] as nat * 256 + d[i + 3] as nat
  }

  /** The bit depths of grey, indexed and other colors. */
  ghost predicate ColorDepth(color: byte, depth: byte) {
    || (color == 0 && depth in {1, 2, 4, 8, 16})
    || (color == 3 && depth in {1, 2, 4, 8})
    || (color in {2, 4, 6} && depth in {8, 16})
  }

  /** Width, height, bit depth, color, and the only compression, filter and interlace methods. */
  ghost predicate HeaderData(d: seq<byte>) {
    && |d| == 13
    && 1 <= Word(d, 0) <= 32768 && 1 <= Word(d, 4) <= 32768 && Word(d, 0) * Word(d, 4) <= 100_000_000
    && ColorDepth(d[9], d[8]) && d[10] == 0 && d[11] == 0 && (d[12] == 0 || d[12] == 1)
  }

  ghost predicate HeaderFirst(cs: seq<Piece>) { KindAt(cs, 0, Ihdr) && HeaderData(cs[0].data) }

  ghost function HeaderOf(cs: seq<Piece>): Header
    requires HeaderFirst(cs)
  {
    var d := cs[0].data;
    Header(Word(d, 0), Word(d, 4), d[8], d[9])
  }

  lemma {:induction false} WordIs(d: seq<byte>, i: nat)
    requires i + 4 <= |d|
    ensures Word(d, i) == FromBe(d[i..i + 4])
  {
    var b := d[i..i + 4];
    assert b[0] == d[i] && b[1] == d[i + 1] && b[2] == d[i + 2] && b[3] == d[i + 3];
  }

  lemma {:induction false} DepthsAre(color: byte, depth: byte)
    ensures DepthFits(color, depth) <==> ColorDepth(color, depth)
  {
  }

  lemma {:induction false} HeaderReads(d: seq<byte>)
    requires |d| == 13
    ensures ReadHeader(d).Continue? <==> HeaderData(d)
    ensures ReadHeader(d).Continue? ==>
              ReadHeader(d).walk == START.(header := Some(Header(Word(d, 0), Word(d, 4), d[8], d[9])))
    ensures !ReadHeader(d).Admit?
  {
    WordIs(d, 0);
    WordIs(d, 4);
    DepthsAre(d[9], d[8]);
  }

  /** The number of colors a bit depth can tell apart. */
  ghost function Colors(depth: nat): nat { if depth == 0 then 1 else 2 * Colors(depth - 1) }

  lemma {:induction false} ColorsAre(depth: nat)
    requires depth in {1, 2, 4, 8}
    ensures Colors(depth) == Entries(depth)
  {
    assert Colors(4) == 16;
    assert Colors(8) == 256;
  }

  ghost predicate PaletteOk(cs: seq<Piece>, h: Header, i: int)
    requires 0 <= i < |cs|
  {
    var length := |cs[i].data|;
    && NoneBefore(cs, i, Plte) && NoneBefore(cs, i, Trns) && NoneBefore(cs, i, Idat)
    && h.color in {2, 3, 6} && 0 < length <= 768 && length % 3 == 0
    && (h.color == 3 ==> length / 3 <= Colors(h.depth))
  }

  ghost predicate TransparencyOk(cs: seq<Piece>, h: Header, i: int)
    requires 0 <= i < |cs|
  {
    var length := |cs[i].data|;
    && NoneBefore(cs, i, Trns) && NoneBefore(cs, i, Idat)
    && match h.color
       case 0 => length == 2
       case 2 => length == 6
       case 3 => 0 < length && exists j :: 0 <= j < i && KindAt(cs, j, Plte) && length <= |cs[j].data| / 3
       case _ => false
  }

  /** What a chunk between the header and the end must satisfy. */
  ghost predicate InnerOk(cs: seq<Piece>, h: Header, i: int)
    requires 0 <= i < |cs|
  {
    var data := cs[i].data;
    match cs[i].kind
    case Ihdr => false
    case Plte => PaletteOk(cs, h, i)
    case Trns => TransparencyOk(cs, h, i)
    case Idat => |data| > 0
    case Iend => false
    case Srgb =>
      && NoneBefore(cs, i, Idat) && NoneBefore(cs, i, Plte) && NoneBefore(cs, i, Srgb)
      && |data| == 1 && data[0] <= 3
    case Gama =>
      && NoneBefore(cs, i, Idat) && NoneBefore(cs, i, Plte) && NoneBefore(cs, i, Gama)
      && |data| == 4 && FromBe(data) != 0
    case Phys => NoneBefore(cs, i, Idat) && NoneBefore(cs, i, Phys) && |data| == 9 && data[8] <= 1
    case Unsupported => false
  }

  /** IHDR, then metadata, then image data, then IEND. */
  ghost predicate ListOk(cs: seq<Piece>) {
    && 0 < |cs| <= MAX_CHUNKS
    && HeaderFirst(cs)
    && KindAt(cs, |cs| - 1, Iend) && cs[|cs| - 1].data == []
    && (forall i | 0 < i < |cs| - 1 :: InnerOk(cs, HeaderOf(cs), i))
    && (exists i :: 0 <= i < |cs| - 1 && KindAt(cs, i, Idat))
    && (HeaderOf(cs).color == 3 ==> exists i :: 0 <= i < |cs| - 1 && KindAt(cs, i, Plte))
  }

  // ----- Walking a list -----

  ghost function Next(w: Walk, c: Piece): Walk {
    var v := Consume(w, c, false);
    if v.Continue? then v.walk else w
  }

  ghost function After(cs: seq<Piece>, n: nat): Walk
    requires n <= |cs|
  {
    if n == 0 then START else Next(After(cs, n - 1), cs[n - 1])
  }

  ghost predicate AcceptsAt(cs: seq<Piece>, i: nat)
    requires i < |cs|
  {
    if i < |cs| - 1 then Consume(After(cs, i), cs[i], false).Continue?
    else Consume(After(cs, i), cs[i], true).Admit?
  }

  ghost predicate AcceptsFrom(cs: seq<Piece>, n: nat) {
    n < |cs| && forall i | n <= i < |cs| :: AcceptsAt(cs, i)
  }

  ghost predicate Seen(cs: seq<Piece>, n: int, kind: Kind) {
    exists j :: 0 <= j < n && KindAt(cs, j, kind)
  }

  ghost predicate SmallMetadata(w: Walk) {
    w.metadataBytes <= (if w.sawPalette then 768 else 0) + (if w.sawTransparency then 256 else 0)
                       + (if w.sawSrgb then 1 else 0) + (if w.sawGamma then 4 else 0) + (if w.sawPhys then 9 else 0)
  }

  /** What the flags mean after `n > 0` accepted chunks. */
  ghost predicate Means(cs: seq<Piece>, n: nat, w: Walk)
    requires HeaderFirst(cs) && 0 < n <= |cs|
  {
    && w.chunks == n && w.header == Some(HeaderOf(cs)) && !w.endedIdat
    && (w.sawPalette <==> Seen(cs, n, Plte)) && (w.sawTransparency <==> Seen(cs, n, Trns))
    && (w.sawIdat <==> Seen(cs, n, Idat)) && (w.sawSrgb <==> Seen(cs, n, Srgb))
    && (w.sawGamma <==> Seen(cs, n, Gama)) && (w.sawPhys <==> Seen(cs, n, Phys))
    && (forall j | 0 <= j < n && KindAt(cs, j, Plte) :: w.paletteEntries == |cs[j].data| / 3)
    && w.paletteEntries <= 256 && SmallMetadata(w)
  }

  lemma {:induction false} SeenStep(cs: seq<Piece>, n: nat, kind: Kind)
    requires n < |cs|
    ensures Seen(cs, n + 1, kind) <==> Seen(cs, n, kind) || cs[n].kind == kind
    ensures NoneBefore(cs, n, kind) <==> !Seen(cs, n, kind)
  {
    if Seen(cs, n, kind) {
      var j :| 0 <= j < n && KindAt(cs, j, kind);
      assert KindAt(cs, j, kind);
    }
    if cs[n].kind == kind {
      assert KindAt(cs, n, kind);
    }
  }

  lemma {:induction false} SeenSteps(cs: seq<Piece>, n: nat)
    requires n < |cs|
    ensures forall kind {:trigger Seen(cs, n + 1, kind)} :: Seen(cs, n + 1, kind) <==> Seen(cs, n, kind) || cs[n].kind == kind
    ensures forall kind {:trigger NoneBefore(cs, n, kind)} :: NoneBefore(cs, n, kind) <==> !Seen(cs, n, kind)
  {
    forall kind
      ensures Seen(cs, n + 1, kind) <==> Seen(cs, n, kind) || cs[n].kind == kind
      ensures NoneBefore(cs, n, kind) <==> !Seen(cs, n, kind)
    {
      SeenStep(cs, n, kind);
    }
  }

  lemma {:induction false} PaletteSize(cs: seq<Piece>, i: nat, w: Walk)
    requires HeaderFirst(cs) && 0 < i < |cs| && Means(cs, i, w)
    ensures w.sawPalette && |cs[i].data| <= w.paletteEntries <==>
            exists j :: 0 <= j < i && KindAt(cs, j, Plte) && |cs[i].data| <= |cs[j].data| / 3
  {
    if w.sawPalette {
      var j :| 0 <= j < i && KindAt(cs, j, Plte);
      assert KindAt(cs, j, Plte);
    }
  }

  /** When a chunk that is neither first nor last is taken, as a condition on the flags. */
  ghost predicate Fits(w: Walk, h: Header, p: Piece) {
    var length := |p.data|;
    match p.kind
    case Plte =>
      && !w.sawPalette && !w.sawTransparency && !w.sawIdat && h.color in {2, 3, 6}
      && 0 < length <= 768 && length % 3 == 0 && (h.color == 3 ==> length / 3 <= Entries(h.depth))
    case Trns =>
      && !w.sawTransparency && !w.sawIdat
      && (match h.color
          case 0 => length == 2
          case 2 => length == 6
          case 3 => 0 < length && w.sawPalette && length <= w.paletteEntries
          case _ => false)
    case Idat => length > 0
    case Srgb => !w.sawIdat && !w.sawPalette && !w.sawSrgb && length == 1 && p.data[0] <= 3
    case Gama => !w.sawIdat && !w.sawPalette && !w.sawGamma && length == 4 && FromBe(p.data) != 0
    case Phys => !w.sawIdat && !w.sawPhys && length == 9 && p.data[8] <= 1
    case _ => false
  }

  ghost predicate Running(w: Walk, h: Header) {
    w.header == Some(h) && !w.endedIdat && w.paletteEntries <= 256 && SmallMetadata(w) && w.chunks > 0
  }

  lemma {:induction false} ConsumeFits(w: Walk, h: Header, p: Piece)
    requires Running(w, h) && w.chunks < MAX_CHUNKS
    ensures Consume(w, p, false).Continue? <==> Fits(w, h, p)
  {
  }

  /** The walk after a chunk that fits. */
  ghost function Taken(w: Walk, p: Piece): Walk {
    var kind := p.kind;
    Walk(
      w.chunks + 1, w.header, w.sawPalette || kind == Plte, if kind == Plte then |p.data| / 3 else w.paletteEntries,
      w.sawTransparency || kind == Trns, w.sawIdat || kind == Idat, w.endedIdat, Counted(w, p).metadataBytes,
      w.sawSrgb || kind == Srgb, w.sawGamma || kind == Gama, w.sawPhys || kind == Phys)
  }

  lemma {:induction false} ConsumeTakes(w: Walk, h: Header, p: Piece)
    requires Running(w, h) && Consume(w, p, false).Continue?
    ensures w.chunks < MAX_CHUNKS && Fits(w, h, p) && Next(w, p) == Taken(w, p)
  {
    ConsumeFits(w, h, p);
  }

  /** What keeps the flags and the metadata total in step. */
  ghost predicate FitsOnce(w: Walk, kind: Kind, length: nat) {
    match kind
    case Plte => !w.sawPalette && length <= 768
    case Trns => !w.sawTransparency && !w.sawIdat && length <= 256
    case Idat => true
    case Srgb => !w.sawSrgb && length == 1
    case Gama => !w.sawGamma && length == 4
    case Phys => !w.sawPhys && length == 9
    case _ => false
  }

  lemma {:induction false} FitsIsOnce(w: Walk, h: Header, p: Piece)
    requires Fits(w, h, p) && w.paletteEntries <= 256
    ensures FitsOnce(w, p.kind, |p.data|)
  {
  }

  lemma {:induction false} TakenMetadata(w: Walk, p: Piece)
    requires FitsOnce(w, p.kind, |p.data|) && SmallMetadata(w)
    ensures SmallMetadata(Taken(w, p))
  {
  }

  lemma {:induction false} FitsIsClause(cs: seq<Piece>, i: nat, w: Walk)
    requires HeaderFirst(cs) && 0 < i < |cs| && Means(cs, i, w)
    ensures Fits(w, HeaderOf(cs), cs[i]) <==> InnerOk(cs, HeaderOf(cs), i)
  {
    SeenSteps(cs, i);
    PaletteSize(cs, i, w);
    if HeaderOf(cs).color == 3 {
      ColorsAre(HeaderOf(cs).depth);
    }
  }

  ghost predicate ContinuesAt(cs: seq<Piece>, i: nat) {
    i < |cs| && Consume(After(cs, i), cs[i], false).Continue?
  }

  ghost predicate ContinuesTo(cs: seq<Piece>, n: nat) {
    forall i: nat {:trigger ContinuesAt(cs, i)} | 0 < i < n :: ContinuesAt(cs, i)
  }

  lemma {:induction false} InnerIsClause(cs: seq<Piece>, i: nat)
    requires HeaderFirst(cs) && 0 < i < |cs| && i < MAX_CHUNKS
    requires Means(cs, i, After(cs, i))
    ensures ContinuesAt(cs, i) <==> InnerOk(cs, HeaderOf(cs), i)
  {
    ConsumeFits(After(cs, i), HeaderOf(cs), cs[i]);
    FitsIsClause(cs, i, After(cs, i));
  }

  lemma {:induction false} MeansStep(cs: seq<Piece>, i: nat, w: Walk)
    requires HeaderFirst(cs) && 0 < i < |cs|
    requires Means(cs, i, w) && Consume(w, cs[i], false).Continue?
    ensures Means(cs, i + 1, Next(w, cs[i])) && i < MAX_CHUNKS
  {
    ConsumeTakes(w, HeaderOf(cs), cs[i]);
    MeansTaken(cs, i, w);
  }

  lemma {:induction false} MeansTaken(cs: seq<Piece>, i: nat, w: Walk)
    requires HeaderFirst(cs) && 0 < i < |cs| && Means(cs, i, w) && Fits(w, HeaderOf(cs), cs[i])
    ensures Means(cs, i + 1, Taken(w, cs[i]))
  {
    FitsIsOnce(w, HeaderOf(cs), cs[i]);
    OnceMeans(cs, i, w);
  }

  lemma {:induction false} OnceMeans(cs: seq<Piece>, i: nat, w: Walk)
    requires HeaderFirst(cs) && 0 < i < |cs| && Means(cs, i, w) && FitsOnce(w, cs[i].kind, |cs[i].data|)
    ensures Means(cs, i + 1, Taken(w, cs[i]))
  {
    TakenMetadata(w, cs[i]);
    SeenSteps(cs, i);
    assert Seen(cs, i + 1, Plte) <==> Seen(cs, i, Plte) || cs[i].kind == Plte;
    assert cs[i].kind == Plte ==> forall j | 0 <= j < i :: !KindAt(cs, j, Plte);
  }

  lemma {:induction false} HeaderMeans(cs: seq<Piece>)
    requires |cs| > 1 && HeaderFirst(cs)
    ensures Consume(START, cs[0], false).Continue? && Means(cs, 1, After(cs, 1))
  {
    SeenSteps(cs, 0);
    HeaderReads(cs[0].data);
    assert After(cs, 0) == START;
  }

  /** Only a good header can come first, and it cannot also be last. */
  lemma {:induction false} FirstIsHeader(cs: seq<Piece>, atEnd: bool)
    requires |cs| > 0
    ensures Consume(START, cs[0], atEnd).Continue? <==> HeaderFirst(cs)
    ensures !Consume(START, cs[0], atEnd).Admit?
  {
    if |cs[0].data| == 13 {
      HeaderReads(cs[0].data);
    }
  }

  lemma {:induction false} PrefixMeans(cs: seq<Piece>, n: nat)
    requires HeaderFirst(cs) && 0 < n < |cs| && ContinuesTo(cs, n)
    ensures Means(cs, n, After(cs, n)) && n <= MAX_CHUNKS
  {
    if n == 1 {
      HeaderMeans(cs);
    } else {
      PrefixMeans(cs, n - 1);
      assert ContinuesAt(cs, n - 1);
      MeansStep(cs, n - 1, After(cs, n - 1));
    }
  }

  lemma {:induction false} LastIsClause(cs: seq<Piece>)
    requires |cs| > 1 && HeaderFirst(cs) && Means(cs, |cs| - 1, After(cs, |cs| - 1))
    ensures AcceptsAt(cs, |cs| - 1) <==>
            && |cs| <= MAX_CHUNKS
            && KindAt(cs, |cs| - 1, Iend) && cs[|cs| - 1].data == []
            && Seen(cs, |cs| - 1, Idat)
            && (HeaderOf(cs).color == 3 ==> Seen(cs, |cs| - 1, Plte))
  {
    LastAdmits(After(cs, |cs| - 1), HeaderOf(cs), cs[|cs| - 1]);
  }

  lemma {:induction false} LastAdmits(w: Walk, h: Header, p: Piece)
    requires Running(w, h)
    ensures Consume(w, p, true).Admit? <==>
            && w.chunks < MAX_CHUNKS && p.kind == Iend && p.data == []
            && w.sawIdat && (h.color == 3 ==> w.sawPalette)
  {
  }

  lemma {:induction false} AcceptedListOk(cs: seq<Piece>)
    requires AcceptsFrom(cs, 0)
    ensures ListOk(cs)
  {
    FirstIsHeader(cs, true);
    FirstIsHeader(cs, false);
    assert AcceptsAt(cs, 0);
    var last := |cs| - 1;
    forall i: nat | 0 < i < last ensures ContinuesAt(cs, i) {
      assert AcceptsAt(cs, i);
    }
    assert AcceptsAt(cs, last);
    PrefixMeans(cs, last);
    LastIsClause(cs);
    forall i | 0 < i < last ensures InnerOk(cs, HeaderOf(cs), i) {
      PrefixMeans(cs, i);
      InnerIsClause(cs, i);
      assert ContinuesAt(cs, i);
    }
  }

  lemma {:induction false} OkListAccepted(cs: seq<Piece>)
    requires ListOk(cs)
    ensures AcceptsFrom(cs, 0)
  {
    var last := |cs| - 1;
    MoreThanHeader(cs);
    OkPrefix(cs, last);
    PrefixMeans(cs, last);
    LastIsClause(cs);
    HeaderContinues(cs);
    AllAccepted(cs);
  }

  lemma {:induction false} MoreThanHeader(cs: seq<Piece>)
    requires ListOk(cs)
    ensures |cs| > 1
  {
    var d :| 0 <= d < |cs| - 1 && KindAt(cs, d, Idat);
  }

  lemma {:induction false} HeaderContinues(cs: seq<Piece>)
    requires |cs| > 1 && HeaderFirst(cs)
    ensures ContinuesAt(cs, 0)
  {
    HeaderMeans(cs);
    assert After(cs, 0) == START;
  }

  lemma {:induction false} AllAccepted(cs: seq<Piece>)
    requires |cs| > 1 && ContinuesAt(cs, 0) && ContinuesTo(cs, |cs| - 1) && AcceptsAt(cs, |cs| - 1)
    ensures AcceptsFrom(cs, 0)
  {
    forall i | 0 <= i < |cs| ensures AcceptsAt(cs, i) {
      if i < |cs| - 1 {
        assert ContinuesAt(cs, i);
      }
    }
  }

  lemma {:induction false} OkPrefix(cs: seq<Piece>, n: nat)
    requires ListOk(cs) && 0 < n < |cs|
    ensures ContinuesTo(cs, n)
  {
    if n > 1 {
      OkPrefix(cs, n - 1);
      PrefixMeans(cs, n - 1);
      InnerIsClause(cs, n - 1);
    }
  }

  // ----- Walking bytes is walking the list they serialize -----

  ghost predicate AllShaped(cs: seq<Chunk>) { forall c | c in cs :: Shaped(c) }

  lemma {:induction false} SerializeStep(k: Checksum, cs: seq<Chunk>, i: nat)
    requires FourBytes(k) && AllShaped(cs) && i < |cs|
    ensures AllShaped(cs[i..]) && AllShaped(cs[i + 1..]) && Shaped(cs[i])
    ensures SerializeAll(k, cs[i..]) == Serialize(k, cs[i]) + SerializeAll(k, cs[i + 1..])
  {
    assert cs[i..][0] == cs[i] && cs[i..][1..] == cs[i + 1..];
  }

  function Pieces(cs: seq<Chunk>): (ps: seq<Piece>)
    ensures |ps| == |cs|
  {
    seq(|cs|, i requires 0 <= i < |cs| => Recognize(cs[i]))
  }

  ghost predicate Admits(k: Checksum, bytes: seq<byte>, offset: nat, w: Walk) {
    offset <= |bytes| && WalkFrom(k, bytes, offset, w).Admit?
  }

  lemma {:induction false} WalkStep(k: Checksum, bytes: seq<byte>, offset: nat, w: Walk, c: Chunk, next: nat)
    requires offset < next <= |bytes| && ParseChunk(k, bytes, offset) == Parsed(c, next)
    ensures
      var p := Recognize(c);
      Admits(k, bytes, offset, w) <==>
      if next == |bytes| then Consume(w, p, true).Admit?
      else Consume(w, p, false).Continue? && Admits(k, bytes, next, Next(w, p))
  {
    EndIsOnlyForEnd(w, Recognize(c));
    var v := Consume(w, Recognize(c), next == |bytes|);
    if next == |bytes| {
      assert v == Consume(w, Recognize(c), true);
      assert v.Continue? ==> WalkFrom(k, bytes, next, v.walk) == Invalid;
    } else {
      assert v == Consume(w, Recognize(c), false);
    }
  }

  lemma {:induction false} EndIsOnlyForEnd(w: Walk, p: Piece)
    ensures !Consume(w, p, false).Admit?
    ensures Consume(w, p, true).Continue? ==> Consume(w, p, false) == Consume(w, p, true)
    ensures w.chunks + 1 > MAX_CHUNKS ==> Consume(w, p, true) == Consume(w, p, false) == LimitExceeded
  {
  }

  lemma {:induction false} AcceptsStep(cs: seq<Piece>, i: nat)
    requires i < |cs|
    ensures AcceptsFrom(cs, i) <==> AcceptsAt(cs, i) && (i == |cs| - 1 || AcceptsFrom(cs, i + 1))
  {
  }

  lemma {:induction false} StepMatches(cs: seq<Piece>, i: nat, admits: bool, rest: bool)
    requires i < |cs|
    requires admits <==>
      if i == |cs| - 1 then Consume(After(cs, i), cs[i], true).Admit?
      else Consume(After(cs, i), cs[i], false).Continue? && rest
    requires i < |cs| - 1 ==> (rest <==> AcceptsFrom(cs, i + 1))
    ensures admits <==> AcceptsFrom(cs, i)
  {
    AcceptsStep(cs, i);
  }

  /** The bytes at `offset` begin with the first chunk and go on with the rest. */
  lemma {:induction false} FirstOf(k: Checksum, bytes: seq<byte>, offset: nat, cs: seq<Chunk>, i: nat)
    requires FourBytes(k) && AllShaped(cs) && i < |cs| && offset <= |bytes|
    requires AllShaped(cs[i..]) && bytes[offset..] == SerializeAll(k, cs[i..])
    ensures
      var next := offset + 12 + |cs[i].data|;
      && next <= |bytes| && ParseChunk(k, bytes, offset) == Parsed(cs[i], next)
      && AllShaped(cs[i + 1..]) && bytes[next..] == SerializeAll(k, cs[i + 1..])
      && (next == |bytes| <==> i == |cs| - 1)
  {
    SerializeStep(k, cs, i);
    var n := |Serialize(k, cs[i])|;
    SubSlice(bytes, offset, |bytes|, 0, n);
    assert bytes[offset..][..n] == Serialize(k, cs[i]);
    ParseComplete(k, bytes, offset, cs[i]);
    assert bytes[offset..][n..] == bytes[offset + n..];
    if i < |cs| - 1 {
      SerializeStep(k, cs, i + 1);
    } else {
      assert cs[i + 1..] == [];
    }
  }

  lemma {:induction false} WalkOfSerialized(k: Checksum, bytes: seq<byte>, offset: nat, cs: seq<Chunk>, i: nat)
    requires FourBytes(k) && AllShaped(cs) && i < |cs| && offset <= |bytes|
    requires AllShaped(cs[i..]) && bytes[offset..] == SerializeAll(k, cs[i..])
    ensures Admits(k, bytes, offset, After(Pieces(cs), i)) <==> AcceptsFrom(Pieces(cs), i)
    decreases |cs| - i
  {
    var ps := Pieces(cs);
    var next := offset + 12 + |cs[i].data|;
    FirstOf(k, bytes, offset, cs, i);
    WalkStep(k, bytes, offset, After(ps, i), cs[i], next);
    if i < |cs| - 1 {
      WalkOfSerialized(k, bytes, next, cs, i + 1);
      assert After(ps, i + 1) == Next(After(ps, i), ps[i]);
    }
    StepMatches(ps, i, Admits(k, bytes, offset, After(ps, i)), Admits(k, bytes, next, Next(After(ps, i), ps[i])));
  }

  /** Admitted bytes are a serialized chunk list. */
  lemma {:induction false} WalkParses(k: Checksum, bytes: seq<byte>, offset: nat, w: Walk) returns (cs: seq<Chunk>)
    requires FourBytes(k) && offset <= |bytes| && WalkFrom(k, bytes, offset, w).Admit?
    ensures AllShaped(cs) && bytes[offset..] == SerializeAll(k, cs)
    decreases |bytes| - offset
  {
    var p := ParseChunk(k, bytes, offset);
    ParseSound(k, bytes, offset);
    WalkStep(k, bytes, offset, w, p.chunk, p.next);
    var rest: seq<Chunk> := [];
    if p.next < |bytes| {
      rest := WalkParses(k, bytes, p.next, Next(w, Recognize(p.chunk)));
    }
    cs := [p.chunk] + rest;
    Prepend(k, bytes, offset, p.chunk, p.next, rest);
  }

  lemma {:induction false} Prepend(k: Checksum, bytes: seq<byte>, offset: nat, c: Chunk, next: nat, rest: seq<Chunk>)
    requires FourBytes(k) && Shaped(c) && AllShaped(rest) && offset <= next <= |bytes|
    requires bytes[offset..next] == Serialize(k, c) && bytes[next..] == SerializeAll(k, rest)
    ensures AllShaped([c] + rest) && bytes[offset..] == SerializeAll(k, [c] + rest)
  {
    assert ([c] + rest)[1..] == rest;
    assert bytes[offset..] == bytes[offset..next] + bytes[next..];
  }

  ghost predicate IsContainer(k: Checksum, bytes: seq<byte>, cs: seq<Chunk>)
    requires FourBytes(k)
  {
    AllShaped(cs) && bytes == SIGNATURE + SerializeAll(k, cs) && ListOk(Pieces(cs))
  }

  /** A byte string is admitted exactly when it is the serialization of a good chunk list. */
  lemma {:induction false} AdmittedIffContainer(k: Checksum, bytes: seq<byte>)
    requires FourBytes(k)
    ensures Admission(k, bytes).Admit? <==>
            |bytes| <= MAX_SOURCE_BYTES && exists cs :: IsContainer(k, bytes, cs)
  {
    if Admission(k, bytes).Admit? {
      var cs := WalkParses(k, bytes, 8, START);
      assert bytes == bytes[..8] + bytes[8..];
      assert cs[0..] == cs;
      WalkOfSerialized(k, bytes, 8, cs, 0);
      AcceptedListOk(Pieces(cs));
      assert IsContainer(k, bytes, cs);
    }
    if |bytes| <= MAX_SOURCE_BYTES && exists cs :: IsContainer(k, bytes, cs) {
      var cs :| IsContainer(k, bytes, cs);
      assert bytes[..8] == SIGNATURE && bytes[8..] == SerializeAll(k, cs);
      assert cs[0..] == cs;
      OkListAccepted(Pieces(cs));
      WalkOfSerialized(k, bytes, 8, cs, 0);
    }
  }

  /** The chunk list of a byte string is unique. */
  lemma {:induction false} SerializationUnique(k: Checksum, cs: seq<Chunk>, ds: seq<Chunk>)
    requires FourBytes(k) && AllShaped(cs) && AllShaped(ds) && SerializeAll(k, cs) == SerializeAll(k, ds)
    ensures cs == ds
    decreases |cs|
  {
    if cs != [] && ds != [] {
      var bytes := SerializeAll(k, cs);
      assert cs[0..] == cs && ds[0..] == ds;
      SerializeStep(k, cs, 0);
      SerializeStep(k, ds, 0);
      var m, n := |Serialize(k, cs[0])|, |Serialize(k, ds[0])|;
      assert bytes[0..m] == Serialize(k, cs[0]) && bytes[0..n] == Serialize(k, ds[0]);
      ParseComplete(k, bytes, 0, cs[0]);
      ParseComplete(k, bytes, 0, ds[0]);
      assert bytes[m..] == SerializeAll(k, cs[1..]) && bytes[n..] == SerializeAll(k, ds[1..]);
      SerializationUnique(k, cs[1..], ds[1..]);
      assert cs == [cs[0]] + cs[1..] && ds == [ds[0]] + ds[1..];
    }
  }

  // ----- Damage to a chunk -----

  /** The chunk starting at `offset` with `body` replaced, checksum and length untouched. */
  lemma {:induction false} DamagedChunkUnread(k: Checksum, bytes: seq<byte>, offset: nat, n: nat, body: seq<byte>, crc: seq<byte>)
    requires |crc| == 4 && n < 0x1_0000_0000 && offset + 12 + n <= |bytes| && |body| == 4 + n
    requires bytes[offset..offset + 12 + n] == ToBe(n) + body + crc && k(body) != crc
    ensures ParseChunk(k, bytes, offset) == NoChunk
  {
    assert body == body[..4] + body[4..];
    FieldsOf(bytes, offset, ToBe(n), body[..4], body[4..], crc);
    FromToBe(n);
  }

  lemma {:induction false} DamagedChunkRefused(k: Checksum, bytes: seq<byte>, offset: nat, c: Chunk, body: seq<byte>, w: Walk)
    requires FourBytes(k) && Shaped(c) && offset + 12 + |c.data| <= |bytes| && |body| == |Body(c)|
    requires bytes[offset..offset + 12 + |c.data|] == ToBe(|c.data|) + body + k(Body(c))
    requires k(body) != k(Body(c))
    ensures !WalkFrom(k, bytes, offset, w).Admit?
  {
    DamagedChunkUnread(k, bytes, offset, |c.data|, body, k(Body(c)));
  }

  ghost predicate NeverAdmits(k: Checksum, bytes: seq<byte>, offset: nat) {
    forall w :: !Admits(k, bytes, offset, w)
  }

  lemma {:induction false} CommonPrefix(k: Checksum, bytes: seq<byte>, offset: nat, end: nat, pre: seq<Chunk>)
    requires FourBytes(k) && AllShaped(pre) && offset <= end < |bytes|
    requires bytes[offset..end] == SerializeAll(k, pre) && NeverAdmits(k, bytes, end)
    ensures NeverAdmits(k, bytes, offset)
    decreases |pre|
  {
    if pre == [] {
      assert offset == end;
    } else {
      var next := offset + 12 + |pre[0].data|;
      PrefixFirst(k, bytes, offset, end, pre);
      CommonPrefix(k, bytes, next, end, pre[1..]);
      NeverStep(k, bytes, offset, pre[0], next);
    }
  }

  lemma {:induction false} PrefixFirst(k: Checksum, bytes: seq<byte>, offset: nat, end: nat, pre: seq<Chunk>)
    requires FourBytes(k) && AllShaped(pre) && pre != [] && offset <= end <= |bytes|
    requires bytes[offset..end] == SerializeAll(k, pre)
    ensures
      var next := offset + 12 + |pre[0].data|;
      && next <= end && ParseChunk(k, bytes, offset) == Parsed(pre[0], next)
      && AllShaped(pre[1..]) && bytes[next..end] == SerializeAll(k, pre[1..])
  {
    assert pre[0..] == pre;
    SerializeStep(k, pre, 0);
    var first, rest := Serialize(k, pre[0]), SerializeAll(k, pre[1..]);
    var n := |first|;
    SubSlice(bytes, offset, end, 0, n);
    SubSlice(bytes, offset, end, n, end - offset);
    assert (first + rest)[0..n] == first && (first + rest)[n..] == rest;
    ParseComplete(k, bytes, offset, pre[0]);
  }

  lemma {:induction false} NeverStep(k: Checksum, bytes: seq<byte>, offset: nat, c: Chunk, next: nat)
    requires offset < next < |bytes| && ParseChunk(k, bytes, offset) == Parsed(c, next)
    requires NeverAdmits(k, bytes, next)
    ensures NeverAdmits(k, bytes, offset)
  {
    forall w ensures !Admits(k, bytes, offset, w) {
      WalkStep(k, bytes, offset, w, c, next);
      assert !Admits(k, bytes, next, Next(w, Recognize(c)));
    }
  }

  /**
    Any change confined to four consecutive bytes of one chunk's type and data
    makes an otherwise arbitrary container inadmissible.
   */
  lemma {:induction false} BurstRejected(pre: seq<Chunk>, c: Chunk, post: seq<byte>, body: seq<byte>, at: nat)
    requires AllShaped(pre) && Shaped(c) && |body| == |Body(c)| && body != Body(c) && at + 4 <= |body|
    requires forall i | 0 <= i < |body| && !(at <= i < at + 4) :: body[i] == Body(c)[i]
    ensures
      var damaged := SIGNATURE + SerializeAll(CrcBytes, pre) + (ToBe(|c.data|) + body + CrcBytes(Body(c))) + post;
      !Admission(CrcBytes, damaged).Admit?
  {
    BurstChangesCrc(body, Body(c), at);
    DamageRefused(CrcBytes, pre, c, post, body);
  }

  lemma {:induction false} DamageRefused(k: Checksum, pre: seq<Chunk>, c: Chunk, post: seq<byte>, body: seq<byte>)
    requires FourBytes(k) && AllShaped(pre) && Shaped(c) && |body| == |Body(c)| && k(body) != k(Body(c))
    ensures !Admission(k, SIGNATURE + SerializeAll(k, pre) + (ToBe(|c.data|) + body + k(Body(c))) + post).Admit?
  {
    var head, piece := SerializeAll(k, pre), ToBe(|c.data|) + body + k(Body(c));
    var bytes := SIGNATURE + head + piece + post;
    var offset := 8 + |head|;
    assert bytes[8..offset] == head;
    assert bytes[offset..offset + 12 + |c.data|] == piece;
    forall x: Walk ensures !Admits(k, bytes, offset, x) {
      DamagedChunkRefused(k, bytes, offset, c, body, x);
    }
    CommonPrefix(k, bytes, 8, offset, pre);
    assert !Admits(k, bytes, 8, START);
  }

  lemma {:induction false} SerializeSplit(k: Checksum, cs: seq<Chunk>, i: nat)
    requires FourBytes(k) && AllShaped(cs) && i <= |cs|
    ensures AllShaped(cs[..i]) && AllShaped(cs[i..])
    ensures SerializeAll(k, cs) == SerializeAll(k, cs[..i]) + SerializeAll(k, cs[i..])
  {
    if i == 0 {
      assert cs[0..] == cs && cs[..0] == [];
    } else {
      SerializeSplit(k, cs[1..], i - 1);
      assert cs[..i][1..] == cs[1..][..i - 1] && cs[1..][i - 1..] == cs[i..];
    }
  }

  /** Where the type and data of chunk `i` lie in the file. */
  ghost function BodyStart(k: Checksum, cs: seq<Chunk>, i: nat): nat
    requires FourBytes(k) && AllShaped(cs) && i < |cs|
  {
    8 + |SerializeAll(k, cs[..i])| + 4
  }

  /** The file around chunk `i`. */
  lemma {:induction false} AroundChunk(k: Checksum, bytes: seq<byte>, cs: seq<Chunk>, i: nat)
    requires FourBytes(k) && IsContainer(k, bytes, cs) && i < |cs|
    ensures AllShaped(cs[..i]) && AllShaped(cs[i + 1..]) && Shaped(cs[i])
    ensures bytes == SIGNATURE + SerializeAll(k, cs[..i])
                     + (ToBe(|cs[i].data|) + Body(cs[i]) + k(Body(cs[i]))) + SerializeAll(k, cs[i + 1..])
  {
    SerializeSplit(k, cs, i);
    SerializeStep(k, cs, i);
  }

  lemma {:induction false} CutOut(a: seq<byte>, b: seq<byte>, c: seq<byte>, whole: seq<byte>, other: seq<byte>)
    requires whole == a + b + c && |other| == |whole|
    requires forall i | 0 <= i < |whole| && !(|a| <= i < |a| + |b|) :: other[i] == whole[i]
    ensures other == a + other[|a|..|a| + |b|] + c
  {
  }

  /** In an admitted file, damage to four consecutive bytes of one chunk's type and data is caught. */
  lemma {:induction false} DamagedFileRejected(bytes: seq<byte>, cs: seq<Chunk>, i: nat, damaged: seq<byte>, at: nat)
    requires IsContainer(CrcBytes, bytes, cs) && i < |cs|
    requires at + 4 <= 4 + |cs[i].data| && |damaged| == |bytes| && damaged != bytes
    requires
      var p := BodyStart(CrcBytes, cs, i) + at;
      forall j | 0 <= j < |bytes| && !(p <= j < p + 4) :: damaged[j] == bytes[j]
    ensures !Admission(CrcBytes, damaged).Admit?
  {
    AroundChunk(CrcBytes, bytes, cs, i);
    var was := Body(cs[i]);
    var body := DamagedBody(
      SIGNATURE, SerializeAll(CrcBytes, cs[..i]), ToBe(|cs[i].data|), was, CrcBytes(was),
      SerializeAll(CrcBytes, cs[i + 1..]), bytes, damaged, at);
    BurstRejected(cs[..i], cs[i], SerializeAll(CrcBytes, cs[i + 1..]), body, at);
  }

  lemma {:induction false} DamagedBody(
    sig: seq<byte>, head: seq<byte>, length: seq<byte>, was: seq<byte>, crc: seq<byte>, post: seq<byte>,
    bytes: seq<byte>, damaged: seq<byte>, at: nat)
    returns (body: seq<byte>)
    requires bytes == sig + head + (length + was + crc) + post && at + 4 <= |was|
    requires |damaged| == |bytes| && damaged != bytes
    requires
      var p := |sig| + |head| + |length| + at;
      forall j | 0 <= j < |bytes| && !(p <= j < p + 4) :: damaged[j] == bytes[j]
    ensures |body| == |was| && body != was
    ensures damaged == sig + head + (length + body + crc) + post
    ensures forall j | 0 <= j < |body| && !(at <= j < at + 4) :: body[j] == was[j]
  {
    var before, after := sig + head + length, crc + post;
    Regroup(sig, head, length, was, crc, post);
    body := damaged[|before|..|before| + |was|];
    CutOut(before, was, after, bytes, damaged);
    Regroup(sig, head, length, body, crc, post);
    MiddleOf(before, was, after);
    forall j | 0 <= j < |body| && !(at <= j < at + 4) ensures body[j] == was[j] {
      assert damaged[|before| + j] == bytes[|before| + j];
    }
  }

  lemma {:induction false} Regroup(
    sig: seq<byte>, head: seq<byte>, length: seq<byte>, body: seq<byte>, crc: seq<byte>, post: seq<byte>)
    ensures sig + head + (length + body + crc) + post == sig + head + length + body + (crc + post)
  {
  }

  lemma {:induction false} MiddleOf(a: seq<byte>, b: seq<byte>, c: seq<byte>)
    ensures (a + b + c)[|a|..|a| + |b|] == b
  {
  }
}
