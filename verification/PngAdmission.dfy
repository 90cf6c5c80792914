/** Bytes as numbers and as bit vectors. */
module ByteBits {
  lemma NumberRoundTrip(b: int)
    requires 0 <= b < 256
    ensures (b as bv8) as int == b
  {
  }

  lemma BitsRoundTrip(x: bv8)
    ensures (x as int) as bv8 == x
  {
  }
}

/** The four stored checksum bytes of a chunk, as a function of its type and data. */
module PngChecksum {
  import C = Crc32
  import ByteBits

  type byte = n: nat | n < 256

  function Bits(b: byte): C.byte { b as bv8 }

  function Unbits(b: C.byte): byte { b as nat }

  lemma BitsRoundTrip(b: byte)
    ensures Unbits(Bits(b)) == b
  {
    ByteBits.NumberRoundTrip(b);
  }

  lemma UnbitsRoundTrip(b: C.byte)
    ensures Bits(Unbits(b)) == b
  {
    ByteBits.BitsRoundTrip(b);
  }

  function AllBits(bytes: seq<byte>): (r: seq<C.byte>)
    ensures |r| == |bytes|
  {
    seq(|bytes|, i requires 0 <= i < |bytes| => Bits(bytes[i]))
  }

  function Join(b0: C.byte, b1: C.byte, b2: C.byte, b3: C.byte): bv32 {
    ((b0 as bv32) << 24) | ((b1 as bv32) << 16) | ((b2 as bv32) << 8) | (b3 as bv32)
  }

  function Split(w: bv32, k: nat): C.byte
    requires k < 4
  {
    match k
    case 0 => (w >> 24) as bv8
    case 1 => ((w >> 16) & 0xff) as bv8
    case 2 => ((w >> 8) & 0xff) as bv8
    case 3 => (w & 0xff) as bv8
  }

  lemma JoinSplit(w: bv32)
    ensures Join(Split(w, 0), Split(w, 1), Split(w, 2), Split(w, 3)) == w
  {
  }

  lemma SplitJoin(b0: C.byte, b1: C.byte, b2: C.byte, b3: C.byte)
    ensures Split(Join(b0, b1, b2, b3), 0) == b0 && Split(Join(b0, b1, b2, b3), 1) == b1
    ensures Split(Join(b0, b1, b2, b3), 2) == b2 && Split(Join(b0, b1, b2, b3), 3) == b3
  {
  }

  /** The stored checksum: a register value in big-endian order. */
  function CrcFromBe(b: seq<byte>): bv32
    requires |b| == 4
  {
    Join(Bits(b[0]), Bits(b[1]), Bits(b[2]), Bits(b[3]))
  }

  function CrcToBe(w: bv32): (b: seq<byte>)
    ensures |b| == 4
  {
    [Unbits(Split(w, 0)), Unbits(Split(w, 1)), Unbits(Split(w, 2)), Unbits(Split(w, 3))]
  }

  lemma CrcFromTo(w: bv32)
    ensures CrcFromBe(CrcToBe(w)) == w
  {
    UnbitsRoundTrip(Split(w, 0));
    UnbitsRoundTrip(Split(w, 1));
    UnbitsRoundTrip(Split(w, 2));
    UnbitsRoundTrip(Split(w, 3));
    JoinSplit(w);
  }

  lemma CrcToFrom(b: seq<byte>)
    requires |b| == 4
    ensures CrcToBe(CrcFromBe(b)) == b
  {
    SplitJoin(Bits(b[0]), Bits(b[1]), Bits(b[2]), Bits(b[3]));
    BitsRoundTrip(b[0]);
    BitsRoundTrip(b[1]);
    BitsRoundTrip(b[2]);
    BitsRoundTrip(b[3]);
  }

  function Crc(bytes: seq<byte>): bv32 { C.Checksum(AllBits(bytes)) }

  /** What the four bytes after a chunk must be. */
  function CrcBytes(body: seq<byte>): (stored: seq<byte>)
    ensures |stored| == 4
  {
    CrcToBe(Crc(body))
  }

  /** Comparing the register with the stored number is comparing the bytes. */
  lemma StoredCrc(body: seq<byte>, stored: seq<byte>)
    requires |stored| == 4
    ensures Crc(body) == CrcFromBe(stored) <==> stored == CrcBytes(body)
  {
    CrcToFrom(stored);
    CrcFromTo(Crc(body));
  }

  /** The comparison as the code makes it, over the computed register. */
  method CheckCrc(body: seq<byte>, stored: seq<byte>) returns (ok: bool)
    requires |stored| == 4
    ensures ok <==> stored == CrcBytes(body)
  {
    var crc := C.Compute(AllBits(body));
    ok := crc == CrcFromBe(stored);
    StoredCrc(body, stored);
  }

  lemma AllBitsInjective(a: seq<byte>, b: seq<byte>)
    requires AllBits(a) == AllBits(b)
    ensures a == b
  {
    forall i | 0 <= i < |a| ensures a[i] == b[i] {
      assert AllBits(a)[i] == AllBits(b)[i];
      BitsRoundTrip(a[i]);
      BitsRoundTrip(b[i]);
    }
  }

  lemma CrcBytesInjective(a: seq<byte>, b: seq<byte>)
    requires CrcBytes(a) == CrcBytes(b)
    ensures Crc(a) == Crc(b)
  {
    CrcFromTo(Crc(a));
    CrcFromTo(Crc(b));
  }

  /** Changes confined to four consecutive bytes change the stored checksum. */
  lemma BurstChangesCrc(a: seq<byte>, b: seq<byte>, k: nat)
    requires |a| == |b| && k + 4 <= |a| && a != b
    requires forall i | 0 <= i < |a| && !(k <= i < k + 4) :: a[i] == b[i]
    ensures CrcBytes(a) != CrcBytes(b)
  {
    if CrcBytes(a) == CrcBytes(b) {
      CrcBytesInjective(a, b);
      if AllBits(a) == AllBits(b) {
        AllBitsInjective(a, b);
      } else {
        C.BurstDetected(AllBits(a), AllBits(b), k);
      }
    }
  }
}

/**
  Admission of a PNG map source: a length-driven walk over the chunks, and the
  chunk lists it admits (sections 5.3 and 5.6 of the PNG Specification, Third
  Edition).
 */
module PngAdmission {
  import opened PngChecksum

  /** The stored checksum as a function of a chunk's type and data. */
  type Checksum = seq<byte> -> seq<byte>

  const MAX_SOURCE_BYTES: nat := 32 * 1024 * 1024
  const MAX_DIMENSION: nat := 32768
  const MAX_PIXELS: nat := 100_000_000
  const MAX_CHUNKS: nat := 4096
  const MAX_METADATA_BYTES: nat := 4096

  datatype Option<T> = None | Some(value: T)

  // ----- Bytes and big-endian words -----

  function FromBe(b: seq<byte>): (n: nat)
    requires |b| == 4
    ensures n < 0x1_0000_0000
  {
    var b0: nat, b1: nat, b2: nat, b3: nat := b[0], b[1], b[2], b[3];
    ((b0 * 256 + b1) * 256 + b2) * 256 + b3
  }

  function ToBe(n: nat): (b: seq<byte>)
    requires n < 0x1_0000_0000
    ensures |b| == 4
  {
    var q0 := n / 256;
    var q1 := q0 / 256;
    [q1 / 256, q1 % 256, q0 % 256, n % 256]
  }

  lemma FromToBe(n: nat)
    requires n < 0x1_0000_0000
    ensures FromBe(ToBe(n)) == n
  {
  }

  lemma LastDigit(x: nat, a: byte, y: nat, b: byte)
    requires x * 256 + a as nat == y * 256 + b as nat
    ensures x == y && a == b
  {
  }

  lemma FromBeInjective(a: seq<byte>, b: seq<byte>)
    requires |a| == |b| == 4 && FromBe(a) == FromBe(b)
    ensures a == b
  {
    var a0: nat, a1: nat, a2: nat := a[0], a[1], a[2];
    var b0: nat, b1: nat, b2: nat := b[0], b[1], b[2];
    LastDigit((a0 * 256 + a1) * 256 + a2, a[3], (b0 * 256 + b1) * 256 + b2, b[3]);
    LastDigit(a0 * 256 + a1, a[2], b0 * 256 + b1, b[2]);
    LastDigit(a0, a[1], b0, b[1]);
  }

  // ----- Chunks -----

  datatype Kind = Ihdr | Plte | Trns | Idat | Iend | Srgb | Gama | Phys | Unsupported

  /** The four type letters as one big-endian number. */
  function KindOf(code: seq<byte>): Kind {
    if |code| != 4 then Unsupported
    else match FromBe(code)
      case 0x49484452 => Ihdr
      case 0x504C5445 => Plte
      case 0x74524E53 => Trns
      case 0x49444154 => Idat
      case 0x49454E44 => Iend
      case 0x73524742 => Srgb
      case 0x67414D41 => Gama
      case 0x70485973 => Phys
      case _ => Unsupported
  }

  ghost predicate FourBytes(k: Checksum) { forall body :: |k(body)| == 4 }

  datatype Chunk = Chunk(code: seq<byte>, data: seq<byte>)

  /** A chunk whose type letters have been recognized. */
  datatype Piece = Piece(kind: Kind, data: seq<byte>)

  function Recognize(c: Chunk): Piece { Piece(KindOf(c.code), c.data) }

  predicate Alphabetic(b: byte) { 65 <= b <= 90 || 97 <= b <= 122 }

  predicate CodeOk(code: seq<byte>) {
    && |code| == 4
    && (forall i | 0 <= i < 4 :: Alphabetic(code[i]))
    && code[2] <= 90
  }

  predicate Shaped(c: Chunk) { CodeOk(c.code) && |c.data| < 0x1_0000_0000 }

  function Body(c: Chunk): seq<byte> { c.code + c.data }

  /** Length, type, data and checksum. */
  function Serialize(k: Checksum, c: Chunk): (r: seq<byte>)
    requires Shaped(c) && FourBytes(k)
    ensures |r| == 12 + |c.data|
  {
    ToBe(|c.data|) + Body(c) + k(Body(c))
  }

  function SerializeAll(k: Checksum, cs: seq<Chunk>): seq<byte>
    requires FourBytes(k) && forall c | c in cs :: Shaped(c)
  {
    if cs == [] then [] else Serialize(k, cs[0]) + SerializeAll(k, cs[1..])
  }

  datatype Parsed = NoChunk | Parsed(chunk: Chunk, next: nat)

  /** The chunk at `offset` whose data ends at `dataEnd`, if its checksum follows. */
  function CheckedChunk(k: Checksum, bytes: seq<byte>, offset: nat, dataEnd: nat): (r: Parsed)
    requires offset + 8 <= dataEnd && dataEnd + 4 <= |bytes|
  {
    if bytes[dataEnd..dataEnd + 4] != k(bytes[offset + 4..dataEnd]) then NoChunk
    else Parsed(Chunk(bytes[offset + 4..offset + 8], bytes[offset + 8..dataEnd]), dataEnd + 4)
  }

  function ParseChunk(k: Checksum, bytes: seq<byte>, offset: nat): (r: Parsed)
    requires offset <= |bytes|
    ensures r.Parsed? ==> offset + 12 <= r.next <= |bytes|
  {
    if offset + 8 > |bytes| then NoChunk
    else
      var length := FromBe(bytes[offset..offset + 4]);
      var code := bytes[offset + 4..offset + 8];
      if !CodeOk(code) then NoChunk
      else if offset + 8 + length + 4 > |bytes| then NoChunk
      else CheckedChunk(k, bytes, offset, offset + 8 + length)
  }

  lemma ParseSound(k: Checksum, bytes: seq<byte>, offset: nat)
    requires FourBytes(k) && offset <= |bytes| && ParseChunk(k, bytes, offset).Parsed?
    ensures
      var p := ParseChunk(k, bytes, offset);
      Shaped(p.chunk) && bytes[offset..p.next] == Serialize(k, p.chunk)
  {
    var p := ParseChunk(k, bytes, offset);
    var dataEnd := p.next - 4;
    var lengthBytes, crcBytes := bytes[offset..offset + 4], bytes[dataEnd..p.next];
    assert Body(p.chunk) == bytes[offset + 4..dataEnd];
    FromToBe(|p.chunk.data|);
    FromBeInjective(lengthBytes, ToBe(|p.chunk.data|));
    assert bytes[offset..p.next] == lengthBytes + bytes[offset + 4..dataEnd] + crcBytes;
  }

  /** The five fields of a serialized chunk, by position. */
  lemma Fields(k: Checksum, bytes: seq<byte>, offset: nat, c: Chunk)
    requires FourBytes(k) && Shaped(c) && offset + |Serialize(k, c)| <= |bytes|
    requires bytes[offset..offset + |Serialize(k, c)|] == Serialize(k, c)
    ensures
      var dataEnd := offset + 8 + |c.data|;
      && bytes[offset..offset + 4] == ToBe(|c.data|)
      && bytes[offset + 4..offset + 8] == c.code
      && bytes[offset + 8..dataEnd] == c.data
      && bytes[offset + 4..dataEnd] == Body(c)
      && bytes[dataEnd..dataEnd + 4] == k(Body(c))
  {
    var n := |c.data|;
    var dataEnd := offset + 8 + n;
    var l, code, data, crc := ToBe(n), c.code, c.data, k(Body(c));
    FieldsOf(bytes, offset, l, code, data, crc);
  }

  lemma FieldsOf(bytes: seq<byte>, offset: nat, l: seq<byte>, code: seq<byte>, data: seq<byte>, crc: seq<byte>)
    requires |l| == |code| == |crc| == 4 && offset + 12 + |data| <= |bytes|
    requires bytes[offset..offset + 12 + |data|] == l + (code + data) + crc
    ensures
      var dataEnd := offset + 8 + |data|;
      && bytes[offset..offset + 4] == l && bytes[offset + 4..offset + 8] == code
      && bytes[offset + 8..dataEnd] == data && bytes[offset + 4..dataEnd] == code + data
      && bytes[dataEnd..dataEnd + 4] == crc
  {
    var s := l + (code + data) + crc;
    var n := |data|;
    SubSlice(bytes, offset, offset + 12 + n, 0, 4);
    SubSlice(bytes, offset, offset + 12 + n, 4, 8);
    SubSlice(bytes, offset, offset + 12 + n, 8, 8 + n);
    SubSlice(bytes, offset, offset + 12 + n, 4, 8 + n);
    SubSlice(bytes, offset, offset + 12 + n, 8 + n, 12 + n);
  }

  lemma SubSlice(bytes: seq<byte>, a: nat, b: nat, i: nat, j: nat)
    requires a <= b <= |bytes| && i <= j <= b - a
    ensures bytes[a..b][i..j] == bytes[a + i..a + j]
  {
    var x, y := bytes[a..b][i..j], bytes[a + i..a + j];
    forall k | 0 <= k < j - i ensures x[k] == y[k] {
      assert x[k] == bytes[a..b][i + k] == bytes[a + i + k];
    }
    assert x == y;
  }

  lemma ParseComplete(k: Checksum, bytes: seq<byte>, offset: nat, c: Chunk)
    requires FourBytes(k) && Shaped(c) && offset + |Serialize(k, c)| <= |bytes|
    requires bytes[offset..offset + |Serialize(k, c)|] == Serialize(k, c)
    ensures ParseChunk(k, bytes, offset) == Parsed(c, offset + |Serialize(k, c)|)
  {
    Fields(k, bytes, offset, c);
    FromToBe(|c.data|);
  }

  // ----- The walk -----

  datatype Header = Header(width: nat, height: nat, depth: nat, color: nat)

  datatype Walk = Walk(
    chunks: nat, header: Option<Header>, sawPalette: bool, paletteEntries: nat, sawTransparency: bool,
    sawIdat: bool, endedIdat: bool, metadataBytes: nat, sawSrgb: bool, sawGamma: bool, sawPhys: bool)

  const START: Walk := Walk(0, None, false, 0, false, false, false, 0, false, false, false)

  datatype Verdict = Continue(walk: Walk) | Admit(width: nat, height: nat) | Invalid | LimitExceeded

  predicate DepthFits(color: nat, depth: nat) {
    match color
    case 0 => depth in {1, 2, 4, 8, 16}
    case 2 => depth in {8, 16}
    case 3 => depth in {1, 2, 4, 8}
    case 4 => depth in {8, 16}
    case 6 => depth in {8, 16}
    case _ => false
  }

  predicate ValidateIhdr(data: seq<byte>)
    requires |data| == 13
  {
    DepthFits(data[9], data[8]) && data[10] == 0 && data[11] == 0 && data[12] <= 1
  }

  function Entries(depth: nat): nat {
    match depth
    case 1 => 2
    case 2 => 4
    case 4 => 16
    case _ => 256
  }

  function ReadHeader(data: seq<byte>): Verdict
    requires |data| == 13
  {
    var width, height := FromBe(data[0..4]), FromBe(data[4..8]);
    if width == 0 || height == 0 then Invalid
    else if width > MAX_DIMENSION || height > MAX_DIMENSION then LimitExceeded
    else if width * height > MAX_PIXELS then LimitExceeded
    else if !ValidateIhdr(data) then Invalid
    else Continue(START.(header := Some(Header(width, height, data[8], data[9]))))
  }

  predicate PaletteFits(w: Walk, length: nat) {
    && w.header.Some? && w.header.value.color in {2, 3, 6}
    && !w.sawPalette && !w.sawTransparency && !w.sawIdat
    && 0 < length <= 768 && length % 3 == 0
    && (w.header.value.color == 3 ==> length / 3 <= Entries(w.header.value.depth))
  }

  predicate TransparencyFits(w: Walk, length: nat) {
    && w.header.Some? && !w.sawIdat && !w.sawTransparency
    && match w.header.value.color
       case 0 => length == 2
       case 2 => length == 6
       case 3 => w.sawPalette && 0 < length <= w.paletteEntries
       case _ => false
  }

  predicate IsMetadata(kind: Kind) { kind != Ihdr && kind != Idat && kind != Iend }

  function Counted(w: Walk, p: Piece): Walk {
    w.(chunks := w.chunks + 1,
       metadataBytes := if IsMetadata(p.kind) then w.metadataBytes + |p.data| else w.metadataBytes)
  }

  /** Anything after the first image data chunk that is not image data ends the image data. */
  function Settle(v: Verdict, kind: Kind): Verdict {
    if v.Continue? && v.walk.sawIdat && kind != Idat then Continue(v.walk.(endedIdat := true)) else v
  }

  /** What one chunk does to the walk; `atEnd` says that it is the last of the file. */
  function Consume(w: Walk, p: Piece, atEnd: bool): Verdict {
    if w.chunks + 1 > MAX_CHUNKS then LimitExceeded
    else if IsMetadata(p.kind) && Counted(w, p).metadataBytes > MAX_METADATA_BYTES then LimitExceeded
    else Settle(ConsumeKind(Counted(w, p), p, atEnd), p.kind)
  }

  function ConsumeKind(w: Walk, p: Piece, atEnd: bool): Verdict {
    var length := |p.data|;
    match p.kind
    case Ihdr =>
      if w.chunks != 1 || length != 13 || w.header.Some? then Invalid
      else
        var v := ReadHeader(p.data);
        if v.Continue? then Continue(w.(header := v.walk.header)) else v
    case Plte => if PaletteFits(w, length) then Continue(w.(sawPalette := true, paletteEntries := length / 3)) else Invalid
    case Trns => if TransparencyFits(w, length) then Continue(w.(sawTransparency := true)) else Invalid
    case Idat => if w.header.None? || w.endedIdat || length == 0 then Invalid else Continue(w.(sawIdat := true))
    case Iend =>
      if length != 0 || !w.sawIdat || w.header.None? || !atEnd then Invalid
      else if w.header.value.color == 3 && !w.sawPalette then Invalid
      else Admit(w.header.value.width, w.header.value.height)
    case Srgb =>
      if w.header.Some? && !w.sawIdat && !w.sawPalette && !w.sawSrgb && length == 1 && p.data[0] <= 3
      then Continue(w.(sawSrgb := true)) else Invalid
    case Gama =>
      if w.header.Some? && !w.sawIdat && !w.sawPalette && !w.sawGamma && length == 4 && FromBe(p.data) != 0
      then Continue(w.(sawGamma := true)) else Invalid
    case Phys =>
      if w.header.Some? && !w.sawIdat && !w.sawPhys && length == 9 && p.data[8] <= 1
      then Continue(w.(sawPhys := true)) else Invalid
    case Unsupported => Invalid
  }

  function WalkFrom(k: Checksum, bytes: seq<byte>, offset: nat, w: Walk): Verdict
    requires offset <= |bytes|
    decreases |bytes| - offset
  {
    if offset == |bytes| then Invalid
    else if w.chunks + 1 > MAX_CHUNKS then LimitExceeded
    else match ParseChunk(k, bytes, offset)
      case NoChunk => Invalid
      case Parsed(c, next) =>
        var v := Consume(w, Recognize(c), next == |bytes|);
        if v.Continue? then WalkFrom(k, bytes, next, v.walk) else v
  }

  const SIGNATURE: seq<byte> := [137, 80, 78, 71, 13, 10, 26, 10]

  function Admission(k: Checksum, bytes: seq<byte>): Verdict {
    if |bytes| > MAX_SOURCE_BYTES then LimitExceeded
    else if !(|bytes| >= 8 && bytes[..8] == SIGNATURE) then Invalid
    else WalkFrom(k, bytes, 8, START)
  }

  // ----- The imperative walk -----

  /**
    `allowance` is the number of chunks the caller's budget pays for; running out
    stops the walk early.
   */
  method AdmitMapAsset(bytes: seq<byte>, allowance: nat) returns (r: Verdict)
    ensures r == Admission(CrcBytes, bytes) || (r == LimitExceeded && allowance < MAX_CHUNKS)
  {
    if |bytes| > MAX_SOURCE_BYTES { return LimitExceeded; }
    if !(|bytes| >= 8 && bytes[..8] == SIGNATURE) { return Invalid; }
    var offset := 8;
    var w := START;
    while offset < |bytes|
      invariant 8 <= offset <= |bytes|
      invariant Admission(CrcBytes, bytes) == WalkFrom(CrcBytes, bytes, offset, w)
      decreases |bytes| - offset
    {
      if w.chunks + 1 > MAX_CHUNKS { return LimitExceeded; }
      if w.chunks + 1 > allowance { return LimitExceeded; }
      var p := ReadChunk(bytes, offset);
      if p.NoChunk? { return Invalid; }
      var v := CountAndVisit(w, Recognize(p.chunk), p.next == |bytes|);
      if !v.Continue? { return v; }
      w, offset := v.walk, p.next;
    }
    return Invalid;
  }

  /** Where the data of the chunk at `offset` ends, if its length and type are in order. */
  function DataEnd(bytes: seq<byte>, offset: nat): Option<nat>
    requires offset <= |bytes|
  {
    if offset + 8 > |bytes| then None
    else
      var dataEnd := offset + 8 + FromBe(bytes[offset..offset + 4]);
      if !CodeOk(bytes[offset + 4..offset + 8]) || dataEnd + 4 > |bytes| then None else Some(dataEnd)
  }

  lemma ParseByEnd(k: Checksum, bytes: seq<byte>, offset: nat)
    requires offset <= |bytes|
    ensures
      var end := DataEnd(bytes, offset);
      ParseChunk(k, bytes, offset) == if end.None? then NoChunk else CheckedChunk(k, bytes, offset, end.value)
  {
  }

  /** Length, type and checksum of the chunk at `offset`. */
  method ReadChunk(bytes: seq<byte>, offset: nat) returns (p: Parsed)
    requires offset <= |bytes|
    ensures p == ParseChunk(CrcBytes, bytes, offset)
  {
    ParseByEnd(CrcBytes, bytes, offset);
    var end := DataEnd(bytes, offset);
    if end.None? { return NoChunk; }
    p := ReadChecked(bytes, offset, end.value);
  }

  method ReadChecked(bytes: seq<byte>, offset: nat, dataEnd: nat) returns (p: Parsed)
    requires offset + 8 <= dataEnd && dataEnd + 4 <= |bytes|
    ensures p == CheckedChunk(CrcBytes, bytes, offset, dataEnd)
  {
    var crcOk := CheckCrc(bytes[offset + 4..dataEnd], bytes[dataEnd..dataEnd + 4]);
    if !crcOk { return NoChunk; }
    return Parsed(Chunk(bytes[offset + 4..offset + 8], bytes[offset + 8..dataEnd]), dataEnd + 4);
  }

  method CountAndVisit(w0: Walk, p: Piece, atEnd: bool) returns (v: Verdict)
    requires w0.chunks + 1 <= MAX_CHUNKS
    ensures v == Consume(w0, p, atEnd)
  {
    var w := Counted(w0, p);
    if IsMetadata(p.kind) && w.metadataBytes > MAX_METADATA_BYTES { return LimitExceeded; }
    v := VisitChunk(w, p, atEnd);
    v := Settle(v, p.kind);
  }

  method VisitHeader(data: seq<byte>) returns (v: Verdict)
    requires |data| == 13
    ensures v == ReadHeader(data)
  {
    var width, height := FromBe(data[0..4]), FromBe(data[4..8]);
    if width == 0 || height == 0 { return Invalid; }
    if width > MAX_DIMENSION || height > MAX_DIMENSION { return LimitExceeded; }
    if width * height > MAX_PIXELS { return LimitExceeded; }
    if !ValidateIhdr(data) { return Invalid; }
    return Continue(START.(header := Some(Header(width, height, data[8], data[9]))));
  }

  /** The chunk dispatch of the walk, flag by flag; the chunk has already been counted. */
  method VisitChunk(w0: Walk, p: Piece, atEnd: bool) returns (v: Verdict)
    ensures v == ConsumeKind(w0, p, atEnd)
  {
    var w := w0;
    var length, data := |p.data|, p.data;
    match p.kind {
      case Ihdr =>
        if w.chunks != 1 || length != 13 || w.header.Some? { return Invalid; }
        v := VisitHeader(data);
        if !v.Continue? { return; }
        w := w.(header := v.walk.header);
      case Plte =>
        if !PaletteFits(w, length) { return Invalid; }
        w := w.(sawPalette := true, paletteEntries := length / 3);
      case Trns =>
        if !TransparencyFits(w, length) { return Invalid; }
        w := w.(sawTransparency := true);
      case Idat =>
        if w.header.None? || w.endedIdat || length == 0 { return Invalid; }
        w := w.(sawIdat := true);
      case Iend =>
        if length != 0 || !w.sawIdat || w.header.None? || !atEnd { return Invalid; }
        if w.header.value.color == 3 && !w.sawPalette { return Invalid; }
        return Admit(w.header.value.width, w.header.value.height);
      case Srgb =>
        if !(w.header.Some? && !w.sawIdat && !w.sawPalette && !w.sawSrgb && length == 1 && data[0] <= 3) { return Invalid; }
        w := w.(sawSrgb := true);
      case Gama =>
        if !(w.header.Some? && !w.sawIdat && !w.sawPalette && !w.sawGamma && length == 4 && FromBe(data) != 0) { return Invalid; }
        w := w.(sawGamma := true);
      case Phys =>
        if !(w.header.Some? && !w.sawIdat && !w.sawPhys && length == 9 && data[8] <= 1) { return Invalid; }
        w := w.(sawPhys := true);
      case Unsupported => return Invalid;
    }
    return Continue(w);
  }
}
