/** What the walk's verdict says about the bytes: the letters of chunk types and the size of an admitted map. */
module PngMeaning {
  import opened PngChecksum
  import opened PngAdmission
  import opened PngContainer

  ghost predicate Spells(code: seq<byte>, word: string) {
    |code| == |word| && forall i | 0 <= i < |word| :: code[i] as int == word[i] as int
  }

  lemma {:induction false} CodeIs(code: seq<byte>, word: string, n: nat)
    requires |word| == 4 && |code| == 4
    requires n == ((word[0] as int * 256 + word[1] as int) * 256 + word[2] as int) * 256 + word[3] as int
    requires forall i | 0 <= i < 4 :: word[i] as int < 256
    ensures FromBe(code) == n <==> Spells(code, word)
  {
    if FromBe(code) == n {
      var letters: seq<byte> := [word[0] as int, word[1] as int, word[2] as int, word[3] as int];
      FromBeInjective(code, letters);
    }
  }

  /** The kinds are the four letters of their type. */
  lemma {:induction false} KindMeans(code: seq<byte>)
    ensures KindOf(code) == Ihdr <==> Spells(code, "IHDR")
    ensures KindOf(code) == Plte <==> Spells(code, "PLTE")
    ensures KindOf(code) == Trns <==> Spells(code, "tRNS")
    ensures KindOf(code) == Idat <==> Spells(code, "IDAT")
    ensures KindOf(code) == Iend <==> Spells(code, "IEND")
    ensures KindOf(code) == Srgb <==> Spells(code, "sRGB")
    ensures KindOf(code) == Gama <==> Spells(code, "gAMA")
    ensures KindOf(code) == Phys <==> Spells(code, "pHYs")
  {
    if |code| == 4 {
      CodeIs(code, "IHDR", 0x49484452);
      CodeIs(code, "PLTE", 0x504C5445);
      CodeIs(code, "tRNS", 0x74524E53);
      CodeIs(code, "IDAT", 0x49444154);
      CodeIs(code, "IEND", 0x49454E44);
      CodeIs(code, "sRGB", 0x73524742);
      CodeIs(code, "gAMA", 0x67414D41);
      CodeIs(code, "pHYs", 0x70485973);
    }
  }

  /** Every type with a meaning passes the check of type letters. */
  lemma {:induction false} KnownIsShaped(code: seq<byte>)
    requires KindOf(code) != Unsupported
    ensures CodeOk(code)
  {
    KindMeans(code);
    SpelledOk(code, "IHDR");
    SpelledOk(code, "PLTE");
    SpelledOk(code, "tRNS");
    SpelledOk(code, "IDAT");
    SpelledOk(code, "IEND");
    SpelledOk(code, "sRGB");
    SpelledOk(code, "gAMA");
    SpelledOk(code, "pHYs");
  }

  lemma {:induction false} SpelledOk(code: seq<byte>, word: string)
    requires |word| == 4 && 'A' <= word[2] <= 'Z'
    requires forall i | 0 <= i < 4 :: 'A' <= word[i] <= 'Z' || 'a' <= word[i] <= 'z'
    ensures Spells(code, word) ==> CodeOk(code)
  {
  }

  ghost predicate SameHeader(w: Walk, v: Verdict) {
    && (v.Continue? ==> v.walk.header == w.header)
    && (v.Admit? ==> w.header.Some? && v.width == w.header.value.width && v.height == w.header.value.height)
  }

  lemma {:induction false} KindKeepsHeader(w: Walk, p: Piece, atEnd: bool)
    requires w.header.Some?
    ensures SameHeader(w, ConsumeKind(w, p, atEnd))
  {
  }

  lemma {:induction false} HeaderStays(w: Walk, p: Piece, atEnd: bool)
    requires w.header.Some?
    ensures SameHeader(w, Consume(w, p, atEnd))
  {
    KindKeepsHeader(Counted(w, p), p, atEnd);
  }

  lemma {:induction false} WalkKeepsHeader(k: Checksum, bytes: seq<byte>, offset: nat, w: Walk)
    requires offset <= |bytes| && w.header.Some? && WalkFrom(k, bytes, offset, w).Admit?
    ensures
      var v := WalkFrom(k, bytes, offset, w);
      v.width == w.header.value.width && v.height == w.header.value.height
    decreases |bytes| - offset
  {
    var c := ParseChunk(k, bytes, offset);
    HeaderStays(w, Recognize(c.chunk), c.next == |bytes|);
    var v := Consume(w, Recognize(c.chunk), c.next == |bytes|);
    if v.Continue? {
      WalkKeepsHeader(k, bytes, c.next, v.walk);
    }
  }

  lemma {:induction false} FirstHeader(p: Piece, atEnd: bool)
    ensures
      var v := Consume(START, p, atEnd);
      && !v.Admit?
      && (v.Continue? ==> HeaderData(p.data) && v.walk.header == Some(Header(Word(p.data, 0), Word(p.data, 4), p.data[8], p.data[9])))
  {
    if |p.data| == 13 {
      HeaderReads(p.data);
    }
  }

  /** The size of an admitted map is the one its header states, in bytes 16 to 24. */
  lemma {:induction false} AdmittedSize(k: Checksum, bytes: seq<byte>)
    requires Admission(k, bytes).Admit?
    ensures |bytes| >= 24
    ensures Admission(k, bytes) == Admit(Word(bytes, 16), Word(bytes, 20))
  {
    var c := ParseChunk(k, bytes, 8);
    var p := Recognize(c.chunk);
    FirstHeader(p, c.next == |bytes|);
    var v := Consume(START, p, c.next == |bytes|);
    WalkKeepsHeader(k, bytes, c.next, v.walk);
    assert c.chunk.data == bytes[16..c.next - 4];
    assert forall i | 0 <= i < 8 :: p.data[i] == bytes[16 + i];
  }
}
