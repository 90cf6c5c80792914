/**
  Feedback registers over an abstract word: a one-bit step `f` and an addition
  `x`.  Kept abstract so that the algebra never meets bit-vector arithmetic.
 */
module FeedbackRegister {

  function Iterate<W>(f: W -> W, c: W, n: nat): W
    decreases n
  {
    if n == 0 then c else Iterate(f, f(c), n - 1)
  }

  /** Every word fed is added to the register and followed by eight steps. */
  function Feed<W>(f: W -> W, x: (W, W) -> W, c: W, words: seq<W>): W
    decreases |words|
  {
    if words == [] then c
    else Iterate(f, x(Feed(f, x, c, words[..|words| - 1]), words[|words| - 1]), 8)
  }

  ghost predicate Linear<W(!new)>(f: W -> W, x: (W, W) -> W) {
    forall a, b {:trigger f(x(a, b))} :: f(x(a, b)) == x(f(a), f(b))
  }

  ghost predicate Injective<W(!new)>(f: W -> W) {
    forall a, b {:trigger f(a), f(b)} :: f(a) == f(b) ==> a == b
  }

  ghost predicate Cancels<W(!new)>(x: (W, W) -> W) {
    forall a, b, c {:trigger x(a, c), x(b, c)} :: x(a, c) == x(b, c) ==> a == b
  }

  lemma {:induction false} IterateLinear<W(!new)>(f: W -> W, x: (W, W) -> W, a: W, b: W, n: nat)
    requires Linear(f, x)
    ensures Iterate(f, x(a, b), n) == x(Iterate(f, a, n), Iterate(f, b, n))
    decreases n
  {
    if n > 0 {
      assert f(x(a, b)) == x(f(a), f(b));
      IterateLinear(f, x, f(a), f(b), n - 1);
    }
  }

  lemma {:induction false} IterateInjective<W(!new)>(f: W -> W, a: W, b: W, n: nat)
    requires Injective(f) && Iterate(f, a, n) == Iterate(f, b, n)
    ensures a == b
    decreases n
  {
    if n > 0 {
      IterateInjective(f, f(a), f(b), n - 1);
    }
  }

  lemma {:induction false} IterateAdd<W>(f: W -> W, c: W, m: nat, n: nat)
    ensures Iterate(f, Iterate(f, c, m), n) == Iterate(f, c, m + n)
    decreases m
  {
    if m > 0 {
      IterateAdd(f, f(c), m - 1, n);
    }
  }

  lemma {:induction false} FeedAppend<W>(f: W -> W, x: (W, W) -> W, c: W, a: seq<W>, b: seq<W>)
    ensures Feed(f, x, c, a + b) == Feed(f, x, Feed(f, x, c, a), b)
    decreases |b|
  {
    if b == [] {
      assert a + b == a;
    } else {
      assert (a + b)[..|a + b| - 1] == a + b[..|b| - 1];
      FeedAppend(f, x, c, a, b[..|b| - 1]);
    }
  }

  lemma {:induction false} FeedInjective<W(!new)>(f: W -> W, x: (W, W) -> W, c: W, d: W, words: seq<W>)
    requires Injective(f) && Cancels(x) && Feed(f, x, c, words) == Feed(f, x, d, words)
    ensures c == d
    decreases |words|
  {
    if words != [] {
      var front, last := words[..|words| - 1], words[|words| - 1];
      IterateInjective(f, x(Feed(f, x, c, front), last), x(Feed(f, x, d, front), last), 8);
      FeedInjective(f, x, c, d, front);
    }
  }

  /** Adding `b` after `n` steps is adding, before them, the word `y` that becomes `b`. */
  lemma {:induction false} Defer<W(!new)>(f: W -> W, x: (W, W) -> W, c: W, y: W, b: W, n: nat)
    requires Linear(f, x) && Iterate(f, y, n) == b
    ensures Iterate(f, x(Iterate(f, c, n), b), 8) == Iterate(f, x(c, y), n + 8)
  {
    IterateLinear(f, x, c, y, n);
    IterateAdd(f, x(c, y), n, 8);
  }

  lemma {:induction false} FourWords<W(!new)>(f: W -> W, x: (W, W) -> W, c: W, w: seq<W>, y1: W, y2: W, y3: W)
    requires Linear(f, x) && |w| == 4
    requires Iterate(f, y1, 8) == w[1] && Iterate(f, y2, 16) == w[2] && Iterate(f, y3, 24) == w[3]
    ensures Feed(f, x, c, w) == Iterate(f, x(x(x(x(c, w[0]), y1), y2), y3), 32)
  {
    assert w[..3][..2] == w[..2] && w[..2][..1] == w[..1] && w[..1][..0] == [];
    var c0 := x(c, w[0]);
    assert Feed(f, x, c, w[..1]) == Iterate(f, c0, 8);
    Defer(f, x, c0, y1, w[1], 8);
    assert Feed(f, x, c, w[..2]) == Iterate(f, x(c0, y1), 16);
    Defer(f, x, x(c0, y1), y2, w[2], 16);
    assert Feed(f, x, c, w[..3]) == Iterate(f, x(x(c0, y1), y2), 24);
    Defer(f, x, x(x(c0, y1), y2), y3, w[3], 24);
  }

  lemma {:induction false} EightSteps<W>(f: W -> W, c0: W, c1: W, c2: W, c3: W, c4: W, c5: W, c6: W, c7: W, c8: W)
    requires f(c0) == c1 && f(c1) == c2 && f(c2) == c3 && f(c3) == c4
    requires f(c4) == c5 && f(c5) == c6 && f(c6) == c7 && f(c7) == c8
    ensures Iterate(f, c0, 8) == c8
  {
    assert Iterate(f, c0, 4) == c4 && Iterate(f, c4, 4) == c8 by {
      assert Iterate(f, c0, 2) == c2 && Iterate(f, c2, 2) == c4 && Iterate(f, c4, 2) == c6 && Iterate(f, c6, 2) == c8;
      IterateAdd(f, c0, 2, 2);
      IterateAdd(f, c4, 2, 2);
    }
    IterateAdd(f, c0, 4, 4);
  }

  /** Two four-word bursts that leave the register equal after a common tail entered it as equal words. */
  lemma {:induction false} SameBurst<W(!new)>(
    f: W -> W, x: (W, W) -> W, c: W, v: seq<W>, w: seq<W>, tail: seq<W>, a: W, b: W)
    requires Injective(f) && Cancels(x)
    requires Feed(f, x, c, v) == Iterate(f, a, 32) && Feed(f, x, c, w) == Iterate(f, b, 32)
    requires Feed(f, x, Feed(f, x, c, v), tail) == Feed(f, x, Feed(f, x, c, w), tail)
    ensures a == b
  {
    FeedInjective(f, x, Feed(f, x, c, v), Feed(f, x, c, w), tail);
    IterateInjective(f, a, b, 32);
  }
}

/**
  The bitwise CRC-32 that protects every PNG chunk (section 5.5 of the PNG
  Specification, Third Edition), and the burst errors it is certain to catch.
 */
module Crc32 {
  import opened FeedbackRegister

  type byte = bv8

  const POLYNOMIAL: bv32 := 0xedb8_8320

  /** One bit of the shift register. */
  function Step(c: bv32): bv32 {
    if c & 1 == 1 then (c >> 1) ^ POLYNOMIAL else c >> 1
  }

  /** The branch-free form the code uses: the polynomial masked by the negated low bit. */
  lemma MaskedStep(c: bv32)
    ensures (c >> 1) ^ (POLYNOMIAL & (0 - (c & 1))) == Step(c)
  {
    LowBit(c);
    if c & 1 == 1 {
      MaskOdd(c >> 1, c & 1);
    } else {
      MaskEven(c >> 1, c & 1);
    }
  }

  lemma MaskOdd(s: bv32, low: bv32)
    requires low == 1
    ensures s ^ (POLYNOMIAL & (0 - low)) == s ^ POLYNOMIAL
  {
  }

  lemma MaskEven(s: bv32, low: bv32)
    requires low == 0
    ensures s ^ (POLYNOMIAL & (0 - low)) == s
  {
  }

  function Xor(a: bv32, b: bv32): bv32 { a ^ b }

  function Wide(b: byte): bv32 { b as bv32 }

  function Widen(bytes: seq<byte>): (words: seq<bv32>)
    ensures |words| == |bytes|
  {
    seq(|bytes|, i requires 0 <= i < |bytes| => Wide(bytes[i]))
  }

  function Register(c: bv32, bytes: seq<byte>): bv32 {
    Feed(Step, Xor, c, Widen(bytes))
  }

  function Checksum(bytes: seq<byte>): bv32 {
    !Register(0xffff_ffff, bytes)
  }

  lemma {:induction false} WidenFront(bytes: seq<byte>)
    requires bytes != []
    ensures Widen(bytes)[..|bytes| - 1] == Widen(bytes[..|bytes| - 1])
  {
  }

  method ShiftByte(c: bv32) returns (crc: bv32)
    ensures crc == Iterate(Step, c, 8)
  {
    crc := c;
    for k := 0 to 8
      invariant Iterate(Step, crc, 8 - k) == Iterate(Step, c, 8)
    {
      MaskedStep(crc);
      crc := (crc >> 1) ^ (POLYNOMIAL & (0 - (crc & 1)));
    }
  }

  method Compute(bytes: seq<byte>) returns (crc: bv32)
    ensures crc == Checksum(bytes)
  {
    crc := 0xffff_ffff;
    for i := 0 to |bytes|
      invariant crc == Register(0xffff_ffff, bytes[..i])
    {
      crc := Xor(crc, Wide(bytes[i]));
      crc := ShiftByte(crc);
      WidenFront(bytes[..i + 1]);
      assert bytes[..i + 1][..i] == bytes[..i];
    }
    assert bytes[..|bytes|] == bytes;
    crc := !crc;
  }

  // ----- The step is linear and reversible -----

  lemma LinearOddOdd(a: bv32, b: bv32)
    requires a & 1 == 1 && b & 1 == 1
    ensures Step(a ^ b) == Step(a) ^ Step(b)
  {
  }

  lemma LinearOddEven(a: bv32, b: bv32)
    requires a & 1 == 1 && b & 1 == 0
    ensures Step(a ^ b) == Step(a) ^ Step(b)
  {
  }

  lemma LinearEvenOdd(a: bv32, b: bv32)
    requires a & 1 == 0 && b & 1 == 1
    ensures Step(a ^ b) == Step(a) ^ Step(b)
  {
  }

  lemma LinearEvenEven(a: bv32, b: bv32)
    requires a & 1 == 0 && b & 1 == 0
    ensures Step(a ^ b) == Step(a) ^ Step(b)
  {
  }

  lemma LowBit(a: bv32)
    ensures a & 1 == 0 || a & 1 == 1
  {
  }

  lemma StepLinear(a: bv32, b: bv32)
    ensures Step(Xor(a, b)) == Xor(Step(a), Step(b))
  {
    LowBit(a);
    LowBit(b);
    if a & 1 == 1 {
      if b & 1 == 1 { LinearOddOdd(a, b); } else { LinearOddEven(a, b); }
    } else {
      if b & 1 == 1 { LinearEvenOdd(a, b); } else { LinearEvenEven(a, b); }
    }
  }

  lemma StepInjective(a: bv32, b: bv32)
    requires Step(a) == Step(b)
    ensures a == b
  {
  }

  lemma StepIsLinear()
    ensures Linear(Step, Xor)
  {
    forall a, b ensures Step(Xor(a, b)) == Xor(Step(a), Step(b)) { StepLinear(a, b); }
  }

  lemma StepIsInjective()
    ensures Injective(Step)
  {
    forall a, b ensures Step(a) == Step(b) ==> a == b {
      if Step(a) == Step(b) { StepInjective(a, b); }
    }
  }

  lemma XorCancels()
    ensures Cancels(Xor)
  {
    forall a, b, c ensures Xor(a, c) == Xor(b, c) ==> a == b {
      XorCancel(a, b, c);
    }
  }

  lemma XorCancel(a: bv32, b: bv32, c: bv32)
    ensures a ^ c == b ^ c ==> a == b
  {
  }

  lemma ShiftStep0(x: bv32)
    requires x & 0xff == 0
    ensures Step(x) == x >> 1
  {
  }

  lemma ShiftStep1(x: bv32)
    requires x & 0xff == 0
    ensures Step(x >> 1) == x >> 2
  {
  }

  lemma ShiftStep2(x: bv32)
    requires x & 0xff == 0
    ensures Step(x >> 2) == x >> 3
  {
  }

  lemma ShiftStep3(x: bv32)
    requires x & 0xff == 0
    ensures Step(x >> 3) == x >> 4
  {
  }

  lemma ShiftStep4(x: bv32)
    requires x & 0xff == 0
    ensures Step(x >> 4) == x >> 5
  {
  }

  lemma ShiftStep5(x: bv32)
    requires x & 0xff == 0
    ensures Step(x >> 5) == x >> 6
  {
  }

  lemma ShiftStep6(x: bv32)
    requires x & 0xff == 0
    ensures Step(x >> 6) == x >> 7
  {
  }

  lemma ShiftStep7(x: bv32)
    requires x & 0xff == 0
    ensures Step(x >> 7) == x >> 8
  {
  }

  /** Eight steps move a word whose low byte is clear down by one byte. */
  lemma ShiftsDown(x: bv32)
    requires x & 0xff == 0
    ensures Iterate(Step, x, 8) == x >> 8
  {
    ShiftStep0(x);
    ShiftStep1(x);
    ShiftStep2(x);
    ShiftStep3(x);
    ShiftStep4(x);
    ShiftStep5(x);
    ShiftStep6(x);
    ShiftStep7(x);
    EightSteps(Step, x, x >> 1, x >> 2, x >> 3, x >> 4, x >> 5, x >> 6, x >> 7, x >> 8);
  }

  /** A byte placed one, two or three bytes up. */
  function Up1(b: byte): bv32 { (b as bv32) << 8 }

  function Up2(b: byte): bv32 { (b as bv32) << 16 }

  function Up3(b: byte): bv32 { (b as bv32) << 24 }

  lemma Down1(b: byte)
    ensures Up1(b) & 0xff == 0 && Up1(b) >> 8 == Wide(b)
  {
  }

  lemma Down2(b: byte)
    ensures Up2(b) & 0xff == 0 && Up2(b) >> 8 == Up1(b)
  {
  }

  lemma Down3(b: byte)
    ensures Up3(b) & 0xff == 0 && Up3(b) >> 8 == Up2(b)
  {
  }

  /** It arrives at the bottom after as many times eight steps. */
  lemma {:induction false} Arrives1(b: byte)
    ensures Iterate(Step, Up1(b), 8) == Wide(b)
  {
    Down1(b);
    ShiftsDown(Up1(b));
  }

  lemma {:induction false} Arrives2(b: byte)
    ensures Iterate(Step, Up2(b), 16) == Wide(b)
  {
    Down2(b);
    ShiftsDown(Up2(b));
    Arrives1(b);
    IterateAdd(Step, Up2(b), 8, 8);
  }

  lemma {:induction false} Arrives3(b: byte)
    ensures Iterate(Step, Up3(b), 24) == Wide(b)
  {
    Down3(b);
    ShiftsDown(Up3(b));
    Arrives2(b);
    IterateAdd(Step, Up3(b), 8, 16);
  }

  function Word4(c: bv32, b0: byte, b1: byte, b2: byte, b3: byte): bv32 {
    c ^ (b0 as bv32) ^ ((b1 as bv32) << 8) ^ ((b2 as bv32) << 16) ^ ((b3 as bv32) << 24)
  }

  function Word(c: bv32, w: seq<byte>): bv32
    requires |w| == 4
  {
    Word4(c, w[0], w[1], w[2], w[3])
  }

  /** Four bytes pass through the register as one 32-bit word. */
  lemma FourBytes(c: bv32, w: seq<byte>)
    requires |w| == 4
    ensures Register(c, w) == Iterate(Step, Word(c, w), 32)
  {
    StepIsLinear();
    Arrives1(w[1]);
    Arrives2(w[2]);
    Arrives3(w[3]);
    var words := Widen(w);
    FourWords(Step, Xor, c, words, Up1(w[1]), Up2(w[2]), Up3(w[3]));
  }

  lemma WordBits(c: bv32, v0: byte, v1: byte, v2: byte, v3: byte, w0: byte, w1: byte, w2: byte, w3: byte)
    requires Word4(c, v0, v1, v2, v3) == Word4(c, w0, w1, w2, w3)
    ensures v0 == w0 && v1 == w1 && v2 == w2 && v3 == w3
  {
  }

  lemma FourEqual(v: seq<byte>, w: seq<byte>)
    requires |v| == |w| == 4 && v[0] == w[0] && v[1] == w[1] && v[2] == w[2] && v[3] == w[3]
    ensures v == w
  {
  }

  lemma WordInjective(c: bv32, v: seq<byte>, w: seq<byte>)
    requires |v| == |w| == 4 && Word(c, v) == Word(c, w)
    ensures v == w
  {
    WordBits(c, v[0], v[1], v[2], v[3], w[0], w[1], w[2], w[3]);
    FourEqual(v, w);
  }

  lemma RegisterAppend(c: bv32, a: seq<byte>, b: seq<byte>)
    ensures Register(c, a + b) == Register(Register(c, a), b)
  {
    assert Widen(a + b) == Widen(a) + Widen(b);
    FeedAppend(Step, Xor, c, Widen(a), Widen(b));
  }

  lemma NotCancel(x: bv32, y: bv32)
    requires !x == !y
    ensures x == y
  {
  }

  lemma ChecksumSplit(head: seq<byte>, v: seq<byte>, tail: seq<byte>)
    ensures Checksum(head + v + tail) == !Register(Register(Register(0xffff_ffff, head), v), tail)
  {
    RegisterAppend(0xffff_ffff, head + v, tail);
    RegisterAppend(0xffff_ffff, head, v);
  }

  lemma BurstWords(c: bv32, v: seq<byte>, w: seq<byte>, tail: seq<byte>)
    requires |v| == |w| == 4 && Register(Register(c, v), tail) == Register(Register(c, w), tail)
    ensures Word(c, v) == Word(c, w)
  {
    FourBytes(c, v);
    FourBytes(c, w);
    StepIsInjective();
    XorCancels();
    SameBurst(Step, Xor, c, Widen(v), Widen(w), Widen(tail), Word(c, v), Word(c, w));
  }

  lemma SameRegisters(head: seq<byte>, v: seq<byte>, w: seq<byte>, tail: seq<byte>)
    requires Checksum(head + v + tail) == Checksum(head + w + tail)
    ensures Register(Register(Register(0xffff_ffff, head), v), tail) ==
            Register(Register(Register(0xffff_ffff, head), w), tail)
  {
    ChecksumSplit(head, v, tail);
    ChecksumSplit(head, w, tail);
    NotCancel(Register(Register(Register(0xffff_ffff, head), v), tail),
              Register(Register(Register(0xffff_ffff, head), w), tail));
  }

  lemma SameChecksum(head: seq<byte>, v: seq<byte>, w: seq<byte>, tail: seq<byte>)
    requires |v| == |w| == 4 && Checksum(head + v + tail) == Checksum(head + w + tail)
    ensures v == w
  {
    var c := Register(0xffff_ffff, head);
    SameRegisters(head, v, w, tail);
    BurstWords(c, v, w, tail);
    WordInjective(c, v, w);
  }

  /** Changes confined to four consecutive bytes always change the checksum. */
  lemma BurstDetected(a: seq<byte>, b: seq<byte>, k: nat)
    requires |a| == |b| && k + 4 <= |a| && a != b
    requires forall i | 0 <= i < |a| && !(k <= i < k + 4) :: a[i] == b[i]
    ensures Checksum(a) != Checksum(b)
  {
    var head, tail := a[..k], a[k + 4..];
    assert a == head + a[k..k + 4] + tail;
    assert b == head + b[k..k + 4] + tail;
    if Checksum(a) == Checksum(b) {
      SameChecksum(head, a[k..k + 4], b[k..k + 4], tail);
    }
  }
}
