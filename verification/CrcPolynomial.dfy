/** Polynomials over two elements, as the set of exponents with coefficient one. */
module BinaryPolynomial {
  type Poly = set<nat>

  function Plus(p: Poly, q: Poly): Poly { (p - q) + (q - p) }

  /** Multiplication by a power. */
  function Shift(p: Poly, n: nat): Poly { set e | e in p :: e + n }

  lemma PlusAt(p: Poly, q: Poly, e: nat)
    ensures e in Plus(p, q) <==> (e in p) != (e in q)
  {
  }

  lemma ShiftAt(p: Poly, n: nat, e: nat)
    ensures e in Shift(p, n) <==> e >= n && e - n in p
  {
    if e >= n && e - n in p {
      assert e == (e - n) + n;
    }
  }

  lemma PlusSwap(a: Poly, b: Poly, c: Poly, d: Poly)
    ensures Plus(Plus(a, b), Plus(c, d)) == Plus(Plus(a, c), Plus(b, d))
  {
  }

  lemma PlusThrough(a: Poly, b: Poly, c: Poly)
    ensures Plus(Plus(a, b), Plus(b, c)) == Plus(a, c)
  {
  }

  lemma ShiftPlus(p: Poly, q: Poly, n: nat)
    ensures Shift(Plus(p, q), n) == Plus(Shift(p, n), Shift(q, n))
  {
    forall e: nat ensures e in Shift(Plus(p, q), n) <==> e in Plus(Shift(p, n), Shift(q, n)) {
      ShiftAt(Plus(p, q), n, e);
      ShiftAt(p, n, e);
      ShiftAt(q, n, e);
    }
  }

  lemma ShiftShift(p: Poly, m: nat, n: nat)
    ensures Shift(Shift(p, m), n) == Shift(p, m + n)
  {
    forall e: nat ensures e in Shift(Shift(p, m), n) <==> e in Shift(p, m + n) {
      ShiftAt(Shift(p, m), n, e);
      if e >= n {
        ShiftAt(p, m, e - n);
      }
      ShiftAt(p, m + n, e);
    }
  }

  lemma ShiftNone(p: Poly)
    ensures Shift(p, 0) == p
  {
    forall e: nat ensures e in Shift(p, 0) <==> e in p {
      ShiftAt(p, 0, e);
    }
  }

  // ----- Congruence -----

  /** A multiple of `g`: the sum of `g` times these powers. */
  function Multiple(g: Poly, powers: seq<nat>): Poly {
    if powers == [] then {} else Plus(Multiple(g, powers[..|powers| - 1]), Shift(g, powers[|powers| - 1]))
  }

  ghost predicate Congruent(g: Poly, p: Poly, q: Poly) { exists powers :: Plus(p, q) == Multiple(g, powers) }

  lemma {:induction false} MultipleJoin(g: Poly, a: seq<nat>, b: seq<nat>)
    ensures Multiple(g, a + b) == Plus(Multiple(g, a), Multiple(g, b))
  {
    if b == [] {
      assert a + b == a;
    } else {
      MultipleJoin(g, a, b[..|b| - 1]);
      assert (a + b)[..|a + b| - 1] == a + b[..|b| - 1];
    }
  }

  function Raise(powers: seq<nat>, n: nat): (r: seq<nat>)
    ensures |r| == |powers|
  {
    seq(|powers|, i requires 0 <= i < |powers| => powers[i] + n)
  }

  lemma {:induction false} MultipleShift(g: Poly, powers: seq<nat>, n: nat)
    ensures Multiple(g, Raise(powers, n)) == Shift(Multiple(g, powers), n)
  {
    if powers != [] {
      var front, last := powers[..|powers| - 1], powers[|powers| - 1];
      MultipleShift(g, front, n);
      assert Raise(powers, n)[..|powers| - 1] == Raise(front, n);
      ShiftPlus(Multiple(g, front), Shift(g, last), n);
      ShiftShift(g, last, n);
    }
  }

  lemma CongruentSelf(g: Poly, p: Poly)
    ensures Congruent(g, p, p)
  {
    assert Plus(p, p) == Multiple(g, []);
  }

  /** Congruences chain. */
  lemma CongruentChain(g: Poly, p: Poly, q: Poly, r: Poly)
    requires Congruent(g, p, q) && Congruent(g, q, r)
    ensures Congruent(g, p, r)
  {
    var a :| Plus(p, q) == Multiple(g, a);
    var b :| Plus(q, r) == Multiple(g, b);
    MultipleJoin(g, a, b);
    PlusThrough(p, q, r);
    assert Plus(p, r) == Multiple(g, a + b);
  }

  lemma CongruentShift(g: Poly, p: Poly, q: Poly, n: nat)
    requires Congruent(g, p, q)
    ensures Congruent(g, Shift(p, n), Shift(q, n))
  {
    var a :| Plus(p, q) == Multiple(g, a);
    MultipleShift(g, a, n);
    ShiftPlus(p, q, n);
    assert Plus(Shift(p, n), Shift(q, n)) == Multiple(g, Raise(a, n));
  }

  lemma CongruentPlus(g: Poly, p: Poly, q: Poly, r: Poly)
    requires Congruent(g, p, q)
    ensures Congruent(g, Plus(p, r), Plus(q, r))
  {
    var a :| Plus(p, q) == Multiple(g, a);
    assert Plus(Plus(p, r), Plus(q, r)) == Plus(p, q);
    assert Plus(Plus(p, r), Plus(q, r)) == Multiple(g, a);
  }

  /** Taking `g` away once changes nothing. */
  lemma CongruentLess(g: Poly, p: Poly)
    ensures Congruent(g, Plus(p, g), p)
  {
    assert [0][..0] == [];
    ShiftNone(g);
    assert Multiple(g, [0]) == Plus({}, g) == g;
    assert Plus(Plus(p, g), p) == Multiple(g, [0]);
  }

  /** `r` is what remains of `p` after division by a polynomial of degree 32. */
  ghost predicate Remainder(g: Poly, p: Poly, r: Poly) { Congruent(g, p, r) && forall e | e in r :: e < 32 }
}

/**
  Shift registers over an abstract word that can be halved, tested for its low bit
  and added to; abstract so that the algebra never meets bit-vector arithmetic.
 */
module RegisterPolynomial {
  import opened FeedbackRegister
  import opened BinaryPolynomial

  datatype Words<!W> = Words(half: W -> W, odd: W -> bool, plus: (W, W) -> W, step: W -> W, feedback: W)

  /** Bit `i`, counted from the low end. */
  predicate Bit<W>(o: Words<W>, c: W, i: nat) { if i == 0 then o.odd(c) else Bit(o, o.half(c), i - 1) }

  ghost predicate AddsBits<W(!new)>(o: Words<W>) {
    forall a, b {:trigger o.plus(a, b)} ::
      o.half(o.plus(a, b)) == o.plus(o.half(a), o.half(b)) && (o.odd(o.plus(a, b)) <==> o.odd(a) != o.odd(b))
  }

  ghost predicate StepsDown<W(!new)>(o: Words<W>) {
    forall c {:trigger o.step(c)} :: o.step(c) == if o.odd(c) then o.plus(o.half(c), o.feedback) else o.half(c)
  }

  ghost predicate Narrow<W(!new)>(o: Words<W>) { forall c :: !Bit(o, c, 32) }

  /** The exponents below 32 of the CRC-32 generator. */
  const LOW: Poly := {26, 23, 22, 16, 12, 11, 10, 8, 7, 5, 4, 2, 1, 0}

  /** The CRC-32 generator. */
  const GENERATOR: Poly := {32, 26, 23, 22, 16, 12, 11, 10, 8, 7, 5, 4, 2, 1, 0}

  ghost predicate FeedsBack<W>(o: Words<W>) { forall i: nat | i < 32 :: Bit(o, o.feedback, i) <==> 31 - i in LOW }

  ghost predicate Lawful<W(!new)>(o: Words<W>) { AddsBits(o) && StepsDown(o) && Narrow(o) && FeedsBack(o) }

  /** The register as a polynomial: its low bit is the highest coefficient. */
  ghost function Reg<W>(o: Words<W>, c: W): Poly { set e: nat | e < 32 && Power(o, c, e) }

  predicate Power<W>(o: Words<W>, c: W, e: nat) { e < 32 && Bit(o, c, 31 - e) }

  lemma {:induction false} PlusBit<W(!new)>(o: Words<W>, a: W, b: W, i: nat)
    requires AddsBits(o)
    ensures Bit(o, o.plus(a, b), i) <==> Bit(o, a, i) != Bit(o, b, i)
    decreases i
  {
    if i > 0 {
      PlusBit(o, o.half(a), o.half(b), i - 1);
      assert o.half(o.plus(a, b)) == o.plus(o.half(a), o.half(b));
    }
  }

  lemma {:induction false} RegPlus<W(!new)>(o: Words<W>, a: W, b: W)
    requires AddsBits(o)
    ensures Reg(o, o.plus(a, b)) == Plus(Reg(o, a), Reg(o, b))
  {
    forall e: nat ensures e in Reg(o, o.plus(a, b)) <==> (e in Reg(o, a)) != (e in Reg(o, b)) {
      if e < 32 {
        PlusBit(o, a, b, 31 - e);
      }
    }
  }

  lemma {:induction false} StepBit<W(!new)>(o: Words<W>, c: W, i: nat)
    requires AddsBits(o) && StepsDown(o)
    ensures Bit(o, o.step(c), i) <==> Bit(o, c, i + 1) != (o.odd(c) && Bit(o, o.feedback, i))
  {
    PlusBit(o, o.half(c), o.feedback, i);
    assert o.step(c) == if o.odd(c) then o.plus(o.half(c), o.feedback) else o.half(c);
  }

  lemma {:induction false} StepPower<W(!new)>(o: Words<W>, c: W, e: nat)
    requires Lawful(o) && e < 32
    ensures Power(o, o.step(c), e) <==> (e > 0 && Power(o, c, e - 1)) != (o.odd(c) && e in LOW)
  {
    StepBit(o, c, 31 - e);
    assert Bit(o, o.feedback, 31 - e) <==> e in LOW;
    if e == 0 {
      assert !Bit(o, c, 32);
    }
  }

  lemma {:induction false} GeneratorIs(e: nat)
    ensures e in GENERATOR <==> e in LOW || e == 32
    ensures e in LOW ==> e < 32
  {
  }

  lemma {:induction false} StepAt<W(!new)>(o: Words<W>, c: W, e: nat)
    requires Lawful(o)
    ensures e in Reg(o, o.step(c)) <==> (e in Shift(Reg(o, c), 1)) != (o.odd(c) && e in GENERATOR)
  {
    GeneratorIs(e);
    ShiftAt(Reg(o, c), 1, e);
    if e < 32 {
      StepPower(o, c, e);
    } else {
      assert Power(o, c, 31) <==> o.odd(c);
    }
  }

  /** One step multiplies by the variable and, if that reaches degree 32, takes the generator away. */
  lemma {:induction false} RegStep<W(!new)>(o: Words<W>, c: W)
    requires Lawful(o)
    ensures Reg(o, o.step(c)) == if o.odd(c) then Plus(Shift(Reg(o, c), 1), GENERATOR) else Shift(Reg(o, c), 1)
  {
    var p, q := Reg(o, o.step(c)), Shift(Reg(o, c), 1);
    forall e: nat ensures e in p <==> (e in q) != (o.odd(c) && e in GENERATOR) {
      StepAt(o, c, e);
    }
  }

  lemma {:induction false} StepCongruent<W(!new)>(o: Words<W>, c: W)
    requires Lawful(o)
    ensures Congruent(GENERATOR, Reg(o, o.step(c)), Shift(Reg(o, c), 1))
  {
    RegStep(o, c);
    CongruentLess(GENERATOR, Shift(Reg(o, c), 1));
    CongruentSelf(GENERATOR, Shift(Reg(o, c), 1));
  }

  lemma {:induction false} IterateCongruent<W(!new)>(o: Words<W>, c: W, n: nat)
    requires Lawful(o)
    ensures Congruent(GENERATOR, Reg(o, Iterate(o.step, c, n)), Shift(Reg(o, c), n))
    decreases n
  {
    if n == 0 {
      ShiftNone(Reg(o, c));
      CongruentSelf(GENERATOR, Reg(o, c));
    } else {
      IterateCongruent(o, o.step(c), n - 1);
      StepCongruent(o, c);
      CongruentShift(GENERATOR, Reg(o, o.step(c)), Shift(Reg(o, c), 1), n - 1);
      ShiftShift(Reg(o, c), 1, n - 1);
      CongruentChain(GENERATOR, Reg(o, Iterate(o.step, c, n)), Shift(Reg(o, o.step(c)), n - 1), Shift(Reg(o, c), n));
    }
  }

  /** What words fed one after the other add up to. */
  ghost function Fed<W>(o: Words<W>, c: W, words: seq<W>): Poly
    decreases |words|
  {
    if words == [] then Reg(o, c)
    else Shift(Plus(Fed(o, c, words[..|words| - 1]), Reg(o, words[|words| - 1])), 8)
  }

  lemma {:induction false} FeedCongruent<W(!new)>(o: Words<W>, c: W, words: seq<W>)
    requires Lawful(o)
    ensures Congruent(GENERATOR, Reg(o, Feed(o.step, o.plus, c, words)), Fed(o, c, words))
    decreases |words|
  {
    if words == [] {
      CongruentSelf(GENERATOR, Reg(o, c));
    } else {
      var front, last := words[..|words| - 1], words[|words| - 1];
      var before := Feed(o.step, o.plus, c, front);
      FeedCongruent(o, c, front);
      CongruentPlus(GENERATOR, Reg(o, before), Fed(o, c, front), Reg(o, last));
      RegPlus(o, before, last);
      var mixed := o.plus(before, last);
      CongruentShift(GENERATOR, Reg(o, mixed), Plus(Fed(o, c, front), Reg(o, last)), 8);
      IterateCongruent(o, mixed, 8);
      CongruentChain(GENERATOR, Reg(o, Iterate(o.step, mixed, 8)), Shift(Reg(o, mixed), 8), Fed(o, c, words));
    }
  }

  // ----- The bits of a word whose halves are known -----

  ghost predicate Halves<W>(o: Words<W>, cs: seq<W>) { forall k | 0 <= k < |cs| - 1 :: o.half(cs[k]) == cs[k + 1] }

  lemma {:induction false} BitAlong<W>(o: Words<W>, cs: seq<W>, k: nat, i: nat)
    requires k < |cs| && Halves(o, cs)
    ensures Bit(o, cs[0], k + i) == Bit(o, cs[k], i)
    decreases k
  {
    if k > 0 {
      BitAlong(o, cs, k - 1, i + 1);
      assert o.half(cs[k - 1]) == cs[k];
    }
  }

  /** The low eight bits of a word, and where the others come from. */
  lemma {:induction false} EightBits<W>(o: Words<W>, c0: W, c1: W, c2: W, c3: W, c4: W, c5: W, c6: W, c7: W, c8: W, j: nat)
    requires o.half(c0) == c1 && o.half(c1) == c2 && o.half(c2) == c3 && o.half(c3) == c4
    requires o.half(c4) == c5 && o.half(c5) == c6 && o.half(c6) == c7 && o.half(c7) == c8
    ensures Bit(o, c0, 0) == o.odd(c0) && Bit(o, c0, 1) == o.odd(c1) && Bit(o, c0, 2) == o.odd(c2) && Bit(o, c0, 3) == o.odd(c3)
    ensures Bit(o, c0, 4) == o.odd(c4) && Bit(o, c0, 5) == o.odd(c5) && Bit(o, c0, 6) == o.odd(c6) && Bit(o, c0, 7) == o.odd(c7)
    ensures Bit(o, c0, j + 8) == Bit(o, c8, j)
  {
    var cs := [c0, c1, c2, c3, c4, c5, c6, c7, c8];
    forall k: nat | k < 9 ensures Bit(o, c0, k) == o.odd(cs[k]) {
      BitAlong(o, cs, k, 0);
    }
    BitAlong(o, cs, 8, j);
  }
}

/** The checksum as the remainder of a division. */
module CrcPolynomial {
  import C = Crc32
  import opened BinaryPolynomial
  import R = RegisterPolynomial

  function Half(c: bv32): bv32 { c >> 1 }

  predicate Odd(c: bv32) { c & 1 == 1 }

  const WORDS: R.Words<bv32> := R.Words(Half, Odd, C.Xor, C.Step, C.POLYNOMIAL)

  lemma HalfXor(a: bv32, b: bv32)
    ensures Half(C.Xor(a, b)) == C.Xor(Half(a), Half(b))
  {
  }

  lemma OddXor(a: bv32, b: bv32)
    ensures Odd(C.Xor(a, b)) <==> Odd(a) != Odd(b)
  {
  }

  lemma HalvesAdd()
    ensures forall a, b {:trigger WORDS.plus(a, b)} :: WORDS.half(WORDS.plus(a, b)) == WORDS.plus(WORDS.half(a), WORDS.half(b))
  {
    forall a, b ensures Half(C.Xor(a, b)) == C.Xor(Half(a), Half(b)) {
      HalfXor(a, b);
    }
  }

  lemma OddsAdd()
    ensures forall a, b {:trigger WORDS.plus(a, b)} :: WORDS.odd(WORDS.plus(a, b)) <==> WORDS.odd(a) != WORDS.odd(b)
  {
    forall a, b ensures Odd(C.Xor(a, b)) <==> Odd(a) != Odd(b) {
      OddXor(a, b);
    }
  }

  lemma AddsBits()
    ensures R.AddsBits(WORDS)
  {
    HalvesAdd();
    OddsAdd();
  }

  lemma StepHalves(c: bv32)
    ensures C.Step(c) == if Odd(c) then C.Xor(Half(c), C.POLYNOMIAL) else Half(c)
  {
  }

  lemma StepsDown()
    ensures R.StepsDown(WORDS)
  {
    forall c ensures C.Step(c) == if Odd(c) then C.Xor(Half(c), C.POLYNOMIAL) else Half(c) {
      StepHalves(c);
    }
  }

  lemma Polynomial0(j: nat)
    ensures !R.Bit(WORDS, 0xedb88320, 0) && !R.Bit(WORDS, 0xedb88320, 1) && !R.Bit(WORDS, 0xedb88320, 2) && !R.Bit(WORDS, 0xedb88320, 3)
    ensures !R.Bit(WORDS, 0xedb88320, 4) && R.Bit(WORDS, 0xedb88320, 5) && !R.Bit(WORDS, 0xedb88320, 6) && !R.Bit(WORDS, 0xedb88320, 7)
    ensures R.Bit(WORDS, 0xedb88320, j + 8) == R.Bit(WORDS, 0xedb883, j)
  {
    assert Half(0xedb88320) == 0x76dc4190;
    assert Half(0x76dc4190) == 0x3b6e20c8;
    assert Half(0x3b6e20c8) == 0x1db71064;
    assert Half(0x1db71064) == 0xedb8832;
    assert Half(0xedb8832) == 0x76dc419;
    assert Half(0x76dc419) == 0x3b6e20c;
    assert Half(0x3b6e20c) == 0x1db7106;
    assert Half(0x1db7106) == 0xedb883;
    assert !Odd(0xedb88320) && !Odd(0x76dc4190) && !Odd(0x3b6e20c8) && !Odd(0x1db71064) && !Odd(0xedb8832) && Odd(0x76dc419) && !Odd(0x3b6e20c) && !Odd(0x1db7106);
    R.EightBits(WORDS, 0xedb88320, 0x76dc4190, 0x3b6e20c8, 0x1db71064, 0xedb8832, 0x76dc419, 0x3b6e20c, 0x1db7106, 0xedb883, j);
  }

  lemma Polynomial8(j: nat)
    ensures R.Bit(WORDS, 0xedb883, 0) && R.Bit(WORDS, 0xedb883, 1) && !R.Bit(WORDS, 0xedb883, 2) && !R.Bit(WORDS, 0xedb883, 3)
    ensures !R.Bit(WORDS, 0xedb883, 4) && !R.Bit(WORDS, 0xedb883, 5) && !R.Bit(WORDS, 0xedb883, 6) && R.Bit(WORDS, 0xedb883, 7)
    ensures R.Bit(WORDS, 0xedb883, j + 8) == R.Bit(WORDS, 0xedb8, j)
  {
    assert Half(0xedb883) == 0x76dc41;
    assert Half(0x76dc41) == 0x3b6e20;
    assert Half(0x3b6e20) == 0x1db710;
    assert Half(0x1db710) == 0xedb88;
    assert Half(0xedb88) == 0x76dc4;
    assert Half(0x76dc4) == 0x3b6e2;
    assert Half(0x3b6e2) == 0x1db71;
    assert Half(0x1db71) == 0xedb8;
    assert Odd(0xedb883) && Odd(0x76dc41) && !Odd(0x3b6e20) && !Odd(0x1db710) && !Odd(0xedb88) && !Odd(0x76dc4) && !Odd(0x3b6e2) && Odd(0x1db71);
    R.EightBits(WORDS, 0xedb883, 0x76dc41, 0x3b6e20, 0x1db710, 0xedb88, 0x76dc4, 0x3b6e2, 0x1db71, 0xedb8, j);
  }

  lemma Polynomial16(j: nat)
    ensures !R.Bit(WORDS, 0xedb8, 0) && !R.Bit(WORDS, 0xedb8, 1) && !R.Bit(WORDS, 0xedb8, 2) && R.Bit(WORDS, 0xedb8, 3)
    ensures R.Bit(WORDS, 0xedb8, 4) && R.Bit(WORDS, 0xedb8, 5) && !R.Bit(WORDS, 0xedb8, 6) && R.Bit(WORDS, 0xedb8, 7)
    ensures R.Bit(WORDS, 0xedb8, j + 8) == R.Bit(WORDS, 0xed, j)
  {
    assert Half(0xedb8) == 0x76dc;
    assert Half(0x76dc) == 0x3b6e;
    assert Half(0x3b6e) == 0x1db7;
    assert Half(0x1db7) == 0xedb;
    assert Half(0xedb) == 0x76d;
    assert Half(0x76d) == 0x3b6;
    assert Half(0x3b6) == 0x1db;
    assert Half(0x1db) == 0xed;
    assert !Odd(0xedb8) && !Odd(0x76dc) && !Odd(0x3b6e) && Odd(0x1db7) && Odd(0xedb) && Odd(0x76d) && !Odd(0x3b6) && Odd(0x1db);
    R.EightBits(WORDS, 0xedb8, 0x76dc, 0x3b6e, 0x1db7, 0xedb, 0x76d, 0x3b6, 0x1db, 0xed, j);
  }

  lemma Polynomial24(j: nat)
    ensures R.Bit(WORDS, 0xed, 0) && !R.Bit(WORDS, 0xed, 1) && R.Bit(WORDS, 0xed, 2) && R.Bit(WORDS, 0xed, 3)
    ensures !R.Bit(WORDS, 0xed, 4) && R.Bit(WORDS, 0xed, 5) && R.Bit(WORDS, 0xed, 6) && R.Bit(WORDS, 0xed, 7)
    ensures R.Bit(WORDS, 0xed, j + 8) == R.Bit(WORDS, 0x0, j)
  {
    assert Half(0xed) == 0x76;
    assert Half(0x76) == 0x3b;
    assert Half(0x3b) == 0x1d;
    assert Half(0x1d) == 0xe;
    assert Half(0xe) == 0x7;
    assert Half(0x7) == 0x3;
    assert Half(0x3) == 0x1;
    assert Half(0x1) == 0x0;
    assert Odd(0xed) && !Odd(0x76) && Odd(0x3b) && Odd(0x1d) && !Odd(0xe) && Odd(0x7) && Odd(0x3) && Odd(0x1);
    R.EightBits(WORDS, 0xed, 0x76, 0x3b, 0x1d, 0xe, 0x7, 0x3, 0x1, 0x0, j);
  }

  lemma PolynomialBit(i: nat)
    requires i < 32
    ensures R.Bit(WORDS, C.POLYNOMIAL, i) <==> 31 - i in R.LOW
  {
    if i < 8 {
      Polynomial0(0);
    } else if i < 16 {
      Polynomial0(i - 8);
      Polynomial8(0);
    } else if i < 24 {
      Polynomial0(i - 8);
      Polynomial8(i - 16);
      Polynomial16(0);
    } else {
      Polynomial0(i - 8);
      Polynomial8(i - 16);
      Polynomial16(i - 24);
      Polynomial24(0);
    }
  }

  lemma Ones0(j: nat)
    ensures R.Bit(WORDS, 0xffffffff, 0) && R.Bit(WORDS, 0xffffffff, 1) && R.Bit(WORDS, 0xffffffff, 2) && R.Bit(WORDS, 0xffffffff, 3)
    ensures R.Bit(WORDS, 0xffffffff, 4) && R.Bit(WORDS, 0xffffffff, 5) && R.Bit(WORDS, 0xffffffff, 6) && R.Bit(WORDS, 0xffffffff, 7)
    ensures R.Bit(WORDS, 0xffffffff, j + 8) == R.Bit(WORDS, 0xffffff, j)
  {
    assert Half(0xffffffff) == 0x7fffffff;
    assert Half(0x7fffffff) == 0x3fffffff;
    assert Half(0x3fffffff) == 0x1fffffff;
    assert Half(0x1fffffff) == 0xfffffff;
    assert Half(0xfffffff) == 0x7ffffff;
    assert Half(0x7ffffff) == 0x3ffffff;
    assert Half(0x3ffffff) == 0x1ffffff;
    assert Half(0x1ffffff) == 0xffffff;
    assert Odd(0xffffffff) && Odd(0x7fffffff) && Odd(0x3fffffff) && Odd(0x1fffffff) && Odd(0xfffffff) && Odd(0x7ffffff) && Odd(0x3ffffff) && Odd(0x1ffffff);
    R.EightBits(WORDS, 0xffffffff, 0x7fffffff, 0x3fffffff, 0x1fffffff, 0xfffffff, 0x7ffffff, 0x3ffffff, 0x1ffffff, 0xffffff, j);
  }

  lemma Ones8(j: nat)
    ensures R.Bit(WORDS, 0xffffff, 0) && R.Bit(WORDS, 0xffffff, 1) && R.Bit(WORDS, 0xffffff, 2) && R.Bit(WORDS, 0xffffff, 3)
    ensures R.Bit(WORDS, 0xffffff, 4) && R.Bit(WORDS, 0xffffff, 5) && R.Bit(WORDS, 0xffffff, 6) && R.Bit(WORDS, 0xffffff, 7)
    ensures R.Bit(WORDS, 0xffffff, j + 8) == R.Bit(WORDS, 0xffff, j)
  {
    assert Half(0xffffff) == 0x7fffff;
    assert Half(0x7fffff) == 0x3fffff;
    assert Half(0x3fffff) == 0x1fffff;
    assert Half(0x1fffff) == 0xfffff;
    assert Half(0xfffff) == 0x7ffff;
    assert Half(0x7ffff) == 0x3ffff;
    assert Half(0x3ffff) == 0x1ffff;
    assert Half(0x1ffff) == 0xffff;
    assert Odd(0xffffff) && Odd(0x7fffff) && Odd(0x3fffff) && Odd(0x1fffff) && Odd(0xfffff) && Odd(0x7ffff) && Odd(0x3ffff) && Odd(0x1ffff);
    R.EightBits(WORDS, 0xffffff, 0x7fffff, 0x3fffff, 0x1fffff, 0xfffff, 0x7ffff, 0x3ffff, 0x1ffff, 0xffff, j);
  }

  lemma Ones16(j: nat)
    ensures R.Bit(WORDS, 0xffff, 0) && R.Bit(WORDS, 0xffff, 1) && R.Bit(WORDS, 0xffff, 2) && R.Bit(WORDS, 0xffff, 3)
    ensures R.Bit(WORDS, 0xffff, 4) && R.Bit(WORDS, 0xffff, 5) && R.Bit(WORDS, 0xffff, 6) && R.Bit(WORDS, 0xffff, 7)
    ensures R.Bit(WORDS, 0xffff, j + 8) == R.Bit(WORDS, 0xff, j)
  {
    assert Half(0xffff) == 0x7fff;
    assert Half(0x7fff) == 0x3fff;
    assert Half(0x3fff) == 0x1fff;
    assert Half(0x1fff) == 0xfff;
    assert Half(0xfff) == 0x7ff;
    assert Half(0x7ff) == 0x3ff;
    assert Half(0x3ff) == 0x1ff;
    assert Half(0x1ff) == 0xff;
    assert Odd(0xffff) && Odd(0x7fff) && Odd(0x3fff) && Odd(0x1fff) && Odd(0xfff) && Odd(0x7ff) && Odd(0x3ff) && Odd(0x1ff);
    R.EightBits(WORDS, 0xffff, 0x7fff, 0x3fff, 0x1fff, 0xfff, 0x7ff, 0x3ff, 0x1ff, 0xff, j);
  }

  lemma Ones24(j: nat)
    ensures R.Bit(WORDS, 0xff, 0) && R.Bit(WORDS, 0xff, 1) && R.Bit(WORDS, 0xff, 2) && R.Bit(WORDS, 0xff, 3)
    ensures R.Bit(WORDS, 0xff, 4) && R.Bit(WORDS, 0xff, 5) && R.Bit(WORDS, 0xff, 6) && R.Bit(WORDS, 0xff, 7)
    ensures R.Bit(WORDS, 0xff, j + 8) == R.Bit(WORDS, 0x0, j)
  {
    assert Half(0xff) == 0x7f;
    assert Half(0x7f) == 0x3f;
    assert Half(0x3f) == 0x1f;
    assert Half(0x1f) == 0xf;
    assert Half(0xf) == 0x7;
    assert Half(0x7) == 0x3;
    assert Half(0x3) == 0x1;
    assert Half(0x1) == 0x0;
    assert Odd(0xff) && Odd(0x7f) && Odd(0x3f) && Odd(0x1f) && Odd(0xf) && Odd(0x7) && Odd(0x3) && Odd(0x1);
    R.EightBits(WORDS, 0xff, 0x7f, 0x3f, 0x1f, 0xf, 0x7, 0x3, 0x1, 0x0, j);
  }

  lemma OnesBit(i: nat)
    requires i < 32
    ensures R.Bit(WORDS, 0xffff_ffff, i) 
  {
    if i < 8 {
      Ones0(0);
    } else if i < 16 {
      Ones0(i - 8);
      Ones8(0);
    } else if i < 24 {
      Ones0(i - 8);
      Ones8(i - 16);
      Ones16(0);
    } else {
      Ones0(i - 8);
      Ones8(i - 16);
      Ones16(i - 24);
      Ones24(0);
    }
  }

  // ----- No bits beyond 32 -----

  lemma ShiftsDown(c: bv32)
    ensures Half(c) == c >> 1 && Half(c >> 1) == c >> 2 && Half(c >> 2) == c >> 3 && Half(c >> 3) == c >> 4
    ensures Half(c >> 4) == c >> 5 && Half(c >> 5) == c >> 6 && Half(c >> 6) == c >> 7 && Half(c >> 7) == c >> 8
  {
  }

  lemma ByteDown(c: bv32, d: bv32, j: nat)
    requires c >> 8 == d
    ensures R.Bit(WORDS, c, j + 8) == R.Bit(WORDS, d, j)
  {
    ShiftsDown(c);
    R.EightBits(WORDS, c, c >> 1, c >> 2, c >> 3, c >> 4, c >> 5, c >> 6, c >> 7, d, j);
  }

  lemma TwiceDown(c: bv32, d: bv32)
    requires c >> 16 == d
    ensures (c >> 8) >> 8 == d
  {
  }

  lemma TwoBytesDown(c: bv32, d: bv32, j: nat)
    requires c >> 16 == d
    ensures R.Bit(WORDS, c, j + 16) == R.Bit(WORDS, d, j)
  {
    TwiceDown(c, d);
    ByteDown(c, c >> 8, j + 8);
    ByteDown(c >> 8, d, j);
  }

  lemma DownAndOut(c: bv32, d: bv32)
    requires c >> 16 == d
    ensures d >> 16 == 0
  {
  }

  lemma NoBit(c: bv32)
    ensures !R.Bit(WORDS, c, 32)
  {
    var d := c >> 16;
    DownAndOut(c, d);
    TwoBytesDown(c, d, 16);
    TwoBytesDown(d, 0, 0);
    assert !Odd(0);
  }

  lemma {:induction false} ZeroBit(i: nat)
    ensures !R.Bit(WORDS, 0, i)
  {
    assert Half(0) == 0 && !Odd(0);
    if i > 0 {
      ZeroBit(i - 1);
    }
  }

  lemma Lawful()
    ensures R.Lawful(WORDS)
  {
    AddsBits();
    StepsDown();
    forall c ensures !R.Bit(WORDS, c, 32) {
      NoBit(c);
    }
    forall i: nat | i < 32 ensures R.Bit(WORDS, C.POLYNOMIAL, i) <==> 31 - i in R.LOW {
      PolynomialBit(i);
    }
  }

  // ----- Messages -----

  /** A byte as a polynomial: its low bit, sent first, is the highest coefficient. */
  ghost function BytePoly(b: bv8): Poly { set e: nat | e < 8 && BytePower(b, e) }

  predicate BytePower(b: bv8, e: nat) { e < 8 && R.Bit(WORDS, C.Wide(b), 7 - e) }

  ghost function MessagePoly(bytes: seq<bv8>): Poly {
    if bytes == [] then {} else Plus(Shift(MessagePoly(bytes[..|bytes| - 1]), 8), BytePoly(bytes[|bytes| - 1]))
  }

  lemma WideIsLow(b: bv8)
    ensures C.Wide(b) >> 8 == 0
  {
  }

  lemma WideBit(b: bv8, i: nat)
    requires i >= 8
    ensures !R.Bit(WORDS, C.Wide(b), i)
  {
    WideIsLow(b);
    ByteDown(C.Wide(b), 0, i - 8);
    ZeroBit(i - 8);
  }

  lemma WideReg(b: bv8)
    ensures R.Reg(WORDS, C.Wide(b)) == Shift(BytePoly(b), 24)
  {
    forall e: nat ensures e in R.Reg(WORDS, C.Wide(b)) <==> e in Shift(BytePoly(b), 24) {
      ShiftAt(BytePoly(b), 24, e);
      if e < 24 {
        WideBit(b, 31 - e);
      } else if e < 32 {
        assert 31 - e == 7 - (e - 24);
        assert R.Power(WORDS, C.Wide(b), e) == BytePower(b, e - 24);
      }
    }
  }

  /** All powers below 32. */
  const ONES: Poly := set e: nat | e < 32 :: e

  lemma OnesReg()
    ensures R.Reg(WORDS, 0xffff_ffff) == ONES
  {
    forall e: nat ensures e in R.Reg(WORDS, 0xffff_ffff) <==> e in ONES {
      if e < 32 {
        OnesBit(31 - e);
        assert R.Power(WORDS, 0xffff_ffff, e);
      }
    }
  }

  lemma NotIsXor(c: bv32)
    ensures !c == C.Xor(c, 0xffff_ffff)
  {
  }

  lemma NotReg(c: bv32)
    ensures R.Reg(WORDS, !c) == Plus(R.Reg(WORDS, c), ONES)
  {
    NotIsXor(c);
    AddsBits();
    R.RegPlus(WORDS, c, 0xffff_ffff);
    OnesReg();
  }

  /** What is fed is the message times the 32nd power, and the initial ones in front of it. */
  lemma {:induction false} FedMessage(bytes: seq<bv8>)
    ensures R.Fed(WORDS, 0xffff_ffff, C.Widen(bytes)) ==
            Plus(Shift(MessagePoly(bytes), 32), Shift(ONES, 8 * |bytes|))
  {
    var words := C.Widen(bytes);
    if bytes == [] {
      OnesReg();
      ShiftNone(ONES);
      assert Shift({}, 32) == {};
    } else {
      var front, last := bytes[..|bytes| - 1], bytes[|bytes| - 1];
      FedMessage(front);
      assert words[..|words| - 1] == C.Widen(front) && words[|words| - 1] == C.Wide(last);
      WideReg(last);
      Gather(MessagePoly(front), BytePoly(last), 8 * |front|);
      assert 8 * |front| + 8 == 8 * |bytes|;
    }
  }

  lemma Gather(m: Poly, b: Poly, n: nat)
    ensures Shift(Plus(Plus(Shift(m, 32), Shift(ONES, n)), Shift(b, 24)), 8) ==
            Plus(Shift(Plus(Shift(m, 8), b), 32), Shift(ONES, n + 8))
  {
    ShiftPlus(Plus(Shift(m, 32), Shift(ONES, n)), Shift(b, 24), 8);
    ShiftPlus(Shift(m, 32), Shift(ONES, n), 8);
    ShiftShift(m, 32, 8);
    ShiftShift(ONES, n, 8);
    ShiftShift(b, 24, 8);
    ShiftPlus(Shift(m, 8), b, 32);
    ShiftShift(m, 8, 32);
    var x, y, z := Shift(m, 40), Shift(ONES, n + 8), Shift(b, 32);
    assert Plus(Plus(x, y), z) == Plus(Plus(x, z), y);
  }

  /** The register, started with ones, is congruent to what it was fed. */
  lemma RegisterCongruent(bytes: seq<bv8>)
    ensures Congruent(R.GENERATOR, R.Reg(WORDS, C.Register(0xffff_ffff, bytes)),
                      Plus(Shift(MessagePoly(bytes), 32), Shift(ONES, 8 * |bytes|)))
  {
    Lawful();
    R.FeedCongruent(WORDS, 0xffff_ffff, C.Widen(bytes));
    FedMessage(bytes);
  }

  lemma Complement(c: bv32)
    ensures Plus(R.Reg(WORDS, !c), ONES) == R.Reg(WORDS, c)
  {
    NotReg(c);
    var r := R.Reg(WORDS, c);
    assert Plus(Plus(r, ONES), ONES) == r;
  }

  lemma RegisterIsShort(c: bv32)
    ensures forall e | e in R.Reg(WORDS, c) :: e < 32
  {
  }

  /**
    The complement of the checksum is the remainder, by the CRC-32 generator, of the
    message times the 32nd power with its first 32 coefficients complemented.
   */
  lemma ChecksumIsRemainder(bytes: seq<bv8>)
    ensures Remainder(R.GENERATOR, Plus(Shift(MessagePoly(bytes), 32), Shift(ONES, 8 * |bytes|)),
                      Plus(R.Reg(WORDS, C.Checksum(bytes)), ONES))
  {
    var c := C.Register(0xffff_ffff, bytes);
    RegisterCongruent(bytes);
    Complement(c);
    RegisterIsShort(c);
    CongruentBack(R.GENERATOR, R.Reg(WORDS, c), Plus(Shift(MessagePoly(bytes), 32), Shift(ONES, 8 * |bytes|)));
  }

  lemma CongruentBack(g: Poly, p: Poly, q: Poly)
    requires Congruent(g, p, q)
    ensures Congruent(g, q, p)
  {
    var a :| Plus(p, q) == Multiple(g, a);
    assert Plus(q, p) == Multiple(g, a);
  }
}
