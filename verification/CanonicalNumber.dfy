/**
  Numbers of the interchange format: integers and decimals, printed without
  exponent and without any choice of spelling.
 */
module CanonicalNumber {
  /** A decimal is `coefficient` times ten to the `exponent`, as it was spelled. */
  datatype Number = Int(n: int) | Dec(neg: bool, coefficient: nat, exponent: int)

  // ----- Powers of ten -----

  function Raise(c: int, e: nat): int {
    if e == 0 then c else 10 * Raise(c, e - 1)
  }

  lemma {:induction false} RaiseTen(c: int, e: nat)
    ensures Raise(10 * c, e) == 10 * Raise(c, e) == Raise(c, e + 1)
  {
    if e > 0 {
      RaiseTen(c, e - 1);
    }
  }

  lemma {:induction false} RaiseAdd(c: int, d: nat, e: nat)
    ensures Raise(Raise(c, d), e) == Raise(c, d + e)
  {
    if e > 0 {
      RaiseAdd(c, d, e - 1);
    }
  }

  lemma {:induction false} RaiseInjective(a: int, b: int, e: nat)
    requires Raise(a, e) == Raise(b, e)
    ensures a == b
  {
    if e > 0 {
      RaiseInjective(a, b, e - 1);
    }
  }

  lemma {:induction false} RaiseSign(c: int, e: nat)
    ensures (c == 0 <==> Raise(c, e) == 0) && (c > 0 <==> Raise(c, e) > 0)
    ensures Raise(-c, e) == -Raise(c, e)
  {
    if e > 0 {
      RaiseSign(c, e - 1);
    }
  }

  // ----- Equal numbers -----

  /** The number times ten to the `k`, where that is whole by its spelling. */
  ghost predicate Whole(x: Number, k: nat) { x.Dec? ==> x.exponent + k >= 0 }

  ghost function Scaled(x: Number, k: nat): int
    requires Whole(x, k)
  {
    match x
    case Int(n) => Raise(n, k)
    case Dec(neg, c, e) => if neg then -Raise(c, e + k) else Raise(c, e + k)
  }

  /** Two spellings of one value. */
  ghost predicate SameValue(x: Number, y: Number) {
    exists k: nat :: Whole(x, k) && Whole(y, k) && Scaled(x, k) == Scaled(y, k)
  }

  // ----- The reduced form -----

  /** `coefficient` over ten to the `places`, with no trailing zero after the point. */
  datatype Reduced = Reduced(neg: bool, coefficient: nat, places: nat)

  ghost predicate IsReduced(r: Reduced) {
    && (r.places == 0 || r.coefficient % 10 != 0)
    && (r.coefficient == 0 ==> !r.neg && r.places == 0)
  }

  function Strip(neg: bool, c: nat, places: nat): Reduced
    decreases places
  {
    if places > 0 && c % 10 == 0 then Strip(neg, c / 10, places - 1) else Reduced(neg, c, places)
  }

  function Reduce(x: Number): Reduced {
    match x
    case Int(n) => if n < 0 then Reduced(true, -n, 0) else Reduced(false, n, 0)
    case Dec(neg, c, e) =>
      if c == 0 then Reduced(false, 0, 0)
      else if e >= 0 then (RaiseSign(c, e); Reduced(neg, Raise(c, e), 0))
      else Strip(neg, c, -e)
  }

  ghost function ScaledReduced(r: Reduced, k: nat): int
    requires r.places <= k
  {
    if r.neg then -Raise(r.coefficient, k - r.places) else Raise(r.coefficient, k - r.places)
  }

  lemma {:induction false} StripReduces(neg: bool, c: nat, places: nat, k: nat)
    requires c != 0 && places <= k
    ensures
      var r := Strip(neg, c, places);
      && IsReduced(r) && r.coefficient != 0 && r.places <= places && r.neg == neg
      && Raise(r.coefficient, k - r.places) == Raise(c, k - places)
    decreases places
  {
    if places > 0 && c % 10 == 0 {
      StripReduces(neg, c / 10, places - 1, k);
      RaiseTen(c / 10, k - places);
    }
  }

  lemma {:induction false} ReduceKeepsValue(x: Number, k: nat)
    requires Whole(x, k)
    ensures IsReduced(Reduce(x)) && Reduce(x).places <= k && ScaledReduced(Reduce(x), k) == Scaled(x, k)
  {
    match x
    case Int(n) =>
      RaiseSign(n, k);
    case Dec(neg, c, e) =>
      if c == 0 {
        RaiseSign(0, e + k);
        RaiseSign(0, k);
      } else if e >= 0 {
        RaiseSign(c, e);
        RaiseAdd(c, e, k);
      } else {
        StripReduces(neg, c, -e, k);
      }
  }

  lemma {:induction false} RaiseDivides(c: int, e: nat)
    requires e > 0
    ensures Raise(c, e) % 10 == 0
  {
  }

  lemma {:induction false} ReducedUnique(r: Reduced, s: Reduced, k: nat)
    requires IsReduced(r) && IsReduced(s) && r.places <= k && s.places <= k
    requires ScaledReduced(r, k) == ScaledReduced(s, k)
    ensures r == s
  {
    RaiseSign(r.coefficient, k - r.places);
    RaiseSign(s.coefficient, k - s.places);
    if r.places == s.places {
      RaiseInjective(r.coefficient, s.coefficient, k - r.places);
    } else if r.places < s.places {
      PlacesAgree(r, s, k);
    } else {
      PlacesAgree(s, r, k);
    }
  }

  lemma {:induction false} PlacesAgree(r: Reduced, s: Reduced, k: nat)
    requires r.places < s.places <= k && Raise(r.coefficient, k - r.places) == Raise(s.coefficient, k - s.places)
    ensures s.coefficient % 10 == 0
  {
    var d := s.places - r.places;
    RaiseAdd(r.coefficient, d, k - s.places);
    RaiseInjective(Raise(r.coefficient, d), s.coefficient, k - s.places);
    RaiseDivides(r.coefficient, d);
  }

  function Places(x: Number): nat { if x.Dec? && x.exponent < 0 then -x.exponent else 0 }

  /** Spellings of one value are those with one reduced form. */
  lemma {:induction false} SameValueReduces(x: Number, y: Number)
    ensures SameValue(x, y) <==> Reduce(x) == Reduce(y)
  {
    if SameValue(x, y) {
      var k: nat :| Whole(x, k) && Whole(y, k) && Scaled(x, k) == Scaled(y, k);
      ReduceKeepsValue(x, k);
      ReduceKeepsValue(y, k);
      ReducedUnique(Reduce(x), Reduce(y), k);
    }
    if Reduce(x) == Reduce(y) {
      var k := Places(x) + Places(y);
      ReduceKeepsValue(x, k);
      ReduceKeepsValue(y, k);
    }
  }

  // ----- Text -----

  function Digit(d: nat): char
    requires d < 10
  {
    "0123456789"[d]
  }

  predicate IsDigit(c: char) { '0' <= c <= '9' }

  function DigitValue(c: char): nat
    requires IsDigit(c)
  {
    c as int - '0' as int
  }

  lemma DigitRoundTrip(d: nat)
    requires d < 10
    ensures IsDigit(Digit(d)) && DigitValue(Digit(d)) == d && (Digit(d) == '0' <==> d == 0)
  {
  }

  function Digits(n: nat): string {
    if n < 10 then [Digit(n)] else Digits(n / 10) + [Digit(n % 10)]
  }

  predicate AllDigits(s: string) { forall i | 0 <= i < |s| :: IsDigit(s[i]) }

  function FromDigits(s: string): nat
    requires AllDigits(s)
  {
    if s == "" then 0 else 10 * FromDigits(s[..|s| - 1]) + DigitValue(s[|s| - 1])
  }

  lemma {:induction false} FromDigitsAppend(s: string, d: nat)
    requires AllDigits(s) && d < 10
    ensures AllDigits(s + [Digit(d)]) && FromDigits(s + [Digit(d)]) == 10 * FromDigits(s) + d
  {
    DigitRoundTrip(d);
    assert (s + [Digit(d)])[..|s|] == s;
  }

  lemma {:induction false} DigitsRoundTrip(n: nat)
    ensures AllDigits(Digits(n)) && Digits(n) != "" && FromDigits(Digits(n)) == n
  {
    if n >= 10 {
      DigitsRoundTrip(n / 10);
      FromDigitsAppend(Digits(n / 10), n % 10);
    } else {
      FromDigitsAppend("", n);
      assert "" + [Digit(n)] == [Digit(n)];
    }
  }

  /** The whole part of `c` over ten to the `k`. */
  function Shift(c: nat, k: nat): nat {
    if k == 0 then c else Shift(c / 10, k - 1)
  }

  /** The last `k` digits. */
  function Fraction(c: nat, k: nat): string {
    if k == 0 then "" else Fraction(c / 10, k - 1) + [Digit(c % 10)]
  }

  /** Fixed-point text with a point, before trailing zeros are removed. */
  function Pointed(c: nat, k: nat): string { Digits(Shift(c, k)) + "." + Fraction(c, k) }

  function Zeros(e: nat): string { if e == 0 then "" else Zeros(e - 1) + "0" }

  function RStrip(s: string, c: char): string {
    if s != "" && s[|s| - 1] == c then RStrip(s[..|s| - 1], c) else s
  }

  function Signed(neg: bool, s: string): string { if neg then "-" + s else s }

  /** The text of a number: plain digits, a point only before a nonzero last digit. */
  function Text(x: Number): string {
    match x
    case Int(n) => if n < 0 then Signed(true, Digits(-n)) else Digits(n)
    case Dec(neg, c, e) =>
      if c == 0 then "0"
      else if e >= 0 then Signed(neg, Digits(c) + Zeros(e))
      else Trim(Signed(neg, Pointed(c, -e)))
  }

  /** The same text from the reduced form. */
  function Render(r: Reduced): string {
    Signed(r.neg, if r.places == 0 then Digits(r.coefficient) else Pointed(r.coefficient, r.places))
  }

  lemma {:induction false} DigitsZeros(c: nat, e: nat)
    requires c > 0
    ensures Raise(c, e) > 0 && Digits(Raise(c, e)) == Digits(c) + Zeros(e)
  {
    if e > 0 {
      DigitsZeros(c, e - 1);
      var m := Raise(c, e - 1);
      assert (10 * m) / 10 == m && (10 * m) % 10 == 0;
      assert Digits(10 * m) == Digits(m) + "0";
    }
  }

  lemma {:induction false} RStripLast(t: string, d: char, c: char)
    ensures RStrip(t + [d], c) == if d == c then RStrip(t, c) else t + [d]
  {
    assert (t + [d])[..|t|] == t;
  }

  lemma {:induction false} StripWhole(neg: bool, c: nat)
    ensures Trim(Signed(neg, Pointed(c, 0))) == Signed(neg, Digits(c))
  {
    var whole := Signed(neg, Digits(c));
    assert Signed(neg, Pointed(c, 0)) == whole + ['.'];
    RStripLast(whole, '.', '0');
    RStripLast(whole, '.', '.');
    DigitsRoundTrip(c);
    assert IsDigit(whole[|whole| - 1]);
  }

  /** The last digit of the fraction, and what is before it. */
  lemma {:induction false} PointedLast(neg: bool, c: nat, k: nat)
    requires k > 0
    ensures Signed(neg, Pointed(c, k)) == Signed(neg, Pointed(c / 10, k - 1)) + [Digit(c % 10)]
  {
  }

  function Trim(s: string): string { RStrip(RStrip(s, '0'), '.') }

  lemma {:induction false} TrimZero(t: string)
    ensures Trim(t + ['0']) == Trim(t)
  {
    RStripLast(t, '0', '0');
  }

  lemma {:induction false} TrimStops(t: string, d: char)
    requires d != '0' && d != '.'
    ensures Trim(t + [d]) == t + [d]
  {
    RStripLast(t, d, '0');
    RStripLast(t, d, '.');
  }

  lemma {:induction false} TrimPointed(neg: bool, c: nat, k: nat)
    requires k > 0
    ensures c % 10 == 0 ==> Trim(Signed(neg, Pointed(c, k))) == Trim(Signed(neg, Pointed(c / 10, k - 1)))
    ensures c % 10 != 0 ==> Trim(Signed(neg, Pointed(c, k))) == Signed(neg, Pointed(c, k))
  {
    var t := Signed(neg, Pointed(c / 10, k - 1));
    PointedLast(neg, c, k);
    DigitRoundTrip(c % 10);
    if c % 10 == 0 {
      TrimZero(t);
    } else {
      TrimStops(t, Digit(c % 10));
    }
  }

  /** Trimming drops a last digit zero and stops at another one. */
  ghost predicate TrimsAt(show: (nat, nat) -> string, c: nat, k: nat) {
    k > 0 ==> Trim(show(c, k)) == if c % 10 == 0 then Trim(show(c / 10, k - 1)) else show(c, k)
  }

  lemma {:induction false} TrimIsStrip(show: (nat, nat) -> string, neg: bool, c: nat, k: nat)
    requires forall d, j :: TrimsAt(show, d, j)
    ensures
      var r := Strip(neg, c, k);
      r.neg == neg && Trim(show(c, k)) == if r.places == 0 then Trim(show(r.coefficient, 0)) else show(r.coefficient, r.places)
    decreases k
  {
    assert TrimsAt(show, c, k);
    if k > 0 && c % 10 == 0 {
      TrimIsStrip(show, neg, c / 10, k - 1);
    }
  }

  lemma {:induction false} RenderTrims(r: Reduced)
    ensures Render(r) == if r.places == 0 then Trim(Signed(r.neg, Pointed(r.coefficient, 0)))
                         else Signed(r.neg, Pointed(r.coefficient, r.places))
  {
    StripWhole(r.neg, r.coefficient);
  }

  lemma {:induction false} PointedTrims(neg: bool, show: (nat, nat) -> string)
    requires forall d, j :: show(d, j) == Signed(neg, Pointed(d, j))
    ensures forall d, j :: TrimsAt(show, d, j)
  {
    forall d, j ensures TrimsAt(show, d, j) {
      if j > 0 {
        TrimPointed(neg, d, j);
      }
    }
  }

  lemma {:induction false} StripPointed(neg: bool, c: nat, k: nat)
    ensures Trim(Signed(neg, Pointed(c, k))) == Render(Strip(neg, c, k))
  {
    var show := (d: nat, j: nat) => Signed(neg, Pointed(d, j));
    PointedTrims(neg, show);
    TrimIsStrip(show, neg, c, k);
    RenderTrims(Strip(neg, c, k));
  }

  /** The text depends only on the reduced form. */
  lemma {:induction false} TextIsRender(x: Number)
    ensures Text(x) == Render(Reduce(x))
  {
    match x
    case Int(n) =>
    case Dec(neg, c, e) =>
      if c != 0 {
        if e >= 0 {
          DigitsZeros(c, e);
        } else {
          StripPointed(neg, c, -e);
        }
      }
  }

  // ----- Reading a number -----

  datatype Option<T> = None | Some(value: T)

  function DigitCount(s: string): (n: nat)
    ensures n <= |s| && AllDigits(s[..n])
  {
    if s != "" && IsDigit(s[0]) then
      (assert s[..DigitCount(s[1..]) + 1] == [s[0]] + s[1..][..DigitCount(s[1..])];
       DigitCount(s[1..]) + 1)
    else 0
  }

  function Negated(neg: bool, n: nat): int { if neg then 0 - n else n }

  /** A sign, digits, and perhaps a point and digits. */
  function ReadNumber(s: string): (r: Option<(Number, string)>)
    ensures r.Some? ==> |r.value.1| < |s|
  {
    if s != "" && s[0] == '-' then ReadUnsigned(true, s[1..]) else ReadUnsigned(false, s)
  }

  function ReadUnsigned(neg: bool, t: string): (r: Option<(Number, string)>)
    ensures r.Some? ==> |r.value.1| < |t|
  {
    var n := DigitCount(t);
    if n == 0 then None
    else
      var rest := t[n..];
      if rest != "" && rest[0] == '.' then ReadFraction(neg, t[..n], rest[1..])
      else Some((Int(Negated(neg, FromDigits(t[..n]))), rest))
  }

  function ReadFraction(neg: bool, whole: string, t: string): (r: Option<(Number, string)>)
    requires AllDigits(whole)
    ensures r.Some? ==> |r.value.1| < |t|
  {
    var m := DigitCount(t);
    if m == 0 then None
    else
      assert AllDigits(whole + t[..m]);
      Some((Dec(neg, FromDigits(whole + t[..m]), 0 - m), t[m..]))
  }

  predicate Ends(rest: string) { rest == "" || !(IsDigit(rest[0]) || rest[0] == '.') }

  lemma {:induction false} DigitCountOf(d: string, rest: string)
    requires AllDigits(d) && (rest == "" || !IsDigit(rest[0]))
    ensures DigitCount(d + rest) == |d| && (d + rest)[..|d|] == d && (d + rest)[|d|..] == rest
  {
    if d == "" {
      assert d + rest == rest;
    } else {
      DigitCountOf(d[1..], rest);
      assert (d + rest)[1..] == d[1..] + rest;
    }
  }

  lemma {:induction false} FractionDigits(c: nat, k: nat)
    ensures AllDigits(Fraction(c, k)) && |Fraction(c, k)| == k
  {
    if k > 0 {
      FractionDigits(c / 10, k - 1);
      DigitRoundTrip(c % 10);
    }
  }

  lemma {:induction false} PartsRoundTrip(c: nat, k: nat)
    ensures
      var d := Digits(Shift(c, k)) + Fraction(c, k);
      AllDigits(d) && FromDigits(d) == c
  {
    var d := Digits(Shift(c, k)) + Fraction(c, k);
    if k == 0 {
      DigitsRoundTrip(c);
      assert d == Digits(c);
    } else {
      PartsRoundTrip(c / 10, k - 1);
      var before := Digits(Shift(c / 10, k - 1)) + Fraction(c / 10, k - 1);
      FromDigitsAppend(before, c % 10);
      assert d == before + [Digit(c % 10)];
    }
  }

  /** The number a canonical text is read as. */
  function Canonical(x: Number): Number {
    var r := Reduce(x);
    if r.places == 0 then Int(Negated(r.neg, r.coefficient)) else Dec(r.neg, r.coefficient, 0 - r.places)
  }

  lemma {:induction false} ReadSigned(neg: bool, d: string, rest: string)
    requires d != "" && IsDigit(d[0])
    ensures ReadNumber(Signed(neg, d) + rest) == ReadUnsigned(neg, d + rest)
  {
    assert (d + rest)[0] == d[0];
    if neg {
      assert (Signed(neg, d) + rest)[1..] == d + rest;
    }
  }

  lemma {:induction false} ReadWhole(neg: bool, n: nat, rest: string)
    requires Ends(rest)
    ensures ReadNumber(Signed(neg, Digits(n)) + rest) == Some((Int(Negated(neg, n)), rest))
  {
    var d := Digits(n);
    DigitsRoundTrip(n);
    DigitCountOf(d, rest);
    ReadSigned(neg, d, rest);
  }

  lemma {:induction false} ReadPoint(neg: bool, d: string, f: string, rest: string)
    requires AllDigits(d) && AllDigits(f) && d != "" && f != "" && Ends(rest) && AllDigits(d + f)
    ensures ReadUnsigned(neg, d + ("." + (f + rest))) == Some((Dec(neg, FromDigits(d + f), 0 - |f|), rest))
  {
    var tail := "." + (f + rest);
    DigitCountOf(d, tail);
    DigitCountOf(f, rest);
    assert tail[1..] == f + rest;
  }

  lemma {:induction false} PointTail(d: string, f: string, rest: string)
    requires d != ""
    ensures d + "." + f + rest == d + ("." + (f + rest)) && (d + "." + f)[0] == d[0]
  {
  }

  lemma {:induction false} ReadPointed(neg: bool, c: nat, k: nat, rest: string)
    requires Ends(rest) && k > 0
    ensures ReadNumber(Signed(neg, Pointed(c, k)) + rest) == Some((Dec(neg, c, 0 - k), rest))
  {
    var d, f := Digits(Shift(c, k)), Fraction(c, k);
    DigitsRoundTrip(Shift(c, k));
    FractionDigits(c, k);
    PartsRoundTrip(c, k);
    PointTail(d, f, rest);
    ReadSigned(neg, d + "." + f, rest);
    ReadPoint(neg, d, f, rest);
  }

  /** Reading a printed number gives the canonical number, whatever follows. */
  lemma {:induction false} ReadText(x: Number, rest: string)
    requires Ends(rest)
    ensures ReadNumber(Text(x) + rest) == Some((Canonical(x), rest))
  {
    TextIsRender(x);
    var r := Reduce(x);
    if r.places == 0 {
      ReadWhole(r.neg, r.coefficient, rest);
    } else {
      ReadPointed(r.neg, r.coefficient, r.places, rest);
    }
  }

  lemma {:induction false} ReduceReduced(x: Number)
    ensures IsReduced(Reduce(x))
  {
    ReduceKeepsValue(x, Places(x));
  }

  /** Canonical numbers are fixed points: same value, same text. */
  lemma {:induction false} CanonicalFixed(x: Number)
    ensures Reduce(Canonical(x)) == Reduce(x) && Canonical(Canonical(x)) == Canonical(x) && Text(Canonical(x)) == Text(x)
  {
    ReduceReduced(x);
    TextIsRender(x);
    TextIsRender(Canonical(x));
  }

  /** Two numbers print the same exactly when they are spellings of one value. */
  lemma {:induction false} TextDecidesValue(x: Number, y: Number)
    ensures Text(x) == Text(y) <==> SameValue(x, y)
    ensures Canonical(x) == Canonical(y) <==> SameValue(x, y)
  {
    SameValueReduces(x, y);
    TextIsRender(x);
    TextIsRender(y);
    CanonicalFixed(x);
    CanonicalFixed(y);
    if Text(x) == Text(y) {
      ReadText(x, "");
      ReadText(y, "");
    }
  }

  // ----- The shape of the text -----

  ghost predicate Decimal(s: string) { forall i | 0 <= i < |s| :: 48 <= s[i] as int <= 57 }

  /** Digits without leading zeros. */
  ghost predicate PlainWhole(w: string) { w != "" && Decimal(w) && (w[0] == '0' ==> |w| == 1) }

  /** Digits without trailing zeros, or none. */
  ghost predicate PlainFraction(f: string) { Decimal(f) && (f == "" || f[|f| - 1] != '0') }

  /** An optional sign, the whole part, and a point only before a fraction; zero has no sign. */
  ghost predicate Shaped(t: string, neg: bool, w: string, f: string) {
    && PlainWhole(w) && PlainFraction(f) && (neg ==> w != "0" || f != "")
    && t == (if neg then "-" else "") + w + (if f == "" then "" else "." + f)
  }

  lemma {:induction false} DigitsShape(n: nat)
    ensures PlainWhole(Digits(n)) && (Digits(n) == "0" <==> n == 0)
  {
    if n >= 10 {
      DigitsShape(n / 10);
      DigitRoundTrip(n % 10);
      var front := Digits(n / 10);
      assert Digits(n)[0] == front[0];
    } else {
      DigitRoundTrip(n);
    }
  }

  lemma {:induction false} FractionShape(c: nat, k: nat)
    ensures Decimal(Fraction(c, k)) && |Fraction(c, k)| == k
    ensures k > 0 && c % 10 != 0 ==> Fraction(c, k)[k - 1] != '0'
  {
    if k > 0 {
      FractionShape(c / 10, k - 1);
      DigitRoundTrip(c % 10);
    }
  }

  lemma {:induction false} SignedShape(neg: bool, w: string, f: string)
    requires PlainWhole(w) && PlainFraction(f) && (neg ==> w != "0" || f != "")
    ensures Shaped(Signed(neg, if f == "" then w else w + "." + f), neg, w, f)
  {
    assert neg ==> "-" + (w + "." + f) == "-" + w + ("." + f);
    assert !neg ==> w + "." + f == "" + w + ("." + f);
  }

  lemma {:induction false} TextShape(x: Number)
    ensures exists neg, w, f :: Shaped(Text(x), neg, w, f)
  {
    TextIsRender(x);
    ReduceReduced(x);
    var r := Reduce(x);
    if r.places == 0 {
      DigitsShape(r.coefficient);
      SignedShape(r.neg, Digits(r.coefficient), "");
    } else {
      DigitsShape(Shift(r.coefficient, r.places));
      FractionShape(r.coefficient, r.places);
      SignedShape(r.neg, Digits(Shift(r.coefficient, r.places)), Fraction(r.coefficient, r.places));
    }
  }
}
