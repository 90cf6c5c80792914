/**
  Reading a gain pattern at a direction: brackets on the two axes, the azimuth
  one periodic, and interpolation in linear power. Angles and gains are exact
  reals; the decibel map is any strictly increasing one with an inverse.
 */
module AntennaPattern {
  datatype Result<T> = Ok(value: T) | Unsupported

  datatype Option<T> = None | Some(value: T)

  // ----- Axes -----

  ghost predicate Increasing(axis: seq<real>) { forall i, j | 0 <= i < j < |axis| :: axis[i] < axis[j] }

  predicate InAxisRange(x: real, minimum: real, maximum: real, inclusive: bool) {
    minimum <= x && if inclusive then x <= maximum else x < maximum
  }

  /** The axis loop, comparing each value with the one before it. */
  method ValidateAxis(axis: seq<real>, maximumCount: nat, minimum: real, maximum: real, inclusive: bool) returns (ok: bool)
    ensures ok <==>
      && 2 <= |axis| <= maximumCount && Increasing(axis)
      && forall i | 0 <= i < |axis| :: minimum <= axis[i] <= maximum && (inclusive || axis[i] != maximum)
  {
    if |axis| < 2 || |axis| > maximumCount { return false; }
    var previous: Option<real> := None;
    for i := 0 to |axis|
      invariant previous == if i == 0 then None else Some(axis[i - 1])
      invariant forall j | 0 <= j < i :: minimum <= axis[j] <= maximum && (inclusive || axis[j] != maximum)
      invariant forall j, k | 0 <= j < k < i :: axis[j] < axis[k]
    {
      if !InAxisRange(axis[i], minimum, maximum, inclusive) { return false; }
      if previous.Some? && previous.value >= axis[i] { return false; }
      previous := Some(axis[i]);
    }
    return true;
  }

  /** Where a target is, or where it would be inserted. */
  datatype Search = Exact(index: nat) | Gap(index: nat)

  function Find(axis: seq<real>, target: real): (r: Search)
    ensures r.index <= |axis|
    ensures r.Exact? ==> r.index < |axis| && axis[r.index] == target
    ensures r.Gap? ==> (r.index < |axis| ==> target < axis[r.index])
    ensures r.Gap? && Increasing(axis) && r.index > 0 ==> axis[r.index - 1] < target
  {
    if axis == [] then Gap(0)
    else if axis[0] == target then Exact(0)
    else if target < axis[0] then Gap(0)
    else
      var r := Find(axis[1..], target);
      if r.Exact? then Exact(r.index + 1) else Gap(r.index + 1)
  }

  datatype Bracket = Bracket(lower: nat, upper: nat, fraction: real)

  function BoundedBracket(axis: seq<real>, target: real): (b: Bracket)
    requires Increasing(axis) && axis != []
    ensures b.lower < |axis| && b.upper < |axis|
  {
    match Find(axis, target)
    case Exact(i) => Bracket(i, i, 0.0)
    case Gap(i) =>
      if i == 0 then Bracket(0, 0, 0.0)
      else if i == |axis| then Bracket(|axis| - 1, |axis| - 1, 0.0)
      else Bracket(i - 1, i, (target - axis[i - 1]) / (axis[i] - axis[i - 1]))
  }

  /** An azimuth axis lies within one turn. */
  ghost predicate OneTurn(axis: seq<real>) {
    Increasing(axis) && |axis| >= 2 && axis[0] >= 0.0 && axis[|axis| - 1] < 360.0
  }

  function PeriodicBracket(axis: seq<real>, target: real): (b: Bracket)
    requires OneTurn(axis)
    ensures b.lower < |axis| && b.upper < |axis|
  {
    var last := |axis| - 1;
    match Find(axis, target)
    case Exact(i) => Bracket(i, i, 0.0)
    case Gap(i) =>
      if i == 0 then Bracket(last, 0, (target - (axis[last] - 360.0)) / (axis[0] - (axis[last] - 360.0)))
      else if i == |axis| then Bracket(last, 0, (target - axis[last]) / (axis[0] + 360.0 - axis[last]))
      else Bracket(i - 1, i, (target - axis[i - 1]) / (axis[i] - axis[i - 1]))
  }

  lemma {:induction false} FractionInside(a: real, x: real, b: real)
    requires a <= x < b
    ensures 0.0 <= (x - a) / (b - a) < 1.0
    ensures a * (1.0 - (x - a) / (b - a)) + b * ((x - a) / (b - a)) == x
  {
    var w, f := b - a, (x - a) / (b - a);
    assert f * w == x - a;
    if f >= 1.0 {
      Grow(w, f);
    }
    if f < 0.0 {
      Shrink(w, f);
    }
    assert a * (1.0 - f) + b * f == a + f * w;
  }

  lemma {:induction false} Grow(w: real, f: real)
    requires w > 0.0 && f >= 1.0
    ensures f * w >= w
  {
  }

  lemma {:induction false} Shrink(w: real, f: real)
    requires w > 0.0 && f < 0.0
    ensures f * w < 0.0
  {
  }

  /** The bracketing angles, weighted by the fraction, give the target; out of range it is clamped. */
  lemma {:induction false} BoundedBracketPlaces(axis: seq<real>, target: real)
    requires Increasing(axis) && axis != []
    ensures
      var b := BoundedBracket(axis, target);
      && 0.0 <= b.fraction < 1.0
      && axis[b.lower] * (1.0 - b.fraction) + axis[b.upper] * b.fraction ==
         (if target < axis[0] then axis[0] else if target > axis[|axis| - 1] then axis[|axis| - 1] else target)
      && (b.lower == b.upper || b.upper == b.lower + 1)
  {
    var r := Find(axis, target);
    if r.Gap? && 0 < r.index < |axis| {
      FractionInside(axis[r.index - 1], target, axis[r.index]);
    }
    if r.Exact? && r.index > 0 {
      assert axis[0] < axis[r.index];
    }
    if r.Exact? && r.index < |axis| - 1 {
      assert axis[r.index] < axis[|axis| - 1];
    }
  }

  /** The angles around a target on the circle, a turn back or ahead at the ends. */
  function LowerAngle(axis: seq<real>, target: real): real
    requires OneTurn(axis)
  {
    axis[PeriodicBracket(axis, target).lower] - if target < axis[0] then 360.0 else 0.0
  }

  function UpperAngle(axis: seq<real>, target: real): real
    requires OneTurn(axis)
  {
    axis[PeriodicBracket(axis, target).upper] + if target > axis[|axis| - 1] then 360.0 else 0.0
  }

  lemma {:induction false} PeriodicAngles(axis: seq<real>, target: real)
    requires OneTurn(axis) && 0.0 <= target < 360.0
    ensures
      var b, lower, upper := PeriodicBracket(axis, target), LowerAngle(axis, target), UpperAngle(axis, target);
      if b.lower == b.upper then b.fraction == 0.0 && lower == upper == target
      else lower < target < upper && b.fraction == (target - lower) / (upper - lower)
    ensures
      var b := PeriodicBracket(axis, target);
      b.upper == b.lower || b.upper == b.lower + 1 || (b.lower == |axis| - 1 && b.upper == 0)
  {
    var r, last := Find(axis, target), |axis| - 1;
    assert axis[0] < axis[last];
    if r.Exact? {
      InnerExact(axis, r.index);
    } else if 0 < r.index < |axis| {
      InnerGap(axis, target, r.index);
    }
  }

  lemma {:induction false} PeriodicFraction(axis: seq<real>, target: real)
    requires OneTurn(axis) && 0.0 <= target < 360.0
    ensures 0.0 <= PeriodicBracket(axis, target).fraction < 1.0
  {
    PeriodicAngles(axis, target);
    var b := PeriodicBracket(axis, target);
    if b.lower != b.upper {
      FractionBetween(LowerAngle(axis, target), target, UpperAngle(axis, target), b.fraction);
    }
  }

  lemma {:induction false} FractionBetween(lower: real, target: real, upper: real, fraction: real)
    requires lower < target < upper && fraction == (target - lower) / (upper - lower)
    ensures 0.0 <= fraction < 1.0
  {
    FractionInside(lower, target, upper);
  }

  lemma {:induction false} InnerGap(axis: seq<real>, target: real, i: nat)
    requires Increasing(axis) && 0 < i < |axis| && axis[i - 1] < target < axis[i]
    ensures axis[0] < target < axis[|axis| - 1]
  {
    assert i > 1 ==> axis[0] < axis[i - 1];
    assert i < |axis| - 1 ==> axis[i] < axis[|axis| - 1];
  }

  lemma {:induction false} InnerExact(axis: seq<real>, i: nat)
    requires Increasing(axis) && i < |axis|
    ensures axis[0] <= axis[i] <= axis[|axis| - 1]
  {
    assert i > 0 ==> axis[0] < axis[i];
    assert i < |axis| - 1 ==> axis[i] < axis[|axis| - 1];
  }

  // ----- Interpolation in power -----

  /** Decibels to linear power and back. */
  datatype Scale = Scale(power: real -> real, db: real -> real)

  ghost predicate ScaleOk(s: Scale) {
    && (forall x :: s.power(x) > 0.0 && s.db(s.power(x)) == x)
    && (forall x, y :: x < y ==> s.power(x) < s.power(y))
    && (forall p :: p > 0.0 ==> s.power(s.db(p)) == p)
  }

  /** Such maps exist: one that is exact in the reals, linear above and reciprocal below zero. */
  function SamplePower(x: real): real { if x >= 0.0 then 1.0 + x else 1.0 / (1.0 - x) }

  function SampleDb(p: real): real { if p >= 1.0 then p - 1.0 else if p > 0.0 then 1.0 - 1.0 / p else 0.0 }

  lemma {:induction false} Reciprocal(y: real)
    requires y > 0.0
    ensures 1.0 / y > 0.0 && 1.0 / (1.0 / y) == y && (y > 1.0 <==> 1.0 / y < 1.0)
  {
    assert 1.0 / y * y == 1.0;
  }

  lemma {:induction false} ReciprocalFalls(y: real, z: real)
    requires 0.0 < y < z
    ensures 1.0 / z < 1.0 / y
  {
    var a, b := 1.0 / y, 1.0 / z;
    assert a * y == 1.0 && b * z == 1.0;
    Reciprocal(z);
    Grows(b, y, z);
    if b >= a {
      Scaled(b - a, y);
    }
  }

  lemma {:induction false} Grows(w: real, y: real, z: real)
    requires w > 0.0 && y < z
    ensures w * y < w * z
  {
  }

  lemma {:induction false} SamplePoint(x: real)
    ensures SamplePower(x) > 0.0 && SampleDb(SamplePower(x)) == x
    ensures x > 0.0 ==> SamplePower(SampleDb(x)) == x
  {
    if x < 0.0 {
      Reciprocal(1.0 - x);
    } else if 0.0 < x < 1.0 {
      Reciprocal(x);
    }
  }

  lemma {:induction false} SampleRises(x: real, y: real)
    requires x < y
    ensures SamplePower(x) < SamplePower(y)
  {
    if x < 0.0 {
      Reciprocal(1.0 - x);
      if y < 0.0 {
        ReciprocalFalls(1.0 - y, 1.0 - x);
      }
    }
  }

  lemma {:induction false} ScaleExists()
    ensures ScaleOk(Scale(SamplePower, SampleDb))
  {
    forall x ensures SamplePower(x) > 0.0 && SampleDb(SamplePower(x)) == x {
      SamplePoint(x);
    }
    forall x, y ensures x < y ==> SamplePower(x) < SamplePower(y) {
      if x < y {
        SampleRises(x, y);
      }
    }
    forall p ensures p > 0.0 ==> SamplePower(SampleDb(p)) == p {
      SamplePoint(p);
    }
  }

  function Interpolate(s: Scale, left: real, right: real, fraction: real): real {
    s.db(s.power(left) * (1.0 - fraction) + s.power(right) * fraction)
  }

  function Min(a: real, b: real): real { if a < b then a else b }

  function Max(a: real, b: real): real { if a < b then b else a }

  lemma {:induction false} Blend(a: real, b: real, f: real)
    requires 0.0 <= f <= 1.0
    ensures Min(a, b) <= a * (1.0 - f) + b * f <= Max(a, b)
  {
    assert a * (1.0 - f) + b * f == a + (b - a) * f;
    assert a * (1.0 - f) + b * f == b + (a - b) * (1.0 - f);
    if a <= b {
      Scaled(b - a, f);
      Scaled(b - a, 1.0 - f);
      assert (a - b) * (1.0 - f) == -((b - a) * (1.0 - f));
    } else {
      Scaled(a - b, f);
      Scaled(a - b, 1.0 - f);
      assert (b - a) * f == -((a - b) * f);
    }
  }

  lemma {:induction false} Scaled(w: real, f: real)
    requires w >= 0.0 && f >= 0.0
    ensures w * f >= 0.0
  {
  }

  /** The result lies between the two gains, and is the first one at fraction zero. */
  lemma {:induction false} InterpolateBetween(s: Scale, left: real, right: real, f: real)
    requires ScaleOk(s) && 0.0 <= f <= 1.0
    ensures Min(left, right) <= Interpolate(s, left, right, f) <= Max(left, right)
    ensures f == 0.0 ==> Interpolate(s, left, right, f) == left
  {
    var lo, hi := Min(left, right), Max(left, right);
    var p := s.power(left) * (1.0 - f) + s.power(right) * f;
    Blend(s.power(left), s.power(right), f);
    assert s.power(lo) <= p <= s.power(hi);
    InRange(s, lo, p, hi);
  }

  lemma {:induction false} InRange(s: Scale, lo: real, p: real, hi: real)
    requires ScaleOk(s) && s.power(lo) <= p <= s.power(hi)
    ensures lo <= s.db(p) <= hi
  {
    assert s.power(lo) > 0.0;
    assert s.power(s.db(p)) == p;
  }

  // ----- The pattern -----

  datatype Gain = Gain(coPolar: real, crossPolar: Option<real>)

  datatype Component = CoPolar | CrossPolar

  /** One row of gains per elevation. */
  datatype Grid = Grid(azimuths: seq<real>, elevations: seq<real>, rows: seq<seq<Gain>>)

  ghost predicate GridOk(g: Grid) {
    && OneTurn(g.azimuths) && Increasing(g.elevations) && |g.elevations| >= 2
    && |g.rows| == |g.elevations| && forall i | 0 <= i < |g.rows| :: |g.rows[i]| == |g.azimuths|
  }

  function Of(gain: Gain, component: Component): Result<real> {
    match component
    case CoPolar => Ok(gain.coPolar)
    case CrossPolar => if gain.crossPolar.Some? then Ok(gain.crossPolar.value) else Unsupported
  }

  function SampleDirection(s: Scale, g: Grid, azimuth: real, elevation: real, component: Component): Result<real>
    requires GridOk(g)
  {
    if elevation <= -90.0 then Of(g.rows[0][0], component)
    else if elevation >= 90.0 then Of(g.rows[|g.rows| - 1][0], component)
    else
      var az, el := PeriodicBracket(g.azimuths, azimuth), BoundedBracket(g.elevations, elevation);
      var a, b := Of(g.rows[el.lower][az.lower], component), Of(g.rows[el.lower][az.upper], component);
      var c, d := Of(g.rows[el.upper][az.lower], component), Of(g.rows[el.upper][az.upper], component);
      if a.Unsupported? || b.Unsupported? || c.Unsupported? || d.Unsupported? then Unsupported
      else
        var lower := Interpolate(s, a.value, b.value, az.fraction);
        var upper := Interpolate(s, c.value, d.value, az.fraction);
        Ok(Interpolate(s, lower, upper, el.fraction))
  }

  ghost predicate Within(g: Grid, component: Component, lo: real, hi: real) {
    forall i, j | 0 <= i < |g.rows| && 0 <= j < |g.rows[i]| ::
      Of(g.rows[i][j], component).Ok? && lo <= Of(g.rows[i][j], component).value <= hi
  }

  /** Interpolation never leaves the range of the pattern. */
  lemma {:induction false} SampleWithin(s: Scale, g: Grid, azimuth: real, elevation: real, component: Component, lo: real, hi: real)
    requires ScaleOk(s) && GridOk(g) && 0.0 <= azimuth < 360.0 && Within(g, component, lo, hi)
    ensures
      var r := SampleDirection(s, g, azimuth, elevation, component);
      r.Ok? && lo <= r.value <= hi
  {
    if -90.0 < elevation < 90.0 {
      var az, el := PeriodicBracket(g.azimuths, azimuth), BoundedBracket(g.elevations, elevation);
      PeriodicFraction(g.azimuths, azimuth);
      BoundedBracketPlaces(g.elevations, elevation);
      var a, b := Of(g.rows[el.lower][az.lower], component).value, Of(g.rows[el.lower][az.upper], component).value;
      var c, d := Of(g.rows[el.upper][az.lower], component).value, Of(g.rows[el.upper][az.upper], component).value;
      InterpolateBetween(s, a, b, az.fraction);
      InterpolateBetween(s, c, d, az.fraction);
      InterpolateBetween(s, Interpolate(s, a, b, az.fraction), Interpolate(s, c, d, az.fraction), el.fraction);
    }
  }

  lemma {:induction false} FindExact(axis: seq<real>, i: nat)
    requires Increasing(axis) && i < |axis|
    ensures Find(axis, axis[i]) == Exact(i)
  {
    if i > 0 {
      assert axis[0] < axis[i];
      assert axis[1..][i - 1] == axis[i];
      FindExact(axis[1..], i - 1);
    }
  }

  /** At a grid point between the poles the stored gain comes back. */
  lemma {:induction false} SampleAtGridPoint(s: Scale, g: Grid, i: nat, j: nat, component: Component)
    requires ScaleOk(s) && GridOk(g) && i < |g.elevations| && j < |g.azimuths| && -90.0 < g.elevations[i] < 90.0
    ensures SampleDirection(s, g, g.azimuths[j], g.elevations[i], component) == Of(g.rows[i][j], component)
  {
    FindExact(g.azimuths, j);
    FindExact(g.elevations, i);
    var a := Of(g.rows[i][j], component);
    if a.Ok? {
      InterpolateBetween(s, a.value, a.value, 0.0);
    }
  }

  // ----- Across frequencies -----

  datatype Pattern = Pattern(hz: real, rows: seq<seq<Gain>>)

  datatype Antenna = Antenna(azimuths: seq<real>, elevations: seq<real>, patterns: seq<Pattern>)

  function At(a: Antenna, i: nat): Grid
    requires i < |a.patterns|
  {
    Grid(a.azimuths, a.elevations, a.patterns[i].rows)
  }

  function Hz(a: Antenna): (r: seq<real>)
    ensures |r| == |a.patterns|
  {
    seq(|a.patterns|, i requires 0 <= i < |a.patterns| => a.patterns[i].hz)
  }

  ghost predicate AntennaOk(a: Antenna) {
    Increasing(Hz(a)) && forall i: nat | i < |a.patterns| :: GridOk(At(a, i))
  }

  /** One gain per pattern combined across frequency. */
  function AcrossFrequency(s: Scale, axis: seq<real>, hz: real, gain: nat -> Result<real>): Result<real>
    requires Increasing(axis)
  {
    match Find(axis, hz)
    case Exact(i) => gain(i)
    case Gap(i) =>
      if i == 0 || i == |axis| then Unsupported
      else
        var lower, upper := gain(i - 1), gain(i);
        if lower.Unsupported? || upper.Unsupported? then Unsupported
        else Ok(Interpolate(s, lower.value, upper.value, (hz - axis[i - 1]) / (axis[i] - axis[i - 1])))
  }

  function EvaluateGain(s: Scale, a: Antenna, hz: real, azimuth: real, elevation: real, component: Component): Result<real>
    requires AntennaOk(a)
  {
    AcrossFrequency(s, Hz(a), hz, DirectionGain(s, a, azimuth, elevation, component))
  }

  /** The gain of each pattern in one direction. */
  function DirectionGain(s: Scale, a: Antenna, azimuth: real, elevation: real, component: Component): nat -> Result<real>
    requires AntennaOk(a)
  {
    (i: nat) => if i < |a.patterns| then SampleDirection(s, At(a, i), azimuth, elevation, component) else Unsupported
  }

  ghost predicate InRangeHz(a: Antenna, hz: real) {
    a.patterns != [] && a.patterns[0].hz <= hz <= a.patterns[|a.patterns| - 1].hz
  }

  lemma {:induction false} InRangeFound(axis: seq<real>, x: real)
    requires Increasing(axis)
    ensures
      var r := Find(axis, x);
      (r.Exact? || 0 < r.index < |axis|) <==> axis != [] && axis[0] <= x <= axis[|axis| - 1]
  {
    var r := Find(axis, x);
    if r.Exact? {
      InnerExact(axis, r.index);
    } else if 0 < r.index < |axis| {
      InnerGap(axis, x, r.index);
    }
  }

  ghost predicate Gives(gain: nat -> Result<real>, i: nat, lo: real, hi: real) {
    gain(i).Ok? && lo <= gain(i).value <= hi
  }

  lemma {:induction false} AcrossWithin(s: Scale, axis: seq<real>, hz: real, gain: nat -> Result<real>, lo: real, hi: real)
    requires ScaleOk(s) && Increasing(axis) && forall i: nat | i < |axis| :: Gives(gain, i, lo, hi)
    ensures
      var r := AcrossFrequency(s, axis, hz, gain);
      (r.Ok? <==> axis != [] && axis[0] <= hz <= axis[|axis| - 1]) && (r.Ok? ==> lo <= r.value <= hi)
  {
    var r := Find(axis, hz);
    InRangeFound(axis, hz);
    if r.Exact? {
      assert Gives(gain, r.index, lo, hi);
    } else if 0 < r.index < |axis| {
      var i := r.index;
      assert Gives(gain, i - 1, lo, hi) && Gives(gain, i, lo, hi);
      BetweenPatterns(s, gain(i - 1).value, gain(i).value, axis[i - 1], hz, axis[i], lo, hi);
    }
  }

  lemma {:induction false} DirectionWithin(
    s: Scale, a: Antenna, azimuth: real, elevation: real, component: Component, lo: real, hi: real, i: nat)
    requires ScaleOk(s) && AntennaOk(a) && 0.0 <= azimuth < 360.0 && i < |a.patterns| && Within(At(a, i), component, lo, hi)
    ensures Gives(DirectionGain(s, a, azimuth, elevation, component), i, lo, hi)
  {
    SampleWithin(s, At(a, i), azimuth, elevation, component, lo, hi);
  }

  /** A gain is given exactly for frequencies in the table's range, and lies within the table's gains. */
  lemma {:induction false} GainWithin(
    s: Scale, a: Antenna, hz: real, azimuth: real, elevation: real, component: Component, lo: real, hi: real)
    requires ScaleOk(s) && AntennaOk(a) && 0.0 <= azimuth < 360.0
    requires forall i: nat | i < |a.patterns| :: Within(At(a, i), component, lo, hi)
    ensures
      var r := EvaluateGain(s, a, hz, azimuth, elevation, component);
      (r.Ok? <==> InRangeHz(a, hz)) && (r.Ok? ==> lo <= r.value <= hi)
  {
    var gain := DirectionGain(s, a, azimuth, elevation, component);
    forall i: nat | i < |a.patterns| ensures Gives(gain, i, lo, hi) {
      DirectionWithin(s, a, azimuth, elevation, component, lo, hi, i);
    }
    AcrossWithin(s, Hz(a), hz, gain, lo, hi);
  }

  lemma {:induction false} BetweenPatterns(
    s: Scale, lower: real, upper: real, below: real, hz: real, above: real, lo: real, hi: real)
    requires ScaleOk(s) && below < hz < above && lo <= lower <= hi && lo <= upper <= hi
    ensures lo <= Interpolate(s, lower, upper, (hz - below) / (above - below)) <= hi
  {
    FractionInside(below, hz, above);
    InterpolateBetween(s, lower, upper, (hz - below) / (above - below));
  }
}
