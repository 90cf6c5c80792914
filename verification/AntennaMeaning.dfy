/** What an evaluated gain is: a blend, in linear power, of the stored gains around the direction and the frequency. */
module AntennaMeaning {
  import opened AntennaPattern

  // ----- Blends -----

  /** The power of an interpolated gain is linear in the fraction. */
  lemma {:induction false} PowerIsLinear(s: Scale, left: real, right: real, f: real)
    requires ScaleOk(s) && 0.0 <= f <= 1.0
    ensures s.power(Interpolate(s, left, right, f)) == s.power(left) + f * (s.power(right) - s.power(left))
  {
    var p := s.power(left) * (1.0 - f) + s.power(right) * f;
    Blend(s.power(left), s.power(right), f);
    assert s.power(left) > 0.0 && s.power(right) > 0.0;
    assert p > 0.0;
    assert s.power(s.db(p)) == p;
  }

  ghost predicate Stores(gain: Gain, component: Component, r: Result<real>) {
    if component == CoPolar then r == Ok(gain.coPolar)
    else if gain.crossPolar.None? then r == Unsupported
    else r == Ok(gain.crossPolar.value)
  }

  /** `x` divides the way from `a` to `b` by the fraction. */
  ghost predicate Divides(a: real, x: real, b: real, f: real) { 0.0 <= f < 1.0 && x - a == f * (b - a) }

  lemma {:induction false} Divided(a: real, x: real, b: real)
    requires a <= x < b
    ensures Divides(a, x, b, (x - a) / (b - a))
  {
    FractionInside(a, x, b);
  }

  /** The elevation, kept within the axis, lies between neighbours or on one value. */
  ghost predicate OnAxis(axis: seq<real>, target: real, lower: nat, upper: nat, f: real) {
    && lower < |axis| && upper < |axis| && (upper == lower || upper == lower + 1)
    && if target <= axis[0] then lower == upper == 0 && f == 0.0
       else if target >= axis[|axis| - 1] then lower == upper == |axis| - 1 && f == 0.0
       else if lower == upper then target == axis[lower] && f == 0.0
       else axis[lower] < target < axis[upper] && Divides(axis[lower], target, axis[upper], f)
  }

  lemma {:induction false} BoundedMeans(axis: seq<real>, target: real)
    requires Increasing(axis) && |axis| >= 2
    ensures
      var b := BoundedBracket(axis, target);
      OnAxis(axis, target, b.lower, b.upper, b.fraction)
  {
    var r, last := Find(axis, target), |axis| - 1;
    assert axis[0] < axis[last];
    if r.Exact? {
      InnerExact(axis, r.index);
      OnlyThere(axis, r.index);
    } else if 0 < r.index < |axis| {
      InnerGap(axis, target, r.index);
      Divided(axis[r.index - 1], target, axis[r.index]);
    }
  }

  lemma {:induction false} OnlyThere(axis: seq<real>, i: nat)
    requires Increasing(axis) && i < |axis|
    ensures axis[i] <= axis[0] ==> i == 0
    ensures axis[i] >= axis[|axis| - 1] ==> i == |axis| - 1
  {
    assert i > 0 ==> axis[0] < axis[i];
    assert i < |axis| - 1 ==> axis[i] < axis[|axis| - 1];
  }

  /** The azimuth lies on a value, between neighbours, or between the last value and the first a turn on. */
  ghost predicate OnCircle(axis: seq<real>, target: real, lower: nat, upper: nat, f: real) {
    && lower < |axis| && upper < |axis|
    && if lower == upper then target == axis[lower] && f == 0.0
       else if upper == lower + 1 && axis[lower] < target < axis[upper] then Divides(axis[lower], target, axis[upper], f)
       else
         && lower == |axis| - 1 && upper == 0
         && (if target < axis[0] then Divides(axis[lower] - 360.0, target, axis[0], f)
             else target > axis[lower] && Divides(axis[lower], target, axis[0] + 360.0, f))
  }

  lemma {:induction false} PeriodicMeans(axis: seq<real>, target: real)
    requires OneTurn(axis) && 0.0 <= target < 360.0
    ensures
      var b := PeriodicBracket(axis, target);
      OnCircle(axis, target, b.lower, b.upper, b.fraction)
  {
    var r, last := Find(axis, target), |axis| - 1;
    assert axis[0] < axis[last];
    if r.Gap? {
      if r.index == 0 {
        Divided(axis[last] - 360.0, target, axis[0]);
      } else if r.index == |axis| {
        Divided(axis[last], target, axis[0] + 360.0);
      } else {
        Divided(axis[r.index - 1], target, axis[r.index]);
      }
    }
  }

  // ----- One pattern -----

  /** The stored gain of a grid point. */
  ghost predicate Holds(g: Grid, i: nat, j: nat, component: Component, r: Result<real>) {
    i < |g.rows| && j < |g.rows[i]| && Stores(g.rows[i][j], component, r)
  }

  /** The four stored gains around a direction. */
  datatype Corners = Corners(a: Result<real>, b: Result<real>, c: Result<real>, d: Result<real>)

  ghost predicate Around(g: Grid, el: Bracket, az: Bracket, component: Component, q: Corners) {
    && Holds(g, el.lower, az.lower, component, q.a) && Holds(g, el.lower, az.upper, component, q.b)
    && Holds(g, el.upper, az.lower, component, q.c) && Holds(g, el.upper, az.upper, component, q.d)
  }

  /** The power between four powers, first along the azimuth and then along the elevation. */
  ghost function Bilinear(p: real, q: real, r: real, t: real, u: real, v: real): real {
    var lower, upper := p + u * (q - p), r + u * (t - r);
    lower + v * (upper - lower)
  }

  ghost predicate Blends(s: Scale, q: Corners, u: real, v: real, r: Result<real>) {
    if q.a.Unsupported? || q.b.Unsupported? || q.c.Unsupported? || q.d.Unsupported? then r == Unsupported
    else r.Ok? && s.power(r.value) ==
           Bilinear(s.power(q.a.value), s.power(q.b.value), s.power(q.c.value), s.power(q.d.value), u, v)
  }

  /** What a sampled direction means: at a pole its one gain, elsewhere the blend of the four gains around it. */
  ghost predicate Sampled(s: Scale, g: Grid, azimuth: real, elevation: real, component: Component, r: Result<real>) {
    if elevation <= -90.0 then Holds(g, 0, 0, component, r)
    else if elevation >= 90.0 then |g.rows| > 0 && Holds(g, |g.rows| - 1, 0, component, r)
    else exists el: Bracket, az: Bracket, q: Corners ::
      && OnAxis(g.elevations, elevation, el.lower, el.upper, el.fraction)
      && OnCircle(g.azimuths, azimuth, az.lower, az.upper, az.fraction)
      && Around(g, el, az, component, q) && Blends(s, q, az.fraction, el.fraction, r)
  }

  lemma {:induction false} BlendsFour(s: Scale, a: real, b: real, c: real, d: real, u: real, v: real)
    requires ScaleOk(s) && 0.0 <= u < 1.0 && 0.0 <= v < 1.0
    ensures s.power(Interpolate(s, Interpolate(s, a, b, u), Interpolate(s, c, d, u), v)) ==
            Bilinear(s.power(a), s.power(b), s.power(c), s.power(d), u, v)
  {
    PowerIsLinear(s, a, b, u);
    PowerIsLinear(s, c, d, u);
    PowerIsLinear(s, Interpolate(s, a, b, u), Interpolate(s, c, d, u), v);
  }

  lemma {:induction false} FractionOf(axis: seq<real>, target: real, lower: nat, upper: nat, f: real)
    requires OnAxis(axis, target, lower, upper, f) || OnCircle(axis, target, lower, upper, f)
    ensures 0.0 <= f < 1.0
  {
  }

  lemma {:induction false} SampleMeans(s: Scale, g: Grid, azimuth: real, elevation: real, component: Component)
    requires ScaleOk(s) && GridOk(g) && 0.0 <= azimuth < 360.0
    ensures Sampled(s, g, azimuth, elevation, component, SampleDirection(s, g, azimuth, elevation, component))
  {
    if -90.0 < elevation < 90.0 {
      var az, el := PeriodicBracket(g.azimuths, azimuth), BoundedBracket(g.elevations, elevation);
      PeriodicMeans(g.azimuths, azimuth);
      BoundedMeans(g.elevations, elevation);
      FractionOf(g.azimuths, azimuth, az.lower, az.upper, az.fraction);
      FractionOf(g.elevations, elevation, el.lower, el.upper, el.fraction);
      var q := Corners(
        Of(g.rows[el.lower][az.lower], component), Of(g.rows[el.lower][az.upper], component),
        Of(g.rows[el.upper][az.lower], component), Of(g.rows[el.upper][az.upper], component));
      assert Around(g, el, az, component, q);
      if q.a.Ok? && q.b.Ok? && q.c.Ok? && q.d.Ok? {
        BlendsFour(s, q.a.value, q.b.value, q.c.value, q.d.value, az.fraction, el.fraction);
      }
      assert Blends(s, q, az.fraction, el.fraction, SampleDirection(s, g, azimuth, elevation, component));
    }
  }

  // ----- All patterns -----

  /** The gain of pattern `i` in the direction. */
  ghost predicate PatternGives(
    s: Scale, a: Antenna, i: nat, azimuth: real, elevation: real, component: Component, r: Result<real>)
  {
    i < |a.patterns| && Sampled(s, Grid(a.azimuths, a.elevations, a.patterns[i].rows), azimuth, elevation, component, r)
  }

  /** Between two frequencies, power is linear in frequency. */
  ghost predicate LinearBetween(s: Scale, below: real, hz: real, above: real, lower: real, upper: real, x: real) {
    exists f :: Divides(below, hz, above, f) && s.power(x) == s.power(lower) + f * (s.power(upper) - s.power(lower))
  }

  ghost predicate Combines(
    s: Scale, below: real, hz: real, above: real, lower: Result<real>, upper: Result<real>, r: Result<real>)
  {
    && below < hz < above
    && if lower.Unsupported? || upper.Unsupported? then r == Unsupported
       else r.Ok? && LinearBetween(s, below, hz, above, lower.value, upper.value, r.value)
  }

  /** Every pattern gives its gain in the direction. */
  ghost predicate AllGive(s: Scale, a: Antenna, azimuth: real, elevation: real, component: Component, gain: nat -> Result<real>) {
    forall i: nat | i < |a.patterns| :: PatternGives(s, a, i, azimuth, elevation, component, gain(i))
  }

  /** The gain of the pattern at the frequency, or the blend of its neighbours, or none out of range. */
  ghost predicate AtFrequency(s: Scale, a: Antenna, hz: real, gain: nat -> Result<real>, r: Result<real>) {
    || (r == Unsupported && !InRangeHz(a, hz))
    || (exists i: nat :: i < |a.patterns| && a.patterns[i].hz == hz && r == gain(i))
    || (exists i: nat :: Straddles(s, a, i, hz, gain, r))
  }

  ghost predicate Straddles(s: Scale, a: Antenna, i: nat, hz: real, gain: nat -> Result<real>, r: Result<real>) {
    i + 1 < |a.patterns| && Combines(s, a.patterns[i].hz, hz, a.patterns[i + 1].hz, gain(i), gain(i + 1), r)
  }

  ghost predicate Evaluated(s: Scale, a: Antenna, hz: real, azimuth: real, elevation: real, component: Component, r: Result<real>) {
    exists gain :: AllGive(s, a, azimuth, elevation, component, gain) && AtFrequency(s, a, hz, gain, r)
  }

  lemma {:induction false} PatternMeans(s: Scale, a: Antenna, i: nat, azimuth: real, elevation: real, component: Component)
    requires ScaleOk(s) && AntennaOk(a) && 0.0 <= azimuth < 360.0 && i < |a.patterns|
    ensures PatternGives(s, a, i, azimuth, elevation, component, DirectionGain(s, a, azimuth, elevation, component)(i))
  {
    SampleMeans(s, At(a, i), azimuth, elevation, component);
  }

  lemma {:induction false} LinearMeans(s: Scale, below: real, hz: real, above: real, lower: real, upper: real)
    requires ScaleOk(s) && below < hz < above
    ensures LinearBetween(s, below, hz, above, lower, upper, Interpolate(s, lower, upper, (hz - below) / (above - below)))
  {
    Divided(below, hz, above);
    PowerIsLinear(s, lower, upper, (hz - below) / (above - below));
  }

  lemma {:induction false} AcrossMeans(s: Scale, axis: seq<real>, hz: real, gain: nat -> Result<real>, i: nat)
    requires ScaleOk(s) && Increasing(axis) && Find(axis, hz) == Gap(i + 1) && i + 1 < |axis|
    ensures Combines(s, axis[i], hz, axis[i + 1], gain(i), gain(i + 1), AcrossFrequency(s, axis, hz, gain))
  {
    var lower, upper := gain(i), gain(i + 1);
    if lower.Ok? && upper.Ok? {
      LinearMeans(s, axis[i], hz, axis[i + 1], lower.value, upper.value);
    }
  }

  lemma {:induction false} FrequencyMeans(s: Scale, a: Antenna, hz: real, gain: nat -> Result<real>)
    requires ScaleOk(s) && AntennaOk(a)
    ensures AtFrequency(s, a, hz, gain, AcrossFrequency(s, Hz(a), hz, gain))
  {
    var found := Find(Hz(a), hz);
    InRangeFound(Hz(a), hz);
    if found.Exact? {
      assert a.patterns[found.index].hz == hz;
    } else if 0 < found.index < |a.patterns| {
      AcrossMeans(s, Hz(a), hz, gain, found.index - 1);
      assert Straddles(s, a, found.index - 1, hz, gain, AcrossFrequency(s, Hz(a), hz, gain));
    }
  }

  lemma {:induction false} AllPatternsMean(s: Scale, a: Antenna, azimuth: real, elevation: real, component: Component)
    requires ScaleOk(s) && AntennaOk(a) && 0.0 <= azimuth < 360.0
    ensures AllGive(s, a, azimuth, elevation, component, DirectionGain(s, a, azimuth, elevation, component))
  {
    forall i: nat | i < |a.patterns|
      ensures PatternGives(s, a, i, azimuth, elevation, component, DirectionGain(s, a, azimuth, elevation, component)(i))
    {
      PatternMeans(s, a, i, azimuth, elevation, component);
    }
  }

  /** An evaluated gain is that of the pattern of its frequency, or the blend in power of its two neighbours, or none out of range. */
  lemma {:induction false} EvaluateMeans(s: Scale, a: Antenna, hz: real, azimuth: real, elevation: real, component: Component)
    requires ScaleOk(s) && AntennaOk(a) && 0.0 <= azimuth < 360.0
    ensures Evaluated(s, a, hz, azimuth, elevation, component, EvaluateGain(s, a, hz, azimuth, elevation, component))
  {
    var gain := DirectionGain(s, a, azimuth, elevation, component);
    AllPatternsMean(s, a, azimuth, elevation, component);
    FrequencyMeans(s, a, hz, gain);
  }
}
