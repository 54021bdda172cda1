/// `define_parabola`, identical in both layout variants
/// (utils_plot.py and utils/gibbs_diagram.py): the curve drawn for a
/// transition state. Each half is the exact quadratic `np.polyfit` finds
/// through three points, evaluated (`np.polyval`) at 50 evenly spaced
/// abscissae (`np.linspace`), computed over the reals.
module Parabola {
  import opened Py

  /** Points per half of the curve. */
  const HalfSamples: nat := 50

  /** Added to each endpoint so that the apex lies strictly above both. */
  const Epsilon: real := 0.01

  /** The `k`-th of `HalfSamples` evenly spaced points from `a` to `b`. */
  function Spaced(a: real, b: real, k: nat): real {
    a + (k as real) * (b - a) / ((HalfSamples - 1) as real)
  }

  /** `np.linspace(a, b, 50)`. */
  function Linspace(a: real, b: real): (r: seq<real>)
    ensures |r| == HalfSamples
    ensures r[0] == a && r[HalfSamples - 1] == b
    ensures forall k :: 0 <= k < HalfSamples ==> r[k] == Spaced(a, b, k)
  {
    seq(HalfSamples, k requires 0 <= k < HalfSamples => Spaced(a, b, k))
  }

  /** The apex height `max(y_start + 0.01, y_max, y_end + 0.01)`. */
  function Apex(yStart: real, yMax: real, yEnd: real): (r: real)
    ensures r >= yStart + Epsilon && r >= yMax && r >= yEnd + Epsilon
    ensures r == yStart + Epsilon || r == yMax || r == yEnd + Epsilon
  {
    Max(Max(yStart + Epsilon, yMax), yEnd + Epsilon)
  }

  /** The value at `x` of the least-squares quadratic through
      `(xStart, yOuter)`, `((xStart + xEnd) / 2, yMid)` and `(xEnd, yOuter)`.
      With distinct abscissae it is the interpolating parabola with its vertex
      at the midpoint; with `xStart == xEnd` the three points share one abscissa
      and every least-squares fit takes the mean of the three values there. */
  function FitValue(xStart: real, xEnd: real, yOuter: real, yMid: real, x: real): real {
    if xStart == xEnd then (2.0 * yOuter + yMid) / 3.0
    else
      var u := (x - (xStart + xEnd) / 2.0) / ((xEnd - xStart) / 2.0);
      yMid - (yMid - yOuter) * (u * u)
  }

  /** The fit is a polynomial of degree at most two that passes through the
      three points, hence the one `np.polyfit(x_vals, y_vals, 2)` returns. */
  lemma FitIsInterpolatingQuadratic(xStart: real, xEnd: real, yOuter: real, yMid: real)
    returns (a: real, b: real, c: real)
    requires xStart != xEnd
    ensures FitValue(xStart, xEnd, yOuter, yMid, xStart) == yOuter
    ensures FitValue(xStart, xEnd, yOuter, yMid, (xStart + xEnd) / 2.0) == yMid
    ensures FitValue(xStart, xEnd, yOuter, yMid, xEnd) == yOuter
    ensures forall x :: FitValue(xStart, xEnd, yOuter, yMid, x) == a * x * x + b * x + c
  {
    var h := (xEnd - xStart) / 2.0;
    var m := (xStart + xEnd) / 2.0;
    a := -(yMid - yOuter) / (h * h);
    b := -2.0 * a * m;
    c := yMid + a * m * m;
    assert (xStart - m) / h == -1.0;
    assert (xEnd - m) / h == 1.0;
    forall x ensures FitValue(xStart, xEnd, yOuter, yMid, x) == a * x * x + b * x + c {
      var u := (x - m) / h;
      assert x - m == u * h;
      QuadScale(-(yMid - yOuter), h, x - m, u);
      assert a * x * x + b * x + c == a * ((x - m) * (x - m)) + yMid;
    }
  }

  lemma MulNonZero(a: real, b: real)
    requires a != 0.0 && b != 0.0
    ensures a * b != 0.0
  {
    if a < 0.0 && b < 0.0 {
      assert a * b == (-a) * (-b);
    } else if a < 0.0 {
      assert a * b == -((-a) * b);
    } else if b < 0.0 {
      assert a * b == -(a * (-b));
    }
  }

  /** Dividing by `h * h` undoes the scaling of `d = u * h` in `d * d`. */
  lemma QuadScale(w: real, h: real, d: real, u: real)
    requires h != 0.0 && d == u * h
    ensures (w / (h * h)) * (d * d) == w * (u * u)
  {
    MulNonZero(h, h);
    assert d * d == (u * u) * (h * h);
    assert (w / (h * h)) * (h * h) == w;
  }

  /** `np.polyval` of the fit over an array of abscissae. */
  function Evaluate(xStart: real, xEnd: real, yOuter: real, yMid: real, xs: seq<real>): (r: seq<real>)
    ensures |r| == |xs|
    ensures forall k :: 0 <= k < |xs| ==> r[k] == FitValue(xStart, xEnd, yOuter, yMid, xs[k])
  {
    seq(|xs|, k requires 0 <= k < |xs| => FitValue(xStart, xEnd, yOuter, yMid, xs[k]))
  }

  /** `define_parabola(x_start, x_end, y_start, y_max, y_end)`: the 100 abscissae and
      ordinates of the curve, the first half fitted with `y_start` at both ends and the
      second half with `y_end` at both ends, both through the apex. */
  function DefineParabola(xStart: int, xEnd: int, yStart: real, yMax: real, yEnd: real): (r: (seq<real>, seq<real>))
    ensures |r.0| == |r.1| == 2 * HalfSamples
    ensures r.0[0] == xStart as real && r.0[2 * HalfSamples - 1] == xEnd as real
    ensures r.0[HalfSamples - 1] == r.0[HalfSamples] == (xStart + xEnd) as real / 2.0
    ensures xStart != xEnd ==>
      && r.1[0] == yStart && r.1[2 * HalfSamples - 1] == yEnd
      && r.1[HalfSamples - 1] == r.1[HalfSamples] == Apex(yStart, yMax, yEnd)
  {
    var x0, x1 := xStart as real, xEnd as real;
    var xMid := (x0 + x1) / 2.0;
    var yMid := Apex(yStart, yMax, yEnd);
    var first := Linspace(x0, xMid);
    var second := Linspace(xMid, x1);
    var r := (first + second, Evaluate(x0, x1, yStart, yMid, first) + Evaluate(x0, x1, yEnd, yMid, second));
    assert xStart != xEnd ==>
      (r.1[0] == yStart && r.1[2 * HalfSamples - 1] == yEnd
       && r.1[HalfSamples - 1] == r.1[HalfSamples] == yMid) by {
      if xStart != xEnd {
        var a1, b1, c1 := FitIsInterpolatingQuadratic(x0, x1, yStart, yMid);
        var a2, b2, c2 := FitIsInterpolatingQuadratic(x0, x1, yEnd, yMid);
      }
    }
    r
  }

  /** On the first half the scaled distance to the apex abscissa is `k/49 - 1`, on the second `k/49`. */
  lemma ScaledOffset(x0: real, x1: real, k: nat)
    requires x0 != x1 && k < HalfSamples
    ensures (Spaced(x0, (x0 + x1) / 2.0, k) - (x0 + x1) / 2.0) / ((x1 - x0) / 2.0) == (k as real) / 49.0 - 1.0
    ensures (Spaced((x0 + x1) / 2.0, x1, k) - (x0 + x1) / 2.0) / ((x1 - x0) / 2.0) == (k as real) / 49.0
  {
    var h := (x1 - x0) / 2.0;
    var m := (x0 + x1) / 2.0;
    var t := (k as real) / 49.0;
    assert m - x0 == h && x1 - m == h;
    assert (k as real) * h / 49.0 == h * t;
    DivOf(Spaced(x0, m, k) - m, h, t - 1.0);
    DivOf(Spaced(m, x1, k) - m, h, t);
  }

  lemma DivOf(d: real, h: real, w: real)
    requires h != 0.0 && d == h * w
    ensures d / h == w
  {
  }

  /** The value of one half at sample `k`, written with `t = k / 49`. */
  lemma HalfValue(x0: real, x1: real, yOuter: real, yMid: real, k: nat)
    requires x0 != x1 && k < HalfSamples
    ensures var t := (k as real) / 49.0;
      && FitValue(x0, x1, yOuter, yMid, Spaced(x0, (x0 + x1) / 2.0, k)) == yMid - (yMid - yOuter) * ((t - 1.0) * (t - 1.0))
      && FitValue(x0, x1, yOuter, yMid, Spaced((x0 + x1) / 2.0, x1, k)) == yMid - (yMid - yOuter) * (t * t)
  {
    ScaledOffset(x0, x1, k);
  }

  lemma MulNonNeg(a: real, b: real)
    requires 0.0 <= a && 0.0 <= b
    ensures 0.0 <= a * b
  {
  }

  lemma MulMono(a: real, b: real, c: real)
    requires 0.0 <= c && a <= b
    ensures a * c <= b * c
  {
    MulNonNeg(b - a, c);
    assert (b - a) * c == b * c - a * c;
  }

  lemma UnitSquare(t: real)
    requires 0.0 <= t <= 1.0
    ensures 0.0 <= t * t <= 1.0 && 0.0 <= (t - 1.0) * (t - 1.0) <= 1.0
  {
    MulNonNeg(t, t);
    MulMono(t, 1.0, t);
    var s := 1.0 - t;
    MulNonNeg(s, s);
    MulMono(s, 1.0, s);
    assert (t - 1.0) * (t - 1.0) == s * s;
  }

  /** Sample `k` of either half lies between the outer height and the apex, inside `[x0, x1]`. */
  lemma SampleBounds(x0: real, x1: real, yOuter: real, top: real, k: nat)
    requires x0 < x1 && yOuter <= top && k < HalfSamples
    ensures var m := (x0 + x1) / 2.0;
      && yOuter <= FitValue(x0, x1, yOuter, top, Spaced(x0, m, k)) <= top
      && yOuter <= FitValue(x0, x1, yOuter, top, Spaced(m, x1, k)) <= top
      && x0 <= Spaced(x0, m, k) <= m <= Spaced(m, x1, k) <= x1
  {
    var m := (x0 + x1) / 2.0;
    var t := (k as real) / 49.0;
    HalfValue(x0, x1, yOuter, top, k);
    UnitSquare(t);
    BelowTop(yOuter, top, (t - 1.0) * (t - 1.0));
    BelowTop(yOuter, top, t * t);
    SpacedBetween(x0, m, k);
    SpacedBetween(m, x1, k);
  }

  /** Lowering the apex by a fraction of the rise stays between the outer height and the apex. */
  lemma BelowTop(yOuter: real, top: real, s: real)
    requires yOuter <= top && 0.0 <= s <= 1.0
    ensures yOuter <= top - (top - yOuter) * s <= top
  {
    MulNonNeg(top - yOuter, s);
    MulMono(s, 1.0, top - yOuter);
  }

  lemma SpacedBetween(a: real, b: real, k: nat)
    requires a <= b && k < HalfSamples
    ensures a <= Spaced(a, b, k) <= b
  {
    var kr := k as real;
    MulNonNeg(kr, b - a);
    MulMono(kr, 49.0, b - a);
  }

  /** Every point of the curve lies between its two end heights and the apex,
      the apex is its highest point, it is at least 0.01 above both ends and at
      least the requested height, and the abscissae run from `x_start` to `x_end`. */
  lemma ParabolaBounds(xStart: int, xEnd: int, yStart: real, yMax: real, yEnd: real)
    requires xStart < xEnd
    ensures var xs, ys := DefineParabola(xStart, xEnd, yStart, yMax, yEnd).0, DefineParabola(xStart, xEnd, yStart, yMax, yEnd).1;
      var top := Apex(yStart, yMax, yEnd);
      && top >= Max(yStart, yEnd) + Epsilon && top >= yMax
      && (forall k :: 0 <= k < HalfSamples ==> yStart <= ys[k] <= top)
      && (forall k :: HalfSamples <= k < 2 * HalfSamples ==> yEnd <= ys[k] <= top)
      && (forall k :: 0 <= k < 2 * HalfSamples ==> xStart as real <= xs[k] <= xEnd as real)
  {
    var x0, x1 := xStart as real, xEnd as real;
    var xs, ys := DefineParabola(xStart, xEnd, yStart, yMax, yEnd).0, DefineParabola(xStart, xEnd, yStart, yMax, yEnd).1;
    var top := Apex(yStart, yMax, yEnd);
    var m := (x0 + x1) / 2.0;
    var first, second := Linspace(x0, m), Linspace(m, x1);
    assert xs == first + second;
    assert ys == Evaluate(x0, x1, yStart, top, first) + Evaluate(x0, x1, yEnd, top, second);
    forall k | 0 <= k < 2 * HalfSamples
      ensures k < HalfSamples ==> yStart <= ys[k] <= top
      ensures HalfSamples <= k ==> yEnd <= ys[k] <= top
      ensures x0 <= xs[k] <= x1
    {
      if k < HalfSamples {
        SampleBounds(x0, x1, yStart, top, k);
        assert xs[k] == first[k];
      } else {
        SampleBounds(x0, x1, yEnd, top, k - HalfSamples);
        assert xs[k] == second[k - HalfSamples];
      }
    }
  }

  /** Drawing the barrier from the other side gives the same curve backwards:
      swapping `(x_start, y_start)` with `(x_end, y_end)` reverses both arrays. */
  lemma ParabolaReversal(xStart: int, xEnd: int, yStart: real, yMax: real, yEnd: real)
    ensures var p, q := DefineParabola(xStart, xEnd, yStart, yMax, yEnd), DefineParabola(xEnd, xStart, yEnd, yMax, yStart);
      forall k :: 0 <= k < 2 * HalfSamples ==>
        q.0[k] == p.0[2 * HalfSamples - 1 - k] && q.1[k] == p.1[2 * HalfSamples - 1 - k]
  {
    var x0, x1 := xStart as real, xEnd as real;
    var m := (x0 + x1) / 2.0;
    var top := Apex(yStart, yMax, yEnd);
    assert Apex(yEnd, yMax, yStart) == top;
    assert (x1 + x0) / 2.0 == m;
    Halves(xStart, xEnd, yStart, yMax, yEnd);
    Halves(xEnd, xStart, yEnd, yMax, yStart);
    var p, q := DefineParabola(xStart, xEnd, yStart, yMax, yEnd), DefineParabola(xEnd, xStart, yEnd, yMax, yStart);
    forall k | 0 <= k < 2 * HalfSamples
      ensures q.0[k] == p.0[2 * HalfSamples - 1 - k] && q.1[k] == p.1[2 * HalfSamples - 1 - k]
    {
      if k < HalfSamples {
        // the first half of the swapped curve is the second half of the original, backwards
        HalfReversed(m, x1, x0, x1, yEnd, top, k);
      } else {
        HalfReversed(x0, m, x0, x1, yStart, top, k - HalfSamples);
      }
    }
  }

  /** The two halves `define_parabola` concatenates. */
  lemma Halves(xStart: int, xEnd: int, yStart: real, yMax: real, yEnd: real)
    ensures var x0, x1 := xStart as real, xEnd as real;
      var m, top := (x0 + x1) / 2.0, Apex(yStart, yMax, yEnd);
      && DefineParabola(xStart, xEnd, yStart, yMax, yEnd).0 == Linspace(x0, m) + Linspace(m, x1)
      && DefineParabola(xStart, xEnd, yStart, yMax, yEnd).1
         == Evaluate(x0, x1, yStart, top, Linspace(x0, m)) + Evaluate(x0, x1, yEnd, top, Linspace(m, x1))
  {
  }

  /** One half sampled from `b` to `a` is the half from `a` to `b` backwards, and so
      are its values under the fit with the ends swapped. */
  lemma HalfReversed(a: real, b: real, lo: real, hi: real, yOuter: real, top: real, k: nat)
    requires k < HalfSamples
    ensures Linspace(b, a)[k] == Linspace(a, b)[HalfSamples - 1 - k]
    ensures Evaluate(hi, lo, yOuter, top, Linspace(b, a))[k]
         == Evaluate(lo, hi, yOuter, top, Linspace(a, b))[HalfSamples - 1 - k]
  {
    SpacedReversed(a, b, k);
    FitSwap(lo, hi, yOuter, top, Linspace(b, a)[k]);
  }

  lemma SpacedReversed(a: real, b: real, k: nat)
    requires k < HalfSamples
    ensures Spaced(b, a, k) == Spaced(a, b, HalfSamples - 1 - k)
  {
    var kr := k as real;
    assert ((HalfSamples - 1 - k) as real) == 49.0 - kr;
    assert (49.0 - kr) * (b - a) / 49.0 == (b - a) - kr * (b - a) / 49.0;
    assert kr * (a - b) / 49.0 == -(kr * (b - a) / 49.0);
  }

  lemma FitSwap(x0: real, x1: real, yOuter: real, yMid: real, x: real)
    ensures FitValue(x1, x0, yOuter, yMid, x) == FitValue(x0, x1, yOuter, yMid, x)
  {
    if x0 != x1 {
      var m := (x0 + x1) / 2.0;
      var u := (x - m) / ((x1 - x0) / 2.0);
      var u' := (x - (x1 + x0) / 2.0) / ((x0 - x1) / 2.0);
      assert u' == -u;
    }
  }
}
