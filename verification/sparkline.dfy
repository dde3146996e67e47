/** The sparkline's geometry: a numeric series mapped to a polyline inside a
    300 by 80 view box with 4 units of padding, computed exactly over the reals. */
module Sparkline {

  const Width: real := 300.0
  const Height: real := 80.0
  const Pad: real := 4.0

  /** One path command with its coordinates (the text of the `d` attribute is
      not modelled). */
  datatype Command = MoveTo(x: real, y: real) | LineTo(x: real, y: real)

  /** The memoised result: the path and the series' extremes. */
  datatype Geometry = Geometry(path: seq<Command>, min: real, max: real)

  /** `Math.min(...data)`. */
  function Min(data: seq<real>): (m: real)
    requires |data| > 0
    ensures m in data
    ensures forall i :: 0 <= i < |data| ==> m <= data[i]
  {
    if |data| == 1 then data[0]
    else
      var rest := Min(data[1..]);
      if data[0] <= rest then data[0] else rest
  }

  /** `Math.max(...data)`. */
  function Max(data: seq<real>): (m: real)
    requires |data| > 0
    ensures m in data
    ensures forall i :: 0 <= i < |data| ==> data[i] <= m
  {
    if |data| == 1 then data[0]
    else
      var rest := Max(data[1..]);
      if data[0] >= rest then data[0] else rest
  }

  /** `max - min || 1`: the spread, or 1 for a flat series, so never a zero divisor. */
  function Range(lo: real, hi: real): (r: real)
    ensures r != 0.0
    ensures lo <= hi ==> r > 0.0
    ensures lo < hi ==> r == hi - lo
    ensures lo == hi ==> r == 1.0
  {
    if hi - lo != 0.0 then hi - lo else 1.0
  }

  /** The horizontal position of point `i` of `n`: `(i / (n - 1)) * (w - 8) + 4`.
      With one point this divides zero by zero, hence `n >= 2`. */
  function PointX(i: nat, n: nat): (x: real)
    requires 2 <= n && i < n
    ensures Pad <= x <= Width - Pad
    ensures i == 0 ==> x == Pad
    ensures i == n - 1 ==> x == Width - Pad
  {
    var f := i as real / (n - 1) as real;
    assert 0.0 <= f <= 1.0;
    f * (Width - 2.0 * Pad) + Pad
  }

  /** The vertical position of value `v`: `h - ((v - min) / range) * (h - 8) - 4`. */
  function PointY(v: real, lo: real, range: real): (y: real)
    requires range != 0.0
    ensures v == lo ==> y == Height - Pad
    ensures v == lo + range ==> y == Pad
  {
    assert v == lo + range ==> (v - lo) / range == 1.0;
    Height - ((v - lo) / range) * (Height - 2.0 * Pad) - Pad
  }

  /** The polyline through the points of `data`: one command per value, a
      `MoveTo` for the first and `LineTo` for the rest. */
  function Path(data: seq<real>, lo: real, range: real): (p: seq<Command>)
    requires |data| >= 2 && range != 0.0
    ensures |p| == |data|
    ensures p[0].MoveTo? && forall i :: 0 < i < |p| ==> p[i].LineTo?
    ensures forall i :: 0 <= i < |p| ==> p[i].x == PointX(i, |data|) && p[i].y == PointY(data[i], lo, range)
  {
    seq(|data|, i requires 0 <= i < |data| =>
      if i == 0 then MoveTo(PointX(i, |data|), PointY(data[i], lo, range))
      else LineTo(PointX(i, |data|), PointY(data[i], lo, range)))
  }

  /** The geometry of a series. A one-point series would put its point at
      `x = NaN`; the chart card never draws one. */
  function Layout(data: seq<real>): (g: Geometry)
    requires |data| != 1
    ensures |data| == 0 ==> g == Geometry([], 0.0, 0.0)
    ensures |g.path| == |data|
    ensures |data| > 0 ==> g.min in data && g.max in data
    ensures forall i :: 0 <= i < |data| ==> g.min <= data[i] <= g.max
    ensures |data| > 0 ==> g.path[0].MoveTo? && g.path[0].x == Pad && g.path[|data| - 1].x == Width - Pad
    ensures forall i :: 0 < i < |g.path| ==> g.path[i].LineTo?
    ensures forall i :: 0 <= i < |g.path| ==> Pad <= g.path[i].x <= Width - Pad && Pad <= g.path[i].y <= Height - Pad
    ensures |data| >= 2 ==> g.path == Path(data, g.min, Range(g.min, g.max))
  {
    if |data| == 0 then Geometry([], 0.0, 0.0)
    else
      var lo := Min(data);
      var hi := Max(data);
      var p := Path(data, lo, Range(lo, hi));
      YBounds(data, lo, hi);
      Geometry(p, lo, hi)
  }

  /** Every value between the extremes lands between the padding lines. */
  lemma YBounds(data: seq<real>, lo: real, hi: real)
    requires forall i :: 0 <= i < |data| ==> lo <= data[i] <= hi
    ensures forall i :: 0 <= i < |data| ==>
              Pad <= PointY(data[i], lo, Range(lo, hi)) <= Height - Pad
  {
    forall i | 0 <= i < |data|
      ensures Pad <= PointY(data[i], lo, Range(lo, hi)) <= Height - Pad
    {
      var range := Range(lo, hi);
      var f := (data[i] - lo) / range;
      if lo < hi {
        UnitFraction(data[i] - lo, range);
      } else {
        assert data[i] == lo;
      }
      assert 0.0 <= f <= 1.0;
    }
  }

  lemma UnitFraction(a: real, b: real)
    requires 0.0 <= a <= b && b > 0.0
    ensures 0.0 <= a / b <= 1.0
  {
  }

  /** Points advance strictly left to right. */
  lemma XIncreasing(i: nat, j: nat, n: nat)
    requires 2 <= n && i < j < n
    ensures PointX(i, n) < PointX(j, n)
  {
    var d := (n - 1) as real;
    assert i as real / d < j as real / d;
  }

  /** A larger value is drawn strictly higher (a smaller y), equal values at
      the same height. */
  lemma YAntitone(v: real, w: real, lo: real, range: real)
    requires range > 0.0
    ensures v < w ==> PointY(v, lo, range) > PointY(w, lo, range)
    ensures v == w ==> PointY(v, lo, range) == PointY(w, lo, range)
  {
    if v < w {
      assert (v - lo) / range < (w - lo) / range;
    }
  }

  /** The extremes sit on the padding lines: the minimum on the bottom one at
      76, the maximum, when it differs, on the top one at 4. A flat series lies
      entirely on the bottom line. */
  lemma PointYExtremes(v: real, lo: real, hi: real)
    requires lo <= v <= hi
    ensures v == lo ==> PointY(v, lo, Range(lo, hi)) == Height - Pad
    ensures v == hi && lo < hi ==> PointY(v, lo, Range(lo, hi)) == Pad
    ensures lo == hi ==> PointY(v, lo, Range(lo, hi)) == Height - Pad
  {
    var range := Range(lo, hi);
    if v == lo {
      assert (v - lo) / range == 0.0;
    }
    if v == hi && lo < hi {
      assert range == v - lo;
      assert (v - lo) / range == 1.0;
    }
  }

  /** The same, for the points of a drawn series. */
  lemma ExtremesOnPadding(data: seq<real>, i: nat)
    requires |data| >= 2 && i < |data|
    ensures var g := Layout(data);
            && (data[i] == g.min ==> g.path[i].y == Height - Pad)
            && (data[i] == g.max && g.max > g.min ==> g.path[i].y == Pad)
            && (g.min == g.max ==> g.path[i].y == Height - Pad)
  {
    var lo := Min(data);
    var hi := Max(data);
    var p := Path(data, lo, Range(lo, hi));
    assert Layout(data) == Geometry(p, lo, hi);
    assert p[i].y == PointY(data[i], lo, Range(lo, hi));
    PointYExtremes(data[i], lo, hi);
  }

  /** The inverse map: the values a path stands for, given the extremes. */
  function Recover(g: Geometry): (data: seq<real>)
    ensures |data| == |g.path|
  {
    Unscale(g.path, g.min, Range(g.min, g.max))
  }

  /** Reads each point's height back as a value: the inverse of `PointY`. */
  function Unscale(path: seq<Command>, lo: real, range: real): (data: seq<real>)
    ensures |data| == |path|
  {
    seq(|path|, i requires 0 <= i < |path| =>
      lo + (Height - Pad - path[i].y) / (Height - 2.0 * Pad) * range)
  }

  lemma RecoverPoint(v: real, lo: real, range: real, y: real)
    requires range != 0.0 && y == PointY(v, lo, range)
    ensures lo + (Height - Pad - y) / (Height - 2.0 * Pad) * range == v
  {
    var q := (v - lo) / range;
    assert q * range == v - lo;
    assert y == 76.0 - q * 72.0;
    assert (Height - Pad - y) / (Height - 2.0 * Pad) == q;
  }

  lemma UnscalePath(data: seq<real>, lo: real, range: real)
    requires |data| >= 2 && range != 0.0
    ensures Unscale(Path(data, lo, range), lo, range) == data
  {
    var p := Path(data, lo, range);
    var back := Unscale(p, lo, range);
    forall i | 0 <= i < |data| ensures back[i] == data[i] {
      var y := p[i].y;
      assert y == PointY(data[i], lo, range);
      RecoverPoint(data[i], lo, range, y);
      assert back[i] == lo + (Height - Pad - y) / (Height - 2.0 * Pad) * range;
    }
  }

  /** The geometry loses nothing: the series can be read back from the path
      and the extremes. */
  lemma {:induction false} GeometryRoundTrip(data: seq<real>)
    requires |data| != 1
    ensures Recover(Layout(data)) == data
  {
    if |data| > 0 {
      var lo := Min(data);
      var range := Range(lo, Max(data));
      UnscalePath(data, lo, range);
    }
  }
}
