/**
 * What is drawn (script.js:36, 81-105): the surface as the outer product of
 * the two profiles divided by HEIGHT, and the value range that the X chart,
 * the Z chart and the 3D value axis share.
 */
module Surface {
  import opened Wrappers
  import opened Sampling
  import opened Config

  /** `outerProduct(v1, v2)`: row i, column j holds v1[i] * v2[j]. */
  function OuterProduct(v1: seq<real>, v2: seq<real>): (m: seq<seq<real>>)
    ensures |m| == |v1|
    ensures forall i :: 0 <= i < |m| ==> |m[i]| == |v2|
    ensures forall i, j :: 0 <= i < |v1| && 0 <= j < |v2| ==> m[i][j] == v1[i] * v2[j]
  {
    seq(|v1|, i requires 0 <= i < |v1| => seq(|v2|, j requires 0 <= j < |v2| => v1[i] * v2[j]))
  }

  /** Every value divided by `h`, the shape kept. */
  function Normalized(m: seq<seq<real>>, h: real): (r: seq<seq<real>>)
    requires h != 0.0
    ensures |r| == |m|
    ensures forall i :: 0 <= i < |r| ==> |r[i]| == |m[i]|
    ensures forall i, j :: 0 <= i < |m| && 0 <= j < |m[i]| ==> r[i][j] == m[i][j] / h
  {
    seq(|m|, i requires 0 <= i < |m| => seq(|m[i]|, j requires 0 <= j < |m[i]| => m[i][j] / h))
  }

  /**
   * The surface of `updateAllGraphs`: one row per Z sample and one column per
   * X sample, built row by row; `SurfaceIsScaledOuterProduct` shows it is the
   * source's `outerProduct(y_z_data, y_x_data)` divided by HEIGHT.
   */
  function SurfaceOf(yz: seq<real>, yx: seq<real>): (m: seq<seq<real>>)
    ensures |m| == |yz|
  {
    if yz == [] then [] else [seq(|yx|, j requires 0 <= j < |yx| => yz[0] * yx[j] / HEIGHT)] + SurfaceOf(yz[1..], yx)
  }

  /** Row i of the surface has one value per X sample, the j-th being yz[i] * yx[j] / HEIGHT. */
  lemma {:induction false} SurfaceRow(yz: seq<real>, yx: seq<real>, i: nat)
    requires i < |yz|
    ensures |SurfaceOf(yz, yx)[i]| == |yx|
    ensures forall j :: 0 <= j < |yx| ==> SurfaceOf(yz, yx)[i][j] == yz[i] * yx[j] / HEIGHT
  {
    if i > 0 {
      SurfaceRow(yz[1..], yx, i - 1);
      assert SurfaceOf(yz, yx)[i] == SurfaceOf(yz[1..], yx)[i - 1];
      assert yz[1..][i - 1] == yz[i];
    }
  }

  /** Row i, column j of the surface is yz[i] * yx[j] / HEIGHT. */
  lemma SurfaceEntries(yz: seq<real>, yx: seq<real>)
    ensures forall i :: 0 <= i < |yz| ==> |SurfaceOf(yz, yx)[i]| == |yx|
    ensures forall i, j :: 0 <= i < |yz| && 0 <= j < |yx| ==> SurfaceOf(yz, yx)[i][j] == yz[i] * yx[j] / HEIGHT
  {
    forall i | 0 <= i < |yz|
      ensures |SurfaceOf(yz, yx)[i]| == |yx|
      ensures forall j :: 0 <= j < |yx| ==> SurfaceOf(yz, yx)[i][j] == yz[i] * yx[j] / HEIGHT
    {
      SurfaceRow(yz, yx, i);
    }
  }

  /** The surface is exactly the outer product of the profiles, normalised by HEIGHT. */
  lemma SurfaceIsScaledOuterProduct(yz: seq<real>, yx: seq<real>)
    ensures SurfaceOf(yz, yx) == Normalized(OuterProduct(yz, yx), HEIGHT)
  {
    SurfaceEntries(yz, yx);
    var m, n := SurfaceOf(yz, yx), Normalized(OuterProduct(yz, yx), HEIGHT);
    forall i | 0 <= i < |yz|
      ensures m[i] == n[i]
    {
      assert |m[i]| == |n[i]| == |yx|;
      forall j | 0 <= j < |yx|
        ensures m[i][j] == n[i][j]
      {
      }
    }
  }

  /**
   * Normalising by HEIGHT keeps the surface in the height range of its
   * profiles: when both profiles lie in [0, HEIGHT], so does every cell.
   */
  lemma SurfaceWithinHeight(yz: seq<real>, yx: seq<real>, i: nat, j: nat)
    requires forall k :: 0 <= k < |yz| ==> 0.0 <= yz[k] <= HEIGHT
    requires forall k :: 0 <= k < |yx| ==> 0.0 <= yx[k] <= HEIGHT
    requires i < |yz| && j < |yx|
    ensures |SurfaceOf(yz, yx)[i]| == |yx|
    ensures 0.0 <= SurfaceOf(yz, yx)[i][j] <= HEIGHT
  {
    SurfaceRow(yz, yx, i);
    var a, b := yz[i], yx[j];
    assert SurfaceOf(yz, yx)[i][j] == a * b / HEIGHT;
    ScaledProductWithinHeight(a, b);
  }

  /** The product of two values in [0, HEIGHT], divided by HEIGHT, is again in [0, HEIGHT]. */
  lemma ScaledProductWithinHeight(a: real, b: real)
    requires 0.0 <= a <= HEIGHT && 0.0 <= b <= HEIGHT
    ensures 0.0 <= a * b / HEIGHT <= HEIGHT
  {
    var p := a * b;
    assert 0.0 <= p by { assert a * b >= 0.0 * b; }
    assert p <= HEIGHT * b by { assert (HEIGHT - a) * b >= 0.0; }
    assert p / HEIGHT <= b;
  }

  /** `Math.min(...s)` for a non-empty `s`; `SeqMinIsLeast` states what it is. */
  function SeqMin(s: seq<real>): real
    requires |s| > 0
  {
    if |s| == 1 then s[0]
    else
      var t := SeqMin(s[1..]);
      if s[0] <= t then s[0] else t
  }

  /** `Math.max(...s)` for a non-empty `s`; `SeqMaxIsGreatest` states what it is. */
  function SeqMax(s: seq<real>): real
    requires |s| > 0
  {
    if |s| == 1 then s[0]
    else
      var t := SeqMax(s[1..]);
      if s[0] >= t then s[0] else t
  }

  /** No value is smaller than the minimum, and the minimum is one of the values. */
  lemma {:induction false} SeqMinIsLeast(s: seq<real>)
    requires |s| > 0
    ensures forall i :: 0 <= i < |s| ==> SeqMin(s) <= s[i]
    ensures exists i :: 0 <= i < |s| && SeqMin(s) == s[i]
  {
    if |s| == 1 {
      assert SeqMin(s) == s[0];
    } else {
      SeqMinIsLeast(s[1..]);
      var k :| 0 <= k < |s[1..]| && SeqMin(s[1..]) == s[1..][k];
      assert SeqMin(s[1..]) == s[k + 1];
      if s[0] <= s[k + 1] {
        assert SeqMin(s) == s[0];
      } else {
        assert SeqMin(s) == s[k + 1];
      }
      forall i | 1 <= i < |s|
        ensures SeqMin(s) <= s[i]
      {
        assert s[i] == s[1..][i - 1];
      }
    }
  }

  /** No value is larger than the maximum, and the maximum is one of the values. */
  lemma {:induction false} SeqMaxIsGreatest(s: seq<real>)
    requires |s| > 0
    ensures forall i :: 0 <= i < |s| ==> s[i] <= SeqMax(s)
    ensures exists i :: 0 <= i < |s| && SeqMax(s) == s[i]
  {
    if |s| == 1 {
      assert SeqMax(s) == s[0];
    } else {
      SeqMaxIsGreatest(s[1..]);
      var k :| 0 <= k < |s[1..]| && SeqMax(s[1..]) == s[1..][k];
      assert SeqMax(s[1..]) == s[k + 1];
      if s[0] >= s[k + 1] {
        assert SeqMax(s) == s[0];
      } else {
        assert SeqMax(s) == s[k + 1];
      }
      forall i | 1 <= i < |s|
        ensures s[i] <= SeqMax(s)
      {
        assert s[i] == s[1..][i - 1];
      }
    }
  }

  datatype Range = Range(low: real, high: real)

  /**
   * The shared value range of `getLayouts`: the lowest and highest value over
   * both profiles, widened on each side by a tenth of the span, or by 1 when
   * the span is 0. Every value then lies strictly inside the range. With both
   * profiles empty the source's range is built from infinities; the model
   * gives no range.
   */
  function YRange(yx: seq<real>, yz: seq<real>): (r: Option<Range>)
    ensures r.Some? <==> |yx| + |yz| > 0
  {
    var all := yx + yz;
    if |all| == 0 then None
    else
      var lo, hi := SeqMin(all), SeqMax(all);
      var spread := (hi - lo) * 0.1;
      var padding := if spread != 0.0 then spread else 1.0;
      Some(Range(lo - padding, hi + padding))
  }

  /**
   * Every value of both profiles lies strictly inside the range, and the
   * range is the span widened by a tenth on each side (by 1 for a flat span).
   */
  lemma YRangeContainsProfiles(yx: seq<real>, yz: seq<real>)
    requires |yx| + |yz| > 0
    ensures var r := YRange(yx, yz).value;
            forall v :: v in yx + yz ==> r.low < v < r.high
    ensures var r, lo, hi := YRange(yx, yz).value, SeqMin(yx + yz), SeqMax(yx + yz);
            if lo < hi then r.low == lo - (hi - lo) / 10.0 && r.high == hi + (hi - lo) / 10.0
            else r.low == lo - 1.0 && r.high == hi + 1.0
  {
    var all := yx + yz;
    SeqMinIsLeast(all);
    SeqMaxIsGreatest(all);
    var lo, hi := SeqMin(all), SeqMax(all);
    assert lo <= hi by {
      assert lo <= all[0] <= hi;
    }
    forall v | v in all
      ensures YRange(yx, yz).value.low < v < YRange(yx, yz).value.high
    {
      var i :| 0 <= i < |all| && all[i] == v;
    }
  }

  /** Axis title and range of one 2D chart's value axis. */
  datatype Axis = Axis(title: string, range: Option<Range>)

  /** A 2D profile chart: the title of its coordinate axis and its value axis. */
  datatype ChartLayout = ChartLayout(xTitle: string, yAxis: Axis)

  /** The 3D chart: X and Z coordinate titles and the value axis. */
  datatype SceneLayout = SceneLayout(xTitle: string, yTitle: string, zAxis: Axis)

  datatype Layouts = Layouts(layoutX: ChartLayout, layoutZ: ChartLayout, layout3D: SceneLayout)

  /**
   * `getLayouts`: the X chart is titled by `titleX`, the Z chart by `titleZ`,
   * and all three charts share one value axis, titled `titleY` and ranged by
   * `YRange` over both profiles.
   */
  function GetLayouts(s: Settings, yx: seq<real>, yz: seq<real>): (l: Layouts)
    ensures l.layoutX.yAxis == l.layoutZ.yAxis == l.layout3D.zAxis
    ensures l.layout3D.zAxis == Axis(s.titleY, YRange(yx, yz))
    ensures l.layoutX.xTitle == l.layout3D.xTitle == s.titleX
    ensures l.layoutZ.xTitle == l.layout3D.yTitle == s.titleZ
  {
    var common := Axis(s.titleY, YRange(yx, yz));
    Layouts(ChartLayout(s.titleX, common), ChartLayout(s.titleZ, common),
            SceneLayout(s.titleX, s.titleZ, common))
  }

  /** A 2D trace: coordinates and values. */
  datatype Trace = Trace(x: seq<real>, y: seq<real>)

  /** The 3D trace: X coordinates, Z coordinates and the surface. */
  datatype SurfaceTrace = SurfaceTrace(x: seq<real>, y: seq<real>, z: seq<seq<real>>)

  /** Everything `updateAllGraphs` hands to the three charts. */
  datatype Frame = Frame(plotX: Trace, plotZ: Trace, plot3D: SurfaceTrace, layouts: Layouts)

  /**
   * `updateAllGraphs`: the X chart plots `yx` over `xs`, the Z chart `yz`
   * over `zs`, and the 3D chart the surface over (xs, zs), all laid out by
   * `getLayouts`.
   */
  function Render(s: Settings, xs: seq<real>, zs: seq<real>, yx: seq<real>, yz: seq<real>): (f: Frame)
    ensures f.plotX.y == yx && f.plotZ.y == yz && |f.plot3D.z| == |yz|
    ensures f.layouts.layoutX.yAxis == f.layouts.layoutZ.yAxis == f.layouts.layout3D.zAxis
  {
    Frame(Trace(xs, yx), Trace(zs, yz), SurfaceTrace(xs, zs, SurfaceOf(yz, yx)), GetLayouts(s, yx, yz))
  }

  /**
   * When each profile matches its coordinates, the 3D chart has one row per Z
   * sample and one column per X sample holding yz[i] * yx[j] / HEIGHT, and the
   * value axis the three charts share holds every value of both profiles
   * strictly inside its range.
   */
  lemma RenderedFrame(s: Settings, xs: seq<real>, zs: seq<real>, yx: seq<real>, yz: seq<real>)
    requires |yx| == |xs| && |yz| == |zs|
    ensures var f := Render(s, xs, zs, yx, yz);
            && f.plotX == Trace(xs, yx) && f.plotZ == Trace(zs, yz)
            && |f.plot3D.z| == |zs| && (forall i :: 0 <= i < |zs| ==> |f.plot3D.z[i]| == |xs|)
            && (forall i, j :: 0 <= i < |zs| && 0 <= j < |xs| ==> f.plot3D.z[i][j] == yz[i] * yx[j] / HEIGHT)
    ensures var l := Render(s, xs, zs, yx, yz).layouts;
            && l.layoutX.yAxis == l.layoutZ.yAxis == l.layout3D.zAxis
            && l.layoutX.yAxis.title == s.titleY
            && (|xs| + |zs| > 0 ==>
                  l.layoutX.yAxis.range.Some?
                  && forall v :: v in yx + yz ==> l.layoutX.yAxis.range.value.low < v < l.layoutX.yAxis.range.value.high)
  {
    SurfaceEntries(yz, yx);
    if |xs| + |zs| > 0 {
      YRangeContainsProfiles(yx, yz);
    }
  }
}
