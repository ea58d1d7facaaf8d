/**
 * The sample grid and the default bell-shaped profile (script.js:28-34),
 * and the repair rule that regenerates a stale profile (script.js:70-79).
 */
module Sampling {
  import opened Wrappers

  /** Peak amplitude of the default profile; also the surface normaliser. */
  const HEIGHT: real := 10.0

  /** `Array.from({ length: n })` makes `n` slots, and none for a negative `n`. */
  function SampleCount(n: int): nat {
    if n < 0 then 0 else n
  }

  /** Distance between neighbouring samples; only defined by the source for n >= 2. */
  function Step(start: real, stop: real, n: int): real {
    if n >= 2 then (stop - start) / (n - 1) as real else 0.0
  }

  /**
   * `linspace(start, stop, n)`: n evenly spaced samples, the i-th being
   * start + (stop - start) / (n - 1) * i; the first is `start`, the last `stop`.
   */
  function Linspace(start: real, stop: real, n: int): (r: seq<real>)
    ensures |r| == SampleCount(n)
    ensures forall i :: 0 <= i < |r| ==> r[i] == start + Step(start, stop, n) * i as real
    ensures n >= 2 ==> r[0] == start && r[n - 1] == stop
  {
    var d := Step(start, stop, n);
    var r := seq(SampleCount(n), i => start + d * i as real);
    assert n >= 2 ==> r[n - 1] == stop by {
      if n >= 2 {
        StepSpansDomain(start, stop, n);
        assert r[n - 1] == start + d * (n - 1) as real;
      }
    }
    r
  }

  /** n - 1 steps cover the domain exactly. */
  lemma StepSpansDomain(start: real, stop: real, n: int)
    requires n >= 2
    ensures Step(start, stop, n) * (n - 1) as real == stop - start
  {
    var m := (n - 1) as real;
    assert m > 0.0;
    assert (stop - start) / m * m == stop - start;
  }

  /** Neighbouring samples are `Step` apart. */
  lemma LinspaceUniform(start: real, stop: real, n: int, i: nat)
    requires i + 1 < n
    ensures Linspace(start, stop, n)[i + 1] - Linspace(start, stop, n)[i] == (stop - start) / (n - 1) as real
  {
    var r, d := Linspace(start, stop, n), Step(start, stop, n);
    assert r[i + 1] == start + d * (i + 1) as real;
    assert d * (i + 1) as real == d * i as real + d;
  }

  /** Over an increasing domain the samples strictly increase. */
  lemma LinspaceIncreasing(start: real, stop: real, n: int, i: nat, j: nat)
    requires start < stop
    requires i < j < n
    ensures Linspace(start, stop, n)[i] < Linspace(start, stop, n)[j]
  {
    var d := Step(start, stop, n);
    assert d > 0.0 by {
      var k := (n - 1) as real;
      assert k > 0.0 && d * k == stop - start;
    }
    assert d * j as real - d * i as real == d * (j - i) as real;
    assert d * (j - i) as real > 0.0;
  }

  /** Samples at mirrored positions add up to `start + stop`. */
  lemma LinspaceMirror(start: real, stop: real, n: int, i: nat)
    requires i < n
    requires n >= 2
    ensures Linspace(start, stop, n)[i] + Linspace(start, stop, n)[n - 1 - i] == start + stop
  {
    var d := Step(start, stop, n);
    assert d * i as real + d * (n - 1 - i) as real == d * (n - 1) as real;
  }

  /**
   * `makeFunction(coords)`: HEIGHT * g((coord - center)^2) at every coordinate,
   * with `center` the midpoint of the domain. The source's `g` is
   * exp(-u / (2 sigma^2)); here it is the parameter `kernel`.
   */
  function MakeProfile(coords: seq<real>, minVal: real, maxVal: real, kernel: real -> real): (r: seq<real>)
    ensures |r| == |coords|
    ensures forall i :: 0 <= i < |r| ==> r[i] == HEIGHT * kernel(Square(coords[i] - Midpoint(minVal, maxVal)))
  {
    var center := Midpoint(minVal, maxVal);
    seq(|coords|, i requires 0 <= i < |coords| => HEIGHT * kernel(Square(coords[i] - center)))
  }

  function Midpoint(a: real, b: real): real {
    (a + b) / 2.0
  }

  function Square(x: real): real {
    x * x
  }

  /** Over the sample grid the default profile is symmetric about the midpoint. */
  lemma DefaultProfileSymmetric(minVal: real, maxVal: real, n: int, kernel: real -> real, i: nat)
    requires i < n
    ensures var p := MakeProfile(Linspace(minVal, maxVal, n), minVal, maxVal, kernel);
            p[i] == p[n - 1 - i]
  {
    if n >= 2 {
      LinspaceMirror(minVal, maxVal, n, i);
      ProfileEqualAtMirroredPoints(Linspace(minVal, maxVal, n), minVal, maxVal, kernel, i, n - 1 - i);
    }
  }

  /** Two coordinates placed symmetrically about the midpoint get the same profile value. */
  lemma ProfileEqualAtMirroredPoints(coords: seq<real>, minVal: real, maxVal: real, kernel: real -> real, i: nat, j: nat)
    requires i < |coords| && j < |coords|
    requires coords[i] + coords[j] == minVal + maxVal
    ensures MakeProfile(coords, minVal, maxVal, kernel)[i] == MakeProfile(coords, minVal, maxVal, kernel)[j]
  {
    var c := Midpoint(minVal, maxVal);
    assert coords[j] - c == -(coords[i] - c);
    MirroredSquares(coords[i] - c);
  }

  /** A value and its negation have the same square. */
  lemma MirroredSquares(x: real)
    ensures Square(-x) == Square(x)
  {
  }

  /**
   * With a kernel valued in [0, 1] on the non-negative reals (as
   * exp(-u / (2 sigma^2)) is there), every value of the default profile lies
   * in [0, HEIGHT]: the kernel is only ever applied to a square.
   */
  lemma DefaultProfileBounded(coords: seq<real>, minVal: real, maxVal: real, kernel: real -> real)
    requires forall u :: u >= 0.0 ==> 0.0 <= kernel(u) <= 1.0
    ensures forall v :: v in MakeProfile(coords, minVal, maxVal, kernel) ==> 0.0 <= v <= HEIGHT
  {
    var r := MakeProfile(coords, minVal, maxVal, kernel);
    forall v | v in r
      ensures 0.0 <= v <= HEIGHT
    {
      var i :| 0 <= i < |r| && r[i] == v;
      var x := coords[i] - Midpoint(minVal, maxVal);
      assert Square(x) >= 0.0;
    }
  }

  /**
   * `generateInitialData`'s rule for one profile: keep it when it exists and
   * has exactly `gridPoints` values, otherwise take the freshly generated one.
   */
  function RepairProfile(existing: Option<seq<real>>, gridPoints: int, generated: seq<real>): (r: seq<real>)
    ensures existing.Some? && |existing.value| == gridPoints ==> r == existing.value
    ensures existing.None? || |existing.value| != gridPoints ==> r == generated
    ensures |generated| == SampleCount(gridPoints) ==> |r| == SampleCount(gridPoints)
  {
    if existing.None? || |existing.value| != gridPoints then generated else existing.value
  }

  /** Repairing a repaired profile changes nothing: a second `generateInitialData` is a no-op. */
  lemma RepairIdempotent(existing: Option<seq<real>>, gridPoints: int, generated: seq<real>)
    requires |generated| == SampleCount(gridPoints)
    ensures var once := RepairProfile(existing, gridPoints, generated);
            RepairProfile(Some(once), gridPoints, generated) == once
  {
  }

  /**
   * `linspace` as written when the grid size is a fraction, as a typed and
   * clamped but unrounded `gridPoints` can be: `Array.from` makes floor(n)
   * slots while the step still divides by n - 1.
   */
  function LinspaceAsWritten(start: real, stop: real, n: real): (r: seq<real>)
    requires n >= 2.0
    ensures |r| == n.Floor
    ensures forall i :: 0 <= i < |r| ==> r[i] == start + (stop - start) / (n - 1.0) * i as real
  {
    seq(n.Floor, i => start + (stop - start) / (n - 1.0) * i as real)
  }

  /** With a grid size of 2.5 over [0, 10] the samples are 0 and 20/3: the last one is not `stop`. */
  lemma FractionalGridMissesStop()
    ensures var r := LinspaceAsWritten(0.0, 10.0, 2.5);
            |r| == 2 && r[1] != 10.0
  {
    var r := LinspaceAsWritten(0.0, 10.0, 2.5);
    assert r[1] == 10.0 / 1.5;
  }

  /**
   * `generateInitialData`'s test as written, against an unrounded grid size:
   * a profile is kept only when its length equals `gridPoints`.
   */
  function RepairProfileAsWritten(existing: Option<seq<real>>, gridPoints: real, generated: seq<real>): (r: seq<real>)
    ensures existing.Some? && |existing.value| as real == gridPoints ==> r == existing.value
    ensures existing.None? || |existing.value| as real != gridPoints ==> r == generated
  {
    if existing.None? || |existing.value| as real != gridPoints then generated else existing.value
  }

  /**
   * With a fractional grid size no profile ever has the expected length, so
   * every page load (every `fullRedraw`) throws edited values away.
   */
  lemma FractionalGridDropsEdits(existing: seq<real>, gridPoints: real, generated: seq<real>)
    requires gridPoints != gridPoints.Floor as real
    ensures RepairProfileAsWritten(Some(existing), gridPoints, generated) == generated
  {
  }
}
