/**
 * The simplex-noise generator of src/utils/perlin.js (`Perlin`).
 *
 * A generator holds a table `p` of 256 random bytes and its doubled copy
 * `perm`.  `noise(x, y, z)` skews the point onto a simplex grid, selects the
 * simplex around it with a fixed case table, looks the gradient of each of its
 * four corners up through nested `perm` reads, and sums the corner
 * contributions.  Coordinates are exact reals here; the skew factors 1/3 and
 * 1/6 are exact too.
 */
module Noise {
  import opened Draws

  /** The twelve gradient directions: the midpoints of the edges of a cube. */
  const Grad3: seq<seq<int>> := [
    [1, 1, 0], [-1, 1, 0], [1, -1, 0], [-1, -1, 0],
    [1, 0, 1], [-1, 0, 1], [1, 0, -1], [-1, 0, -1],
    [0, 1, 1], [0, -1, 1], [0, 1, -1], [0, -1, -1]
  ]

  /** A gradient: three entries, exactly one of them zero, the others ±1. */
  predicate IsGradient(g: seq<int>) {
    && |g| == 3
    && (forall c :: 0 <= c < 3 ==> -1 <= g[c] <= 1)
    && (g[0] == 0 || g[1] == 0 || g[2] == 0)
    && (g[0] == 0 ==> g[1] != 0 && g[2] != 0)
    && (g[1] == 0 ==> g[0] != 0 && g[2] != 0)
    && (g[2] == 0 ==> g[0] != 0 && g[1] != 0)
  }

  lemma Grad3Shape()
    ensures |Grad3| == 12
    ensures forall g :: 0 <= g < |Grad3| ==> IsGradient(Grad3[g])
  {
  }

  /** `grad3[gi]`, for an index the lookup can produce. */
  function Gradient(gi: int): (g: seq<int>)
    requires 0 <= gi < 12
    ensures IsGradient(g)
  {
    Grad3Shape();
    Grad3[gi]
  }

  function Abs(r: real): real {
    if r < 0.0 then -r else r
  }

  /** The sum of the coordinate magnitudes of a point. */
  function Manhattan(x: real, y: real, z: real): real {
    Abs(x) + Abs(y) + Abs(z)
  }

  /** `dot`: the gradient's entries times the three coordinates; it vanishes at the origin. */
  function Dot(g: seq<int>, x: real, y: real, z: real): (d: real)
    requires |g| == 3
    ensures x == 0.0 && y == 0.0 && z == 0.0 ==> d == 0.0
  {
    g[0] as real * x + g[1] as real * y + g[2] as real * z
  }

  /** Against a gradient, the dot product is a signed sum of two coordinates. */
  lemma DotGradient(g: seq<int>, x: real, y: real, z: real)
    requires IsGradient(g)
    ensures g[0] == 0 ==> Abs(Dot(g, x, y, z)) <= Abs(y) + Abs(z)
    ensures g[1] == 0 ==> Abs(Dot(g, x, y, z)) <= Abs(x) + Abs(z)
    ensures g[2] == 0 ==> Abs(Dot(g, x, y, z)) <= Abs(x) + Abs(y)
  {
    assert g[0] == -1 || g[0] == 0 || g[0] == 1;
    assert g[1] == -1 || g[1] == 0 || g[1] == 1;
    assert g[2] == -1 || g[2] == 0 || g[2] == 1;
  }

  /** Against a gradient, the dot product is at most the sum of the coordinate magnitudes. */
  lemma DotManhattan(g: seq<int>, x: real, y: real, z: real)
    requires IsGradient(g)
    ensures Abs(Dot(g, x, y, z)) <= Manhattan(x, y, z)
  {
    DotGradient(g, x, y, z);
  }

  /** `i & 255`: the low byte of an integer in two's complement, which is its remainder modulo 256. */
  function LowByte(i: int): (b: int)
    ensures 0 <= b < 256
    ensures 0 <= i < 256 ==> b == i
    ensures (b - i) % 256 == 0
  {
    i % 256
  }

  /** A corner offset of the simplex: each component 0 or 1. */
  datatype Offset = Offset(i: int, j: int, k: int)

  predicate IsUnitOffset(o: Offset) {
    0 <= o.i <= 1 && 0 <= o.j <= 1 && 0 <= o.k <= 1
  }

  function Ones(o: Offset): int {
    o.i + o.j + o.k
  }

  /**
   * The case table that picks the simplex containing the point: the second
   * corner steps along a largest coordinate, the third also along the middle
   * one, skipping a smallest.
   */
  function Corners(x0: real, y0: real, z0: real): (c: (Offset, Offset))
    ensures IsUnitOffset(c.0) && Ones(c.0) == 1
    ensures IsUnitOffset(c.1) && Ones(c.1) == 2
    ensures c.0.i <= c.1.i && c.0.j <= c.1.j && c.0.k <= c.1.k
    ensures c.0.i == 1 ==> x0 >= y0 && x0 >= z0
    ensures c.0.j == 1 ==> y0 >= x0 && y0 >= z0
    ensures c.0.k == 1 ==> z0 >= x0 && z0 >= y0
    ensures c.1.i == 0 ==> x0 <= y0 && x0 <= z0
    ensures c.1.j == 0 ==> y0 <= x0 && y0 <= z0
    ensures c.1.k == 0 ==> z0 <= x0 && z0 <= y0
  {
    if x0 >= y0 then
      if y0 >= z0 then (Offset(1, 0, 0), Offset(1, 1, 0))
      else if x0 >= z0 then (Offset(1, 0, 0), Offset(1, 0, 1))
      else (Offset(0, 0, 1), Offset(1, 0, 1))
    else
      if y0 < z0 then (Offset(0, 0, 1), Offset(0, 1, 1))
      else if x0 < z0 then (Offset(0, 1, 0), Offset(0, 1, 1))
      else (Offset(0, 1, 0), Offset(1, 1, 0))
  }

  /** The index of one nested `perm` read: a masked coordinate, a 0/1 offset and a table value. */
  function NestedIndex(masked: int, offset: int, inner: int): (idx: int)
    requires 0 <= masked < 256 && 0 <= offset <= 1 && 0 <= inner < 256
    ensures 0 <= idx <= 511
  {
    masked + offset + inner
  }

  /** The falloff `0.5 - x^2 - y^2 - z^2` of a corner at offset (x, y, z) from the point. */
  function Falloff(x: real, y: real, z: real): real {
    0.5 - x * x - y * y - z * z
  }

  /**
   * The contribution of one corner with gradient `g` at offset (x, y, z):
   * nothing when the falloff `t` is negative, otherwise `t^4` times the
   * gradient's dot product with the offset.  Against a gradient it is at most
   * 1/8 in magnitude.
   */
  function Contribution(g: seq<int>, x: real, y: real, z: real): (n: real)
    requires |g| == 3
    ensures Falloff(x, y, z) < 0.0 ==> n == 0.0
    ensures Dot(g, x, y, z) == 0.0 ==> n == 0.0
    ensures IsGradient(g) ==> -0.125 <= n <= 0.125
  {
    var t := Falloff(x, y, z);
    if t < 0.0 then 0.0
    else
      assert IsGradient(g) ==> -0.125 <= Fourth(t) * Dot(g, x, y, z) <= 0.125 by {
        if IsGradient(g) {
          SquaresBound(x, y, z);
          FourthBound(t);
          DotBound(g, x, y, z);
          ScaledBound(Fourth(t), Dot(g, x, y, z));
        }
      }
      Fourth(t) * Dot(g, x, y, z)
  }

  /** `t^4`, written as the square of `t * t`. */
  function Fourth(t: real): (w: real)
    ensures w >= 0.0
  {
    var t2 := t * t;
    assert t2 >= 0.0;
    t2 * t2
  }

  /** For `t` in [0, 0.5], `t^4` is at most 1/16. */
  lemma FourthBound(t: real)
    requires 0.0 <= t <= 0.5
    ensures Fourth(t) <= 0.0625
  {
    assert t * t <= t * 0.5 <= 0.25;
    assert (t * t) * (t * t) <= (t * t) * 0.25 <= 0.0625;
  }

  /** A coordinate whose square is at most 1/2 lies in [-1, 1]. */
  lemma SquareBound(x: real)
    requires x * x <= 0.5
    ensures -1.0 <= x <= 1.0
  {
  }

  /** A weight in [0, 1/16] times a value in [-2, 2] lies in [-1/8, 1/8]. */
  lemma ScaledBound(w: real, d: real)
    requires 0.0 <= w <= 0.0625 && -2.0 <= d <= 2.0
    ensures -0.125 <= w * d <= 0.125
  {
    if d >= 0.0 {
      assert w * d <= 0.0625 * d;
    } else {
      assert w * d >= 0.0625 * d;
    }
  }

  /** Against a gradient, a point in the cube [-1, 1]^3 has a dot product in [-2, 2]. */
  lemma DotBound(g: seq<int>, x: real, y: real, z: real)
    requires IsGradient(g)
    requires -1.0 <= x <= 1.0 && -1.0 <= y <= 1.0 && -1.0 <= z <= 1.0
    ensures -2.0 <= Dot(g, x, y, z) <= 2.0
  {
    DotGradient(g, x, y, z);
  }

  /** Three squares summing to at most 1/2: each coordinate lies in [-1, 1]. */
  lemma SquaresBound(x: real, y: real, z: real)
    requires x * x + y * y + z * z <= 0.5
    ensures -1.0 <= x <= 1.0 && -1.0 <= y <= 1.0 && -1.0 <= z <= 1.0
  {
    assert x * x >= 0.0 && y * y >= 0.0 && z * z >= 0.0;
    SquareBound(x);
    SquareBound(y);
    SquareBound(z);
  }

  class Perlin {
    const p: array<int>
    const perm: array<int>

    /** 256 bytes in `p`, and `perm` is `p` twice over. */
    ghost predicate Valid()
      reads p, perm
    {
      && p.Length == 256 && perm.Length == 512
      && (forall i :: 0 <= i < 256 ==> 0 <= p[i] < 256)
      && (forall i :: 0 <= i < 512 ==> perm[i] == p[LowByte(i)])
    }

    /** Fills `p` with 256 draws `floor(r * 256)`, starting at draw `at`, then doubles it into `perm`. */
    constructor (s: Stream, at: nat)
      requires ValidStream(s)
      ensures Valid()
      ensures fresh(p) && fresh(perm)
      ensures forall i :: 0 <= i < 256 ==> p[i] == Pick(s(at + i), 256)
    {
      p := new int[256];
      perm := new int[512];
      new;
      for i := 0 to 256
        invariant forall k :: 0 <= k < i ==> p[k] == Pick(s(at + k), 256)
      {
        p[i] := Pick(s(at + i), 256);
      }
      for i := 0 to 512
        invariant forall k :: 0 <= k < 256 ==> p[k] == Pick(s(at + k), 256)
        invariant forall k :: 0 <= k < i ==> perm[k] == p[LowByte(k)]
      {
        perm[i] := p[LowByte(i)];
      }
    }

    /**
     * The gradient index of a corner: `perm[i+di + perm[j+dj + perm[k+dk]]] % 12`
     * for masked `i`, `j`, `k` and a corner offset.
     */
    function GradIndex(i: int, j: int, k: int, o: Offset): (gi: int)
      reads p, perm
      requires Valid()
      requires 0 <= i < 256 && 0 <= j < 256 && 0 <= k < 256 && IsUnitOffset(o)
      ensures 0 <= gi < 12
    {
      var a := perm[NestedIndex(k, o.k, 0)];
      var b := perm[NestedIndex(j, o.j, a)];
      perm[NestedIndex(i, o.i, b)] % 12
    }

    /**
     * `noise(x, y, z)`: skew the point to find its grid cell (i, j, k), unskew
     * the cell origin back, and sum the corner contributions of the simplex
     * around the offset (x0, y0, z0) from that origin.
     */
    function Noise(x: real, y: real, z: real): (r: real)
      reads p, perm
      requires Valid()
      ensures -36.0 <= r <= 36.0
    {
      var F3 := 1.0 / 3.0;
      var G3 := 1.0 / 6.0;
      var s := (x + y + z) * F3;
      var i := (x + s).Floor;
      var j := (y + s).Floor;
      var k := (z + s).Floor;
      var t := (i + j + k) as real * G3;
      var x0 := x - (i as real - t);
      var y0 := y - (j as real - t);
      var z0 := z - (k as real - t);
      CellNoise(x0, y0, z0, LowByte(i), LowByte(j), LowByte(k))
    }

    /**
     * The second half of `noise`: pick the simplex, locate its four corners
     * relative to the point, look up their gradients for the masked cell
     * (ii, jj, kk), and scale the summed contributions by 72.
     */
    function CellNoise(x0: real, y0: real, z0: real, ii: int, jj: int, kk: int): (r: real)
      reads p, perm
      requires Valid()
      requires 0 <= ii < 256 && 0 <= jj < 256 && 0 <= kk < 256
      ensures -36.0 <= r <= 36.0
    {
      var G3 := 1.0 / 6.0;
      var (o1, o2) := Corners(x0, y0, z0);
      var x1 := x0 - o1.i as real + G3;
      var y1 := y0 - o1.j as real + G3;
      var z1 := z0 - o1.k as real + G3;
      var x2 := x0 - o2.i as real + 2.0 * G3;
      var y2 := y0 - o2.j as real + 2.0 * G3;
      var z2 := z0 - o2.k as real + 2.0 * G3;
      var x3 := x0 - 1.0 + 3.0 * G3;
      var y3 := y0 - 1.0 + 3.0 * G3;
      var z3 := z0 - 1.0 + 3.0 * G3;
      var gi0 := GradIndex(ii, jj, kk, Offset(0, 0, 0));
      var gi1 := GradIndex(ii, jj, kk, o1);
      var gi2 := GradIndex(ii, jj, kk, o2);
      var gi3 := GradIndex(ii, jj, kk, Offset(1, 1, 1));
      var n0 := Contribution(Gradient(gi0), x0, y0, z0);
      var n1 := Contribution(Gradient(gi1), x1, y1, z1);
      var n2 := Contribution(Gradient(gi2), x2, y2, z2);
      var n3 := Contribution(Gradient(gi3), x3, y3, z3);
      72.0 * (n0 + n1 + n2 + n3)
    }

    /** At a cell origin every corner contributes nothing: the origin's own dot product is 0, the others lie too far. */
    lemma CellNoiseAtOrigin(ii: int, jj: int, kk: int)
      requires Valid()
      requires 0 <= ii < 256 && 0 <= jj < 256 && 0 <= kk < 256
      ensures CellNoise(0.0, 0.0, 0.0, ii, jj, kk) == 0.0
    {
      assert Corners(0.0, 0.0, 0.0) == (Offset(1, 0, 0), Offset(1, 1, 0));
    }

    /**
     * Simplex noise vanishes at every vertex of the simplex grid: the point
     * that unskews to the integer cell corner (i, j, k).
     */
    lemma NoiseAtGridVertex(i: int, j: int, k: int)
      requires Valid()
      ensures var t := (i + j + k) as real / 6.0;
        Noise(i as real - t, j as real - t, k as real - t) == 0.0
    {
      var t := (i + j + k) as real / 6.0;
      GridVertexSkew(i, j, k);
      CellNoiseAtOrigin(LowByte(i), LowByte(j), LowByte(k));
      assert Noise(i as real - t, j as real - t, k as real - t) == CellNoise(0.0, 0.0, 0.0, LowByte(i), LowByte(j), LowByte(k));
    }
  }

  /** Skewing a grid vertex lands exactly on its cell corner, and unskewing leaves no offset. */
  lemma GridVertexSkew(i: int, j: int, k: int)
    ensures var t := (i + j + k) as real / 6.0;
      var x, y, z := i as real - t, j as real - t, k as real - t;
      var s := (x + y + z) * (1.0 / 3.0);
      && (x + s).Floor == i && (y + s).Floor == j && (z + s).Floor == k
      && x - (i as real - (i + j + k) as real * (1.0 / 6.0)) == 0.0
      && y - (j as real - (i + j + k) as real * (1.0 / 6.0)) == 0.0
      && z - (k as real - (i + j + k) as real * (1.0 / 6.0)) == 0.0
  {
    var t := (i + j + k) as real / 6.0;
    var x, y, z := i as real - t, j as real - t, k as real - t;
    assert (x + y + z) * (1.0 / 3.0) == t;
  }
}
