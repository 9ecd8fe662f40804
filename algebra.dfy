/**
 * The value-level meaning of the `Vector` class: each operation that builds or
 * combines components is stated here as a function on the component sequence,
 * with exact real arithmetic in place of IEEE doubles, and the algebraic facts
 * the class relies on are proved as lemmas. The class's arithmetic, geometric
 * and factory methods in module Vectors tie their result to one of these
 * functions; its getters and setters are specified on the array, and the
 * meaning of `from` is given in module Vectors.
 */
module VectorAlgebra {

  import VectorUtils

  /**
   * The failures the class raises, one kind per failure condition; the `y`
   * getter and the `y` setter raise the same condition and share a kind.
   */
  datatype VectorError =
    | NoComponents             // constructor given zero components
    | NoYComponent             // `y` read or written on a one-component vector
    | CouldNotCreate           // `from` given something it cannot dispatch on
    | ZeroLength               // `normalize` of a vector of magnitude 0
    | ComponentCountMismatch   // `dot` of vectors of different dimension
    | NoSuchComponent(n: int)  // `flipComponent(n)` with n outside 1..length
    | NotThreeDimensional      // `cross` with an operand that is not 3D
    | NotEnoughForPoint        // `toPoint` of a one-component vector

  datatype Result<T> = Ok(value: T) | Err(error: VectorError)

  /** Result of an operation that returns nothing (a setter) but may fail. */
  datatype Outcome = Pass | Fail(error: VectorError)

  datatype Option<T> = None | Some(value: T)

  /** The `{x, y, z?}` record used at the boundary with the renderer. */
  datatype Point = Point(x: real, y: real, z: Option<real>)

  /** A component list every one of whose entries is zero. */
  predicate IsZero(cs: seq<real>) {
    forall i :: 0 <= i < |cs| ==> cs[i] == 0.0
  }

  // ---------------------------------------------------------------------
  // Construction

  /** The constructor: zero components is an error, otherwise stored verbatim. */
  function Make(cs: seq<real>): (r: Result<seq<real>>)
    ensures r.Err? <==> |cs| == 0
    ensures r.Err? ==> r.error == NoComponents
    ensures r.Ok? ==> r.value == cs && |r.value| >= 1
  {
    if |cs| == 0 then Err(NoComponents) else Ok(cs)
  }

  // ---------------------------------------------------------------------
  // Component-wise arithmetic

  /**
   * `add`: the result has the argument's dimension; the receiver is indexed
   * with the argument's indices, so it must be at least as long.
   */
  function Add(a: seq<real>, b: seq<real>): (r: seq<real>)
    requires |b| <= |a|
    ensures |r| == |b|
    ensures IsZero(b) ==> r == a[..|b|]
  {
    seq(|b|, i requires 0 <= i < |b| => a[i] + b[i])
  }

  /** `subtract`: as `add`, with the argument's components subtracted. */
  function Subtract(a: seq<real>, b: seq<real>): (r: seq<real>)
    requires |b| <= |a|
    ensures |r| == |b|
    ensures IsZero(b) ==> r == a[..|b|]
  {
    seq(|b|, i requires 0 <= i < |b| => a[i] - b[i])
  }

  /** `scale`: every component multiplied by the scalar. */
  function Scale(a: seq<real>, k: real): (r: seq<real>)
    ensures |r| == |a|
    ensures k == 1.0 ==> r == a
    ensures k == 0.0 ==> IsZero(r)
  {
    seq(|a|, i requires 0 <= i < |a| => a[i] * k)
  }

  /** `divide`: every component divided by the (non-zero) scalar. */
  function Divide(a: seq<real>, k: real): (r: seq<real>)
    requires k != 0.0
    ensures |r| == |a|
    ensures k == 1.0 ==> r == a
    ensures IsZero(a) ==> IsZero(r)
  {
    seq(|a|, i requires 0 <= i < |a| => a[i] / k)
  }

  /** `map`: the callback applied to every component, in order. */
  function MapComponents(a: seq<real>, f: real -> real): (r: seq<real>)
    ensures |r| == |a|
  {
    seq(|a|, i requires 0 <= i < |a| => f(a[i]))
  }

  /** `middle`: the receiver plus the argument, halved. */
  function Middle(a: seq<real>, b: seq<real>): (r: seq<real>)
    requires |b| <= |a|
    ensures |r| == |b|
  {
    Divide(Add(a, b), 2.0)
  }

  lemma AddShape(a: seq<real>, b: seq<real>)
    requires |b| <= |a|
    ensures |Add(a, b)| == |b| && |Subtract(a, b)| == |b|
    ensures forall i :: 0 <= i < |b| ==> Add(a, b)[i] == a[i] + b[i]
    ensures forall i :: 0 <= i < |b| ==> Subtract(a, b)[i] == a[i] - b[i]
  {
  }

  /** Subtracting a vector from itself gives the zero vector of its dimension. */
  lemma SubtractSelfIsZero(a: seq<real>)
    ensures |Subtract(a, a)| == |a| && IsZero(Subtract(a, a))
  {
  }

  /** On equal dimensions addition commutes. */
  lemma AddCommutes(a: seq<real>, b: seq<real>)
    requires |a| == |b|
    ensures Add(a, b) == Add(b, a)
  {
  }

  /** `subtract` undoes `add` (and vice versa) on the argument's dimension. */
  lemma SubtractUndoesAdd(a: seq<real>, b: seq<real>)
    requires |b| <= |a|
    ensures Subtract(Add(a, b), b) == a[..|b|]
    ensures Add(Subtract(a, b), b) == a[..|b|]
  {
  }

  /** `divide` undoes `scale` and `scale` undoes `divide`. */
  lemma DivideUndoesScale(a: seq<real>, k: real)
    requires k != 0.0
    ensures Divide(Scale(a, k), k) == a
    ensures Scale(Divide(a, k), k) == a
  {
    var s, t := Divide(Scale(a, k), k), Scale(Divide(a, k), k);
    forall i | 0 <= i < |a| ensures s[i] == a[i] && t[i] == a[i] {
      assert s[i] == (a[i] * k) / k;
      assert t[i] == (a[i] / k) * k;
    }
  }

  /** Dividing by k is scaling by 1/k. */
  lemma DivideIsScaleByInverse(a: seq<real>, k: real)
    requires k != 0.0
    ensures Divide(a, k) == Scale(a, 1.0 / k)
  {
    forall i | 0 <= i < |a| ensures Divide(a, k)[i] == Scale(a, 1.0 / k)[i] {
      assert a[i] / k == a[i] * (1.0 / k);
    }
  }

  /** Mapping the identity gives back the same components. */
  lemma MapIdentity(a: seq<real>)
    ensures MapComponents(a, x => x) == a
  {
  }

  /** Mapping twice is mapping the composition once. */
  lemma MapComposes(a: seq<real>, f: real -> real, g: real -> real)
    ensures MapComponents(MapComponents(a, f), g) == MapComponents(a, x => g(f(x)))
  {
  }

  /** `scale` is the map of a multiplication. */
  lemma ScaleIsMap(a: seq<real>, k: real)
    ensures Scale(a, k) == MapComponents(a, x => x * k)
  {
  }

  /** The midpoint is component-wise the average. */
  lemma MiddleIsAverage(a: seq<real>, b: seq<real>)
    requires |b| <= |a|
    ensures |Middle(a, b)| == |b|
    ensures forall i :: 0 <= i < |b| ==> Middle(a, b)[i] == (a[i] + b[i]) / 2.0
  {
  }

  /**
   * On equal dimensions the midpoint does not depend on the order of the
   * operands and lies as far from one end as from the other.
   */
  lemma MiddleIsSymmetric(a: seq<real>, b: seq<real>)
    requires |a| == |b|
    ensures Middle(a, b) == Middle(b, a)
    ensures Subtract(Middle(a, b), a) == Subtract(b, Middle(a, b))
  {
  }

  /** The midpoint of a vector and itself is that vector. */
  lemma MiddleOfSelf(a: seq<real>)
    ensures Middle(a, a) == a
  {
  }

  // ---------------------------------------------------------------------
  // Dot product and magnitude

  /** `dot`: the sum of pairwise products, accumulated from the first index. */
  function Dot(a: seq<real>, b: seq<real>): (r: real)
    requires |a| == |b|
    decreases |a|
  {
    if |a| == 0 then 0.0
    else Dot(a[..|a| - 1], b[..|b| - 1]) + a[|a| - 1] * b[|b| - 1]
  }

  /** One more accumulation step of `Dot`, as the loops of the class take it. */
  lemma DotStep(a: seq<real>, b: seq<real>, i: nat)
    requires |a| == |b| && i < |a|
    ensures Dot(a[..i + 1], b[..i + 1]) == Dot(a[..i], b[..i]) + a[i] * b[i]
  {
    assert a[..i + 1][..i] == a[..i];
    assert b[..i + 1][..i] == b[..i];
  }

  /** A zero operand, on either side, makes the dot product zero. */
  lemma {:induction false} DotZero(a: seq<real>, b: seq<real>)
    requires |a| == |b|
    ensures IsZero(a) || IsZero(b) ==> Dot(a, b) == 0.0
  {
    if |a| > 0 && (IsZero(a) || IsZero(b)) {
      var n := |a| - 1;
      assert IsZero(a) ==> IsZero(a[..n]);
      assert IsZero(b) ==> IsZero(b[..n]);
      DotZero(a[..n], b[..n]);
      assert a[n] == 0.0 || b[n] == 0.0;
    }
  }

  /** A product of reals is zero only when a factor is. */
  lemma ZeroProduct(x: real, y: real)
    requires x * y == 0.0
    ensures x == 0.0 || y == 0.0
  {
    if x != 0.0 {
      assert y == (x * y) / x;
    }
  }

  /** The dot product is symmetric in its operands. */
  lemma {:induction false} DotSymmetric(a: seq<real>, b: seq<real>)
    requires |a| == |b|
    ensures Dot(a, b) == Dot(b, a)
  {
    if |a| > 0 {
      DotSymmetric(a[..|a| - 1], b[..|b| - 1]);
    }
  }

  /**
   * A vector's dot product with itself (its squared magnitude) is never
   * negative, and it is zero exactly when every component is zero.
   */
  lemma {:induction false} DotSelf(a: seq<real>)
    ensures Dot(a, a) >= 0.0
    ensures Dot(a, a) == 0.0 <==> IsZero(a)
  {
    if |a| > 0 {
      var n := |a| - 1;
      var p := a[..n];
      DotSelf(p);
      assert Dot(a, a) == Dot(p, p) + a[n] * a[n];
      assert a[n] * a[n] >= 0.0;
      if IsZero(a) {
        assert IsZero(p) by {
          forall i | 0 <= i < |p| ensures p[i] == 0.0 {
            assert p[i] == a[i] && a[i] == 0.0;
          }
        }
      }
      if Dot(a, a) == 0.0 {
        var d, sq := Dot(p, p), a[n] * a[n];
        assert Dot(a, a) == d + sq && d >= 0.0 && sq >= 0.0;
        assert d == 0.0 && sq == 0.0;
        ZeroProduct(a[n], a[n]);
        assert IsZero(a) by {
          forall i | 0 <= i < |a| ensures a[i] == 0.0 {
            if i < n {
              assert p[i] == a[i] && p[i] == 0.0;
            }
          }
        }
      }
    }
  }

  /** Scaling the first operand scales the dot product. */
  lemma {:induction false} DotScaleLeft(a: seq<real>, b: seq<real>, k: real)
    requires |a| == |b|
    ensures Dot(Scale(a, k), b) == k * Dot(a, b)
  {
    DotScaled(Scale(a, k), a, b, k);
  }

  /** `DotScaleLeft` for any `s` whose components are those of `a` times k. */
  lemma {:induction false} DotScaled(s: seq<real>, a: seq<real>, b: seq<real>, k: real)
    requires |s| == |a| == |b|
    requires forall i :: 0 <= i < |s| ==> s[i] == a[i] * k
    ensures Dot(s, b) == k * Dot(a, b)
  {
    if |a| > 0 {
      var n := |a| - 1;
      DotScaled(s[..n], a[..n], b[..n], k);
      Distribute(k, Dot(a[..n], b[..n]), a[n], b[n], Dot(s[..n], b[..n]), s[n], Dot(a, b), Dot(s, b));
    }
  }

  /**
   * The scalar step of `DotScaleLeft`: if the prefix sum and the last
   * component both scale by k, so does the whole sum.
   */
  lemma Distribute(k: real, d: real, x: real, y: real, sd: real, sx: real, t: real, st: real)
    requires t == d + x * y && st == sd + sx * y
    requires sd == k * d && sx == x * k
    ensures st == k * t
  {
  }

  /** The dot product of two 2D vectors, written out. */
  lemma Dot2(a: seq<real>, b: seq<real>)
    requires |a| == 2 && |b| == 2
    ensures Dot(a, b) == a[0] * b[0] + a[1] * b[1]
  {
    assert Dot(a, b) == Dot(a[..1], b[..1]) + a[1] * b[1];
    assert a[..1][..0] == [] && b[..1][..0] == [];
    assert Dot(a[..1], b[..1]) == Dot(a[..1][..0], b[..1][..0]) + a[0] * b[0];
  }

  /** The dot product of two 3D vectors, written out. */
  lemma Dot3(a: seq<real>, b: seq<real>)
    requires |a| == 3 && |b| == 3
    ensures Dot(a, b) == a[0] * b[0] + a[1] * b[1] + a[2] * b[2]
  {
    Dot2(a[..2], b[..2]);
    assert a[..2] == [a[0], a[1]] && b[..2] == [b[0], b[1]];
  }

  // ---------------------------------------------------------------------
  // Normalisation

  /**
   * `normalize`, with the magnitude (the square root of the sum of squares)
   * supplied by the caller: a magnitude of zero is an error, otherwise every
   * component is divided by it.
   */
  function Normalize(a: seq<real>, magnitude: real): (r: Result<seq<real>>)
    ensures r.Err? <==> magnitude == 0.0
    ensures r.Err? ==> r.error == ZeroLength
    ensures r.Ok? ==> |r.value| == |a|
  {
    if magnitude == 0.0 then Err(ZeroLength) else Ok(Divide(a, magnitude))
  }

  /**
   * With the true magnitude, `normalize` fails exactly on the zero vector, and
   * otherwise returns a vector of the same dimension whose squared magnitude
   * is 1, pointing the same way as the input.
   */
  lemma NormalizeMeaning(a: seq<real>, magnitude: real)
    requires magnitude >= 0.0 && magnitude * magnitude == Dot(a, a)
    ensures Normalize(a, magnitude).Err? <==> IsZero(a)
    ensures Normalize(a, magnitude).Err? ==> Normalize(a, magnitude).error == ZeroLength
    ensures Normalize(a, magnitude).Ok? ==>
      var u := Normalize(a, magnitude).value;
      |u| == |a| && Dot(u, u) == 1.0 && u == Scale(a, 1.0 / magnitude)
  {
    DotSelf(a);
    if magnitude != 0.0 {
      var inv := 1.0 / magnitude;
      var u := Scale(a, inv);
      DivideIsScaleByInverse(a, magnitude);
      DotScaleLeft(a, u, inv);
      DotSymmetric(a, u);
      DotScaleLeft(a, a, inv);
      assert Dot(u, u) == inv * (inv * Dot(a, a));
      assert inv * inv * (magnitude * magnitude) == 1.0;
    }
  }

  // ---------------------------------------------------------------------
  // Component flips

  /** `flipComponent(n)`: one-based; negates component n on a copy. */
  function FlipComponent(a: seq<real>, n: int): (r: Result<seq<real>>)
    ensures r.Err? <==> n < 1 || n > |a|
    ensures r.Err? ==> r.error == NoSuchComponent(n)
    ensures r.Ok? ==> |r.value| == |a|
  {
    if n < 1 || n > |a| then Err(NoSuchComponent(n)) else Ok(a[n - 1 := -a[n - 1]])
  }

  /**
   * A flip fails exactly when n is outside 1..|a|; otherwise the result has the
   * same dimension and differs from the input only at index n-1, negated.
   */
  lemma FlipMeaning(a: seq<real>, n: int)
    ensures FlipComponent(a, n).Err? <==> !(1 <= n <= |a|)
    ensures FlipComponent(a, n).Err? ==> FlipComponent(a, n).error == NoSuchComponent(n)
    ensures FlipComponent(a, n).Ok? ==>
      var r := FlipComponent(a, n).value;
      |r| == |a| && r[n - 1] == -a[n - 1] &&
      forall i :: 0 <= i < |a| && i != n - 1 ==> r[i] == a[i]
  {
  }

  /** Flipping the same component twice restores the original components. */
  lemma FlipTwiceRestores(a: seq<real>, n: int)
    requires 1 <= n <= |a|
    ensures FlipComponent(FlipComponent(a, n).value, n) == Ok(a)
  {
    var r := FlipComponent(a, n).value;
    assert r[n - 1 := -r[n - 1]] == a;
  }

  /** Flips of different components commute. */
  lemma FlipsCommute(a: seq<real>, m: int, n: int)
    requires 1 <= m <= |a| && 1 <= n <= |a|
    ensures FlipComponent(FlipComponent(a, m).value, n) == FlipComponent(FlipComponent(a, n).value, m)
  {
    var l := FlipComponent(FlipComponent(a, m).value, n).value;
    var r := FlipComponent(FlipComponent(a, n).value, m).value;
    assert |l| == |r| == |a|;
    assert forall i :: 0 <= i < |a| ==> l[i] == r[i];
    assert l == r;
  }

  // ---------------------------------------------------------------------
  // 2D / 3D geometry

  /** `perpendicular2D`: (-y, x); a one-component vector has no y. */
  function Perpendicular2D(a: seq<real>): (r: Result<seq<real>>)
    ensures r.Err? <==> |a| < 2
    ensures r.Err? ==> r.error == NoYComponent
    ensures r.Ok? ==> |r.value| == 2
  {
    if |a| < 2 then Err(NoYComponent) else Ok([-a[1], a[0]])
  }

  /**
   * The perpendicular is 2D, orthogonal to the first two components of the
   * input, equally long, and taking it twice negates those components.
   */
  lemma PerpendicularMeaning(a: seq<real>)
    ensures Perpendicular2D(a).Err? <==> |a| < 2
    ensures Perpendicular2D(a).Ok? ==>
      var p := Perpendicular2D(a).value;
      |p| == 2 && Dot(p, a[..2]) == 0.0 && Dot(p, p) == Dot(a[..2], a[..2]) &&
      Perpendicular2D(p) == Ok(Scale(a[..2], -1.0))
  {
    if |a| >= 2 {
      var p := Perpendicular2D(a).value;
      Dot2(p, a[..2]);
      Dot2(p, p);
      Dot2(a[..2], a[..2]);
      assert Perpendicular2D(p).value == Scale(a[..2], -1.0);
    }
  }

  /** `cross`: the 3D cross product; both operands must be exactly 3D. */
  function Cross(a: seq<real>, b: seq<real>): (r: Result<seq<real>>)
    ensures r.Err? <==> |a| != 3 || |b| != 3
    ensures r.Err? ==> r.error == NotThreeDimensional
    ensures r.Ok? ==> |r.value| == 3
  {
    if |a| != 3 || |b| != 3 then Err(NotThreeDimensional)
    else Ok([a[1] * b[2] - a[2] * b[1],
             a[2] * b[0] - a[0] * b[2],
             a[0] * b[1] - a[1] * b[0]])
  }

  /** The cross product is orthogonal to both operands. */
  lemma CrossIsOrthogonal(a: seq<real>, b: seq<real>)
    requires |a| == 3 && |b| == 3
    ensures Dot(Cross(a, b).value, a) == 0.0
    ensures Dot(Cross(a, b).value, b) == 0.0
  {
    var c := Cross(a, b).value;
    OrthogonalToFirst(a, b, c);
    OrthogonalToSecond(a, b, c);
  }

  /** Whether c has the components of a x b, written out. */
  predicate IsCrossOf(a: seq<real>, b: seq<real>, c: seq<real>)
    requires |a| == 3 && |b| == 3 && |c| == 3
  {
    && c[0] == a[1] * b[2] - a[2] * b[1]
    && c[1] == a[2] * b[0] - a[0] * b[2]
    && c[2] == a[0] * b[1] - a[1] * b[0]
  }

  lemma OrthogonalToFirst(a: seq<real>, b: seq<real>, c: seq<real>)
    requires |a| == 3 && |b| == 3 && |c| == 3 && IsCrossOf(a, b, c)
    ensures Dot(c, a) == 0.0
  {
    Dot3(c, a);
    TripleProductFirst(a[0], a[1], a[2], b[0], b[1], b[2], c[0], c[1], c[2]);
  }

  lemma OrthogonalToSecond(a: seq<real>, b: seq<real>, c: seq<real>)
    requires |a| == 3 && |b| == 3 && |c| == 3 && IsCrossOf(a, b, c)
    ensures Dot(c, b) == 0.0
  {
    Dot3(c, b);
    TripleProductSecond(a[0], a[1], a[2], b[0], b[1], b[2], c[0], c[1], c[2]);
  }

  /** (a x b) . a, written out componentwise, is zero. */
  lemma TripleProductFirst(a0: real, a1: real, a2: real, b0: real, b1: real, b2: real,
                           c0: real, c1: real, c2: real)
    requires c0 == a1 * b2 - a2 * b1 && c1 == a2 * b0 - a0 * b2 && c2 == a0 * b1 - a1 * b0
    ensures c0 * a0 + c1 * a1 + c2 * a2 == 0.0
  {
    assert c0 * a0 == (a0 * a1) * b2 - (a0 * a2) * b1;
    assert c1 * a1 == (a1 * a2) * b0 - (a0 * a1) * b2;
    assert c2 * a2 == (a0 * a2) * b1 - (a1 * a2) * b0;
  }

  /** (a x b) . b, written out componentwise, is zero. */
  lemma TripleProductSecond(a0: real, a1: real, a2: real, b0: real, b1: real, b2: real,
                            c0: real, c1: real, c2: real)
    requires c0 == a1 * b2 - a2 * b1 && c1 == a2 * b0 - a0 * b2 && c2 == a0 * b1 - a1 * b0
    ensures c0 * b0 + c1 * b1 + c2 * b2 == 0.0
  {
    assert c0 * b0 == a1 * (b2 * b0) - a2 * (b1 * b0);
    assert c1 * b1 == a2 * (b1 * b0) - a0 * (b2 * b1);
    assert c2 * b2 == a0 * (b2 * b1) - a1 * (b2 * b0);
  }

  /** Swapping the operands negates the cross product. */
  lemma CrossAntiCommutes(a: seq<real>, b: seq<real>)
    requires |a| == 3 && |b| == 3
    ensures Cross(a, b).value == Scale(Cross(b, a).value, -1.0)
  {
  }

  /** A 3D vector crossed with itself is the zero vector. */
  lemma CrossSelfIsZero(a: seq<real>)
    requires |a| == 3
    ensures IsZero(Cross(a, a).value)
  {
  }

  /** The unit x and y axes cross to the unit z axis. */
  lemma CrossOfAxes()
    ensures Cross([1.0, 0.0, 0.0], [0.0, 1.0, 0.0]) == Ok([0.0, 0.0, 1.0])
  {
  }

  // ---------------------------------------------------------------------
  // Angles

  /**
   * `fromAngle`: the 2D vector (cos t, sin t) for the angle t in radians of
   * the given angle in degrees. The trigonometric functions are parameters.
   */
  function FromAngle(degrees: real, cos: real -> real, sin: real -> real): (r: seq<real>)
    ensures |r| == 2
  {
    var t := VectorUtils.DegreesToRadians(degrees);
    [cos(t), sin(t)]
  }

  /**
   * `fromAngle` always yields a 2D vector whose squared length is
   * cos^2 t + sin^2 t at the converted angle t, so it is a unit vector exactly
   * when the supplied functions satisfy the Pythagorean identity there.
   */
  lemma FromAngleMeaning(degrees: real, cos: real -> real, sin: real -> real)
    ensures |FromAngle(degrees, cos, sin)| == 2
    ensures var t := VectorUtils.DegreesToRadians(degrees);
      Dot(FromAngle(degrees, cos, sin), FromAngle(degrees, cos, sin)) == cos(t) * cos(t) + sin(t) * sin(t)
  {
    var v := FromAngle(degrees, cos, sin);
    Dot2(v, v);
  }

  // ---------------------------------------------------------------------
  // Points

  /** JavaScript truthiness of an optional number: present and non-zero. */
  predicate Truthy(z: Option<real>) {
    z.Some? && z.value != 0.0
  }

  /** `fromPoint`: 3D when z is truthy, otherwise 2D from x and y. */
  function FromPoint(p: Point): (r: seq<real>)
    ensures |r| == (if Truthy(p.z) then 3 else 2)
    ensures r[0] == p.x && r[1] == p.y
  {
    if Truthy(p.z) then [p.x, p.y, p.z.value] else [p.x, p.y]
  }

  /** `toPoint`: fails below two components, drops everything after the third. */
  function ToPoint(a: seq<real>): (r: Result<Point>)
    ensures r.Err? <==> |a| < 2
    ensures r.Err? ==> r.error == NotEnoughForPoint
    ensures r.Ok? ==> (r.value.z.Some? <==> |a| >= 3)
  {
    if |a| < 2 then Err(NotEnoughForPoint)
    else if |a| > 2 then Ok(Point(a[0], a[1], Some(a[2])))
    else Ok(Point(a[0], a[1], None))
  }

  /** `fromPoint` always yields 2 or 3 components, 3 exactly when z is truthy. */
  lemma FromPointShape(p: Point)
    ensures |FromPoint(p)| == (if Truthy(p.z) then 3 else 2)
    ensures FromPoint(p)[0] == p.x && FromPoint(p)[1] == p.y
    ensures Truthy(p.z) ==> FromPoint(p)[2] == p.z.value
  {
  }

  /** `toPoint` fails exactly below two components and keeps x, y (and z). */
  lemma ToPointShape(a: seq<real>)
    ensures ToPoint(a).Err? <==> |a| < 2
    ensures ToPoint(a).Err? ==> ToPoint(a).error == NotEnoughForPoint
    ensures ToPoint(a).Ok? ==>
      var p := ToPoint(a).value;
      p.x == a[0] && p.y == a[1] && (p.z.Some? <==> |a| >= 3) && (p.z.Some? ==> p.z.value == a[2])
  {
  }

  /**
   * Going through a point keeps the first two components, and the third
   * exactly when it is non-zero; everything after the third is lost.
   */
  lemma PointProjection(a: seq<real>)
    requires |a| >= 2
    ensures ToPoint(a).Ok?
    ensures FromPoint(ToPoint(a).value) == if |a| >= 3 && a[2] != 0.0 then a[..3] else a[..2]
  {
  }

  /** Every 2D vector, and every 3D vector with non-zero z, survives the round trip. */
  lemma PointRoundTrip(a: seq<real>)
    requires |a| == 2 || (|a| == 3 && a[2] != 0.0)
    ensures ToPoint(a).Ok? && FromPoint(ToPoint(a).value) == a
  {
    PointProjection(a);
  }

  /** A point survives the round trip except that a zero z is dropped. */
  lemma VectorRoundTrip(p: Point)
    ensures ToPoint(FromPoint(p)) == Ok(if Truthy(p.z) then p else p.(z := None))
  {
  }
}
