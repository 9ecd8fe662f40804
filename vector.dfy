/**
 * The `Vector` class: an n-component numeric tuple whose components live in
 * an array that the `x`/`y`/`z` setters and `flipComponent` (on a fresh copy)
 * write in place. The getters and setters are specified on the array;
 * `fromVector` and `copy` on the operand's components; `from` on `FromParam`.
 * The arithmetic, geometric and factory methods tie their result to the
 * matching function of module VectorAlgebra, whose properties are proved
 * there; `normalizeOrRemain` returns the receiver itself for the zero vector.
 */
module Vectors {

  import opened VectorAlgebra

  /**
   * The argument of the factory `from`: another vector, a number (an angle in
   * degrees), an object with or without its own `x` and `y` properties (the
   * own-property tests) and with or without a `z` (read as `point.z`, so an
   * inherited `z` counts too), or any other value.
   */
  datatype Param =
    | VectorArg(v: Vector)
    | NumberArg(angle: real)
    | ObjectArg(x: Option<real>, y: Option<real>, z: Option<real>)
    | OtherArg

  /** The components `from` builds for its argument, or why it fails. */
  function FromParam(p: Param, cos: real -> real, sin: real -> real): (r: Result<seq<real>>)
    reads if p.VectorArg? then {p.v.components} else {}
    ensures r.Err? <==> p.OtherArg? || (p.ObjectArg? && (p.x.None? || p.y.None?))
    ensures r.Err? ==> r.error == CouldNotCreate
  {
    match p
    case VectorArg(v) => Ok(v.components[..])
    case NumberArg(angle) => Ok(FromAngle(angle, cos, sin))
    case ObjectArg(x, y, z) =>
      if x.Some? && y.Some? then Ok(FromPoint(Point(x.value, y.value, z))) else Err(CouldNotCreate)
    case OtherArg => Err(CouldNotCreate)
  }

  /**
   * Whatever `from` builds has at least one component, and a point-like
   * object gives 2 or 3 of them.
   */
  lemma FromParamMeaning(p: Param, cos: real -> real, sin: real -> real)
    requires p.VectorArg? ==> p.v.Valid()
    ensures FromParam(p, cos, sin).Ok? ==> |FromParam(p, cos, sin).value| >= 1
    ensures p.ObjectArg? && p.x.Some? && p.y.Some? ==>
      |FromParam(p, cos, sin).value| == (if Truthy(p.z) then 3 else 2)
  {
  }

  /** Whether a vector-valued result carries exactly the components (or error) `s`. */
  ghost predicate Yields(r: Result<Vector>, s: Result<seq<real>>)
    reads if r.Ok? then {r.value.components} else {}
  {
    match r
    case Err(e) => s == Err(e)
    case Ok(v) => s.Ok? && v.Valid() && v.components[..] == s.value
  }

  class Vector {
    /** The components, in order; never empty, never resized. */
    const components: array<real>

    /** The construction invariant: at least one component. */
    predicate Valid() {
      components.Length >= 1
    }

    /** Allocates a vector over a fresh array holding `cs`. */
    constructor Init(cs: seq<real>)
      requires |cs| >= 1
      ensures Valid() && fresh(components) && components[..] == cs
    {
      components := new real[|cs|](i requires 0 <= i < |cs| => cs[i]);
    }

    /** The constructor: zero components is an error, otherwise stored verbatim. */
    static method New(cs: seq<real>) returns (r: Result<Vector>)
      ensures Yields(r, Make(cs))
      ensures r.Ok? ==> fresh(r.value) && fresh(r.value.components)
    {
      if |cs| == 0 {
        return Err(NoComponents);
      }
      var v := new Vector.Init(cs);
      r := Ok(v);
    }

    // -------------------------------------------------------------------
    // Accessors

    /** The `x` getter: always the first component. */
    method X() returns (x: real)
      requires Valid()
      ensures x == components[0]
    {
      x := components[0];
    }

    /** The `x` setter: overwrites the first component and nothing else. */
    method SetX(x: real)
      requires Valid()
      modifies components
      ensures components[..] == old(components[..])[0 := x]
    {
      components[0] := x;
    }

    /** The `y` getter: the second component, or an error below two. */
    method Y() returns (r: Result<real>)
      requires Valid()
      ensures components.Length < 2 ==> r == Err(NoYComponent)
      ensures components.Length >= 2 ==> r == Ok(components[1])
    {
      if components.Length < 2 {
        return Err(NoYComponent);
      }
      r := Ok(components[1]);
    }

    /** The `y` setter: overwrites the second component, or fails below two. */
    method SetY(y: real) returns (o: Outcome)
      requires Valid()
      modifies components
      ensures o.Fail? <==> components.Length < 2
      ensures o.Fail? ==> o.error == NoYComponent && components[..] == old(components[..])
      ensures o.Pass? ==> components[..] == old(components[..])[1 := y]
    {
      if components.Length < 2 {
        return Fail(NoYComponent);
      }
      components[1] := y;
      o := Pass;
    }

    /** The `z` getter: the third component (only defined from three on). */
    method Z() returns (z: real)
      requires components.Length >= 3
      ensures z == components[2]
    {
      z := components[2];
    }

    /** The `z` setter: overwrites the third component (only from three on). */
    method SetZ(z: real)
      requires components.Length >= 3
      modifies components
      ensures components[..] == old(components[..])[2 := z]
    {
      components[2] := z;
    }

    /**
     * The accumulation inside the `length` getter: the sum of the squares of
     * the components, which is never negative and is zero exactly for the
     * zero vector. (The getter then takes its square root.)
     */
    method SquaredLength() returns (res: real)
      requires Valid()
      ensures res == VectorAlgebra.Dot(components[..], components[..])
      ensures res >= 0.0 && (res == 0.0 <==> IsZero(components[..]))
    {
      res := 0.0;
      var i := 0;
      while i < components.Length
        invariant 0 <= i <= components.Length
        invariant res == VectorAlgebra.Dot(components[..i], components[..i])
      {
        DotStep(components[..], components[..], i);
        assert components[..][..i] == components[..i] && components[..][..i + 1] == components[..i + 1];
        res := res + components[i] * components[i];
        i := i + 1;
      }
      assert components[..i] == components[..];
      DotSelf(components[..]);
    }

    // -------------------------------------------------------------------
    // Factories

    /** `fromPoint`: 3D when the point's z is truthy, otherwise 2D. */
    static method FromPoint(p: Point) returns (v: Vector)
      ensures fresh(v) && fresh(v.components) && v.Valid()
      ensures v.components[..] == VectorAlgebra.FromPoint(p)
    {
      if Truthy(p.z) {
        v := new Vector.Init([p.x, p.y, p.z.value]);
      } else {
        v := new Vector.Init([p.x, p.y]);
      }
    }

    /** `fromAngle`, with the cosine and sine supplied by the caller. */
    static method FromAngle(degrees: real, cos: real -> real, sin: real -> real) returns (v: Vector)
      ensures fresh(v) && fresh(v.components) && v.Valid()
      ensures v.components[..] == VectorAlgebra.FromAngle(degrees, cos, sin)
    {
      v := new Vector.Init(VectorAlgebra.FromAngle(degrees, cos, sin));
    }

    /** `fromVector`: equal components in a fresh array. */
    static method FromVector(other: Vector) returns (v: Vector)
      requires other.Valid()
      ensures fresh(v) && fresh(v.components) && v.Valid()
      ensures v.components[..] == other.components[..]
    {
      v := new Vector.Init(other.components[..]);
    }

    /** `copy`: `fromVector` of the receiver. */
    method Copy() returns (v: Vector)
      requires Valid()
      ensures fresh(v) && fresh(v.components) && v.Valid()
      ensures v.components[..] == components[..]
    {
      v := FromVector(this);
    }

    /** `from`: dispatch on the kind of the argument. */
    static method From(p: Param, cos: real -> real, sin: real -> real) returns (r: Result<Vector>)
      requires p.VectorArg? ==> p.v.Valid()
      ensures Yields(r, FromParam(p, cos, sin))
      ensures r.Ok? ==> fresh(r.value) && fresh(r.value.components)
    {
      match p
      case VectorArg(other) =>
        var v := FromVector(other);
        r := Ok(v);
      case NumberArg(angle) =>
        var v := FromAngle(angle, cos, sin);
        r := Ok(v);
      case ObjectArg(x, y, z) =>
        if x.Some? && y.Some? {
          var v := FromPoint(Point(x.value, y.value, z));
          r := Ok(v);
        } else {
          r := Err(CouldNotCreate);
        }
      case OtherArg =>
        r := Err(CouldNotCreate);
    }

    // -------------------------------------------------------------------
    // Arithmetic

    /** `add`: a new vector of the argument's dimension; neither operand changes. */
    method Add(other: Vector) returns (v: Vector)
      requires Valid() && other.Valid()
      requires other.components.Length <= components.Length
      ensures fresh(v) && fresh(v.components) && v.Valid()
      ensures v.components[..] == VectorAlgebra.Add(components[..], other.components[..])
    {
      v := new Vector.Init(VectorAlgebra.Add(components[..], other.components[..]));
    }

    /** `subtract`: a new vector of the argument's dimension; neither operand changes. */
    method Subtract(other: Vector) returns (v: Vector)
      requires Valid() && other.Valid()
      requires other.components.Length <= components.Length
      ensures fresh(v) && fresh(v.components) && v.Valid()
      ensures v.components[..] == VectorAlgebra.Subtract(components[..], other.components[..])
    {
      v := new Vector.Init(VectorAlgebra.Subtract(components[..], other.components[..]));
    }

    /** `scale`: every component multiplied by the scalar. */
    method Scale(k: real) returns (v: Vector)
      requires Valid()
      ensures fresh(v) && fresh(v.components) && v.Valid()
      ensures v.components[..] == VectorAlgebra.Scale(components[..], k)
    {
      v := new Vector.Init(VectorAlgebra.Scale(components[..], k));
    }

    /** `divide`: every component divided by the non-zero scalar. */
    method Divide(k: real) returns (v: Vector)
      requires Valid() && k != 0.0
      ensures fresh(v) && fresh(v.components) && v.Valid()
      ensures v.components[..] == VectorAlgebra.Divide(components[..], k)
    {
      v := new Vector.Init(VectorAlgebra.Divide(components[..], k));
    }

    /**
     * `normalize`, given the receiver's magnitude (the non-negative square
     * root of its sum of squares): fails exactly on the zero vector.
     */
    method Normalize(magnitude: real) returns (r: Result<Vector>)
      requires Valid()
      requires magnitude >= 0.0 && magnitude * magnitude == VectorAlgebra.Dot(components[..], components[..])
      ensures Yields(r, VectorAlgebra.Normalize(components[..], magnitude))
      ensures r.Err? <==> IsZero(components[..])
      ensures r.Ok? ==> fresh(r.value) && fresh(r.value.components)
    {
      NormalizeMeaning(components[..], magnitude);
      if magnitude == 0.0 {
        return Err(ZeroLength);
      }
      var v := Divide(magnitude);
      r := Ok(v);
    }

    /** `normalizeOrRemain`: the receiver itself, not a copy, when it cannot be normalised. */
    method NormalizeOrRemain(magnitude: real) returns (v: Vector)
      requires Valid()
      requires magnitude >= 0.0 && magnitude * magnitude == VectorAlgebra.Dot(components[..], components[..])
      ensures IsZero(components[..]) ==> v == this
      ensures !IsZero(components[..]) ==>
        fresh(v) && fresh(v.components) && v.Valid() &&
        VectorAlgebra.Normalize(components[..], magnitude) == Ok(v.components[..])
    {
      var r := Normalize(magnitude);
      match r
      case Ok(u) => v := u;
      case Err(_) => v := this;
    }

    /** `dot`: fails on different dimensions, otherwise the sum of pairwise products. */
    method Dot(other: Vector) returns (r: Result<real>)
      requires Valid() && other.Valid()
      ensures components.Length != other.components.Length ==> r == Err(ComponentCountMismatch)
      ensures components.Length == other.components.Length ==>
        r == Ok(VectorAlgebra.Dot(components[..], other.components[..]))
    {
      if components.Length != other.components.Length {
        return Err(ComponentCountMismatch);
      }
      var res := 0.0;
      var i := 0;
      while i < components.Length
        invariant 0 <= i <= components.Length
        invariant res == VectorAlgebra.Dot(components[..i], other.components[..i])
      {
        DotStep(components[..], other.components[..], i);
        assert components[..][..i] == components[..i] && components[..][..i + 1] == components[..i + 1];
        assert other.components[..][..i] == other.components[..i];
        assert other.components[..][..i + 1] == other.components[..i + 1];
        res := res + components[i] * other.components[i];
        i := i + 1;
      }
      assert components[..i] == components[..] && other.components[..i] == other.components[..];
      r := Ok(res);
    }

    // -------------------------------------------------------------------
    // Flips

    /** `flipComponent(n)`: a copy with component n (one-based) negated in place. */
    method FlipComponent(n: int) returns (r: Result<Vector>)
      requires Valid()
      ensures Yields(r, VectorAlgebra.FlipComponent(components[..], n))
      ensures r.Ok? ==> fresh(r.value) && fresh(r.value.components)
    {
      if n < 1 || n > components.Length {
        return Err(NoSuchComponent(n));
      }
      var v := Copy();
      v.components[n - 1] := -v.components[n - 1];
      r := Ok(v);
    }

    /** `flipX`: `flipComponent(1)`. */
    method FlipX() returns (r: Result<Vector>)
      requires Valid()
      ensures Yields(r, VectorAlgebra.FlipComponent(components[..], 1))
      ensures r.Ok? ==> fresh(r.value) && fresh(r.value.components)
    {
      r := FlipComponent(1);
    }

    /** `flipY`: `flipComponent(2)`. */
    method FlipY() returns (r: Result<Vector>)
      requires Valid()
      ensures Yields(r, VectorAlgebra.FlipComponent(components[..], 2))
      ensures r.Ok? ==> fresh(r.value) && fresh(r.value.components)
    {
      r := FlipComponent(2);
    }

    /** `flipZ`: `flipComponent(3)`. */
    method FlipZ() returns (r: Result<Vector>)
      requires Valid()
      ensures Yields(r, VectorAlgebra.FlipComponent(components[..], 3))
      ensures r.Ok? ==> fresh(r.value) && fresh(r.value.components)
    {
      r := FlipComponent(3);
    }

    // -------------------------------------------------------------------
    // Geometry

    /** `perpendicular2D`: (-y, x), failing as the `y` getter does. */
    method Perpendicular2D() returns (r: Result<Vector>)
      requires Valid()
      ensures Yields(r, VectorAlgebra.Perpendicular2D(components[..]))
      ensures r.Ok? ==> fresh(r.value) && fresh(r.value.components)
    {
      var y := Y();
      if y.Err? {
        return Err(y.error);
      }
      var x := X();
      var v := new Vector.Init([-y.value, x]);
      r := Ok(v);
    }

    /** `cross`: the 3D cross product; fails unless both operands are 3D. */
    method Cross(other: Vector) returns (r: Result<Vector>)
      requires Valid() && other.Valid()
      ensures Yields(r, VectorAlgebra.Cross(components[..], other.components[..]))
      ensures r.Ok? ==> fresh(r.value) && fresh(r.value.components)
    {
      if components.Length != 3 || other.components.Length != 3 {
        return Err(NotThreeDimensional);
      }
      var v := new Vector.Init(VectorAlgebra.Cross(components[..], other.components[..]).value);
      r := Ok(v);
    }

    /** `map`: a new vector of the callback's results, pushed in component order. */
    method Map(f: real -> real) returns (v: Vector)
      requires Valid()
      ensures fresh(v) && fresh(v.components) && v.Valid()
      ensures v.components[..] == MapComponents(components[..], f)
    {
      var source := components[..];
      var result: seq<real> := [];
      var i := 0;
      while i < |source|
        invariant 0 <= i <= |source|
        invariant result == MapComponents(source[..i], f)
      {
        result := result + [f(source[i])];
        i := i + 1;
      }
      assert source[..i] == source;
      v := new Vector.Init(result);
    }

    /** `toPoint`: fails below two components, keeps at most x, y and z. */
    method ToPoint() returns (r: Result<Point>)
      requires Valid()
      ensures r == VectorAlgebra.ToPoint(components[..])
    {
      if components.Length < 2 {
        return Err(NotEnoughForPoint);
      }
      var x := X();
      var y := Y();
      if components.Length > 2 {
        var z := Z();
        r := Ok(Point(x, y.value, Some(z)));
      } else {
        r := Ok(Point(x, y.value, None));
      }
    }

    /** `middle`: the sum with the argument, halved. */
    method Middle(other: Vector) returns (v: Vector)
      requires Valid() && other.Valid()
      requires other.components.Length <= components.Length
      ensures fresh(v) && fresh(v.components) && v.Valid()
      ensures v.components[..] == VectorAlgebra.Middle(components[..], other.components[..])
    {
      var sum := Add(other);
      v := sum.Divide(2.0);
    }
  }

  /**
   * A copy owns its components: writing through the copy's setter leaves the
   * original untouched.
   */
  method CopyIsIndependent(v: Vector, x: real) returns (c: Vector)
    requires v.Valid()
    ensures fresh(c) && fresh(c.components) && c.Valid()
    ensures c.components[..] == v.components[..][0 := x]
    ensures unchanged(v.components)
  {
    c := v.Copy();
    c.SetX(x);
  }
}
