# Vector algebra of pixi-splitscreen-demo, modelled in Dafny

The game's vector package defines a `Vector` class: an n-component numeric
tuple with at least one component. It has `x`/`y`/`z` accessors (only `y`
checks the dimension), component-wise arithmetic, dot and cross products,
one-based component flips on a copy, a 2D perpendicular, and conversion to
and from `{x, y, z?}` point records. A small `VectorUtils`
helper converts between degrees and radians.

The project has three modules:

- `VectorUtils` (`utils.dfy`) holds the unit conversions. `Pi` is an abstract
  constant that is only known to be positive. Arithmetic is exact, so both
  round trips hold exactly.
- `VectorAlgebra` (`algebra.dfy`) gives the meaning of each vector operation
  that builds or combines components as a function on the component sequence
  (`seq<real>`). The accessors are specified directly on the array, and the
  meaning of `from` (`FromParam`) lives in `Vectors` because it inspects a
  vector argument. `VectorAlgebra` also holds the
  lemmas about those functions: inverses, symmetry, orthogonality, the point
  round trip, and so on. It defines the error kinds the class raises, as
  `Result`/`Outcome` values instead of exceptions.
- `Vectors` (`vector.dfy`) holds the class `Vector` itself.
  - Its components are a fixed array. The `x`/`y`/`z` setters write into it
    in place, and `flipComponent` writes into a fresh copy.
  - The getters, `dot`, the squared length and `toPoint` only read the
    components. The remaining operations, when they succeed, return a vector
    over a fresh array, except that `normalizeOrRemain` returns the receiver itself for the zero
    vector. The arithmetic, geometric and factory methods tie their result
    to the matching `VectorAlgebra` function of the operands. The getters
    and setters are specified on the array, `fromVector`/`copy` on the
    operand's components, and `from` on `FromParam`.
  - The `forEach` accumulations of `dot` and `length`, and the `push` loop of
    `map`, are loops proved against those functions.

Exact reals replace IEEE doubles. The square root, cosine and sine are not
computed. `normalize` and `normalizeOrRemain` take the receiver's magnitude as
an argument, which must be the non-negative square root of the sum of
squares. `fromAngle` and `from` take the cosine and sine as function
arguments.

Behaviour the model keeps exactly as the code has it:

- `perpendicular2D` has no check for more than two components. It fails only
  through the `y` getter, when there is one component.
- `add` and `subtract` never report a dimension mismatch. The result has the
  argument's dimension.
- The `y` setter fails under the same condition as the `y` getter, fewer
  than two components.

## Model

| member | source | states |
|---|---|---|
| `VectorUtils.DegreesToRadians` | src/game/vector/VectorUtils.ts:3-5 | radians * 180 = degrees * Pi |
| `VectorUtils.RadiansToDegrees` | src/game/vector/VectorUtils.ts:7-9 | degrees * Pi = radians * 180 |
| `VectorUtils.DegreesRoundTrip` | src/game/vector/VectorUtils.ts:3-9 | radiansToDegrees(degreesToRadians(d)) = d for every real d |
| `VectorUtils.RadiansRoundTrip` | src/game/vector/VectorUtils.ts:3-9 | degreesToRadians(radiansToDegrees(r)) = r for every real r |
| `VectorUtils.Landmarks` | src/game/vector/VectorUtils.ts:3-9 | 0 degrees is 0 radians, 180 degrees is Pi, 360 degrees is 2 Pi, Pi radians is 180 degrees |
| `VectorUtils.ConversionsAreLinear` | src/game/vector/VectorUtils.ts:3-9 | both conversions preserve sums and scalar multiples |
| `VectorUtils.ConversionsAreInjective` | src/game/vector/VectorUtils.ts:3-9 | two angles convert to the same value exactly when they are equal |
| `VectorAlgebra.Make` | src/game/vector/Vector.ts:44-47 | construction fails exactly when there are no components; otherwise the components are kept verbatim, so there is at least one |
| `VectorAlgebra.Add` | src/game/vector/Vector.ts:86-91 | add has the argument's dimension, and adding a zero argument keeps the receiver's leading components |
| `VectorAlgebra.Subtract` | src/game/vector/Vector.ts:93-98 | subtract has the argument's dimension, and subtracting a zero argument keeps the receiver's leading components |
| `VectorAlgebra.Scale` | src/game/vector/Vector.ts:100-102 | scale keeps the dimension; scaling by 1 changes nothing and scaling by 0 gives the zero vector |
| `VectorAlgebra.Divide` | src/game/vector/Vector.ts:104-106 | divide keeps the dimension; dividing by 1 changes nothing and the zero vector stays zero |
| `VectorAlgebra.MapComponents` | src/game/vector/Vector.ts:214-219 | map keeps the dimension |
| `VectorAlgebra.Middle` | src/game/vector/Vector.ts:262-264 | the midpoint has the argument's dimension |
| `VectorAlgebra.Normalize` | src/game/vector/Vector.ts:108-111 | normalize fails with the zero-length error exactly when the magnitude is 0, and otherwise keeps the dimension |
| `VectorAlgebra.FlipComponent` | src/game/vector/Vector.ts:177-184 | flipComponent(n) fails with the no-such-component error for n exactly when n is outside 1..length, and otherwise keeps the dimension |
| `VectorAlgebra.Perpendicular2D` | src/game/vector/Vector.ts:198-200 | perpendicular2D fails with the y getter's error exactly below two components, and is otherwise 2D |
| `VectorAlgebra.Cross` | src/game/vector/Vector.ts:202-212 | cross fails with the not-3D error exactly unless both operands have 3 components, and is otherwise 3D |
| `VectorAlgebra.FromAngle` | src/game/vector/Vector.ts:77-80 | fromAngle is always 2D |
| `VectorAlgebra.FromPoint` | src/game/vector/Vector.ts:67-70 | fromPoint has 3 components when z is present and non-zero, else 2, and starts with x and y |
| `VectorAlgebra.ToPoint` | src/game/vector/Vector.ts:227-231 | toPoint fails with its own error exactly below two components, and has a z exactly from three components on |
| `VectorAlgebra.AddShape` | src/game/vector/Vector.ts:86-98 | add/subtract have the argument's dimension and component i is this[i] + other[i] or this[i] - other[i] |
| `VectorAlgebra.SubtractSelfIsZero` | src/game/vector/Vector.ts:93-98 | v.subtract(v) is the zero vector of v's dimension |
| `VectorAlgebra.AddCommutes` | src/game/vector/Vector.ts:86-91 | on equal dimensions a.add(b) = b.add(a) |
| `VectorAlgebra.SubtractUndoesAdd` | src/game/vector/Vector.ts:86-98 | subtracting b after adding b, or adding after subtracting, gives the receiver cut to b's dimension |
| `VectorAlgebra.DivideUndoesScale` | src/game/vector/Vector.ts:100-106 | for k != 0, divide(k) undoes scale(k) and scale(k) undoes divide(k) |
| `VectorAlgebra.DivideIsScaleByInverse` | src/game/vector/Vector.ts:100-106 | divide(k) equals scale(1/k) |
| `VectorAlgebra.MapIdentity` | src/game/vector/Vector.ts:214-219 | mapping the identity gives the same components |
| `VectorAlgebra.MapComposes` | src/game/vector/Vector.ts:214-219 | mapping f then g equals mapping their composition |
| `VectorAlgebra.ScaleIsMap` | src/game/vector/Vector.ts:100-102 | scale(k) is the map of multiplication by k |
| `VectorAlgebra.MiddleIsAverage` | src/game/vector/Vector.ts:262-264 | the midpoint has the argument's dimension, and component i is the average of the two operands' components |
| `VectorAlgebra.MiddleIsSymmetric` | src/game/vector/Vector.ts:262-264 | on equal dimensions the midpoint is order-independent and equidistant from both ends |
| `VectorAlgebra.MiddleOfSelf` | src/game/vector/Vector.ts:262-264 | the midpoint of v and v is v |
| `VectorAlgebra.Dot` | src/game/vector/Vector.ts:126-135 | dot is the sum of the pairwise products of two equal-length component sequences, accumulated by index; its properties are the lemmas below |
| `VectorAlgebra.DotZero` | src/game/vector/Vector.ts:126-135 | a zero operand on either side makes the dot product 0 |
| `VectorAlgebra.DotSymmetric` | src/game/vector/Vector.ts:126-135 | a.dot(b) = b.dot(a) |
| `VectorAlgebra.DotSelf` | src/game/vector/Vector.ts:126-135 | v.dot(v) >= 0, with equality exactly when every component is zero |
| `VectorAlgebra.DotScaleLeft` | src/game/vector/Vector.ts:100-102 | scaling one operand by k scales the dot product by k |
| `VectorAlgebra.NormalizeMeaning` | src/game/vector/Vector.ts:108-111 | given the true magnitude, normalize fails exactly on the zero vector; otherwise the result has the same dimension, squared length 1, and equals scale(1/magnitude) |
| `VectorAlgebra.FlipMeaning` | src/game/vector/Vector.ts:177-184 | a flip fails exactly unless 1 <= n <= length; otherwise it differs from the input only at index n-1, which is negated |
| `VectorAlgebra.FlipTwiceRestores` | src/game/vector/Vector.ts:177-184 | flipping the same component twice restores the original components |
| `VectorAlgebra.FlipsCommute` | src/game/vector/Vector.ts:177-184 | flips of two valid components can be applied in either order |
| `VectorAlgebra.PerpendicularMeaning` | src/game/vector/Vector.ts:198-200 | perpendicular2D fails exactly below two components; otherwise it is 2D, orthogonal to (x, y), as long as (x, y), and taking it twice gives (-x, -y) |
| `VectorAlgebra.CrossIsOrthogonal` | src/game/vector/Vector.ts:202-212 | a.cross(b) has dot product 0 with a and with b |
| `VectorAlgebra.CrossAntiCommutes` | src/game/vector/Vector.ts:202-212 | a.cross(b) = -(b.cross(a)) |
| `VectorAlgebra.CrossSelfIsZero` | src/game/vector/Vector.ts:202-212 | a 3D vector crossed with itself is zero |
| `VectorAlgebra.CrossOfAxes` | src/game/vector/Vector.ts:202-212 | (1,0,0) x (0,1,0) = (0,0,1) |
| `VectorAlgebra.FromAngleMeaning` | src/game/vector/Vector.ts:77-80 | fromAngle is 2D and its squared length is cos^2 t + sin^2 t at the converted angle t (obtained by unfolding the 2D dot product), so it is a unit vector exactly when the supplied functions satisfy the Pythagorean identity there |
| `VectorAlgebra.FromPointShape` | src/game/vector/Vector.ts:67-70 | fromPoint gives 3 components exactly when z is present and non-zero, else 2, in the order x, y (, z) |
| `VectorAlgebra.ToPointShape` | src/game/vector/Vector.ts:227-231 | toPoint fails exactly below 2 components; otherwise x and y are the first two components, and z is present exactly from 3 components on and is the third |
| `VectorAlgebra.PointProjection` | src/game/vector/Vector.ts:67-70 | toPoint then fromPoint keeps x and y, keeps the third component only when it is non-zero, and drops the rest |
| `VectorAlgebra.PointRoundTrip` | src/game/vector/Vector.ts:227-231 | fromPoint(toPoint(v)) = v for every 2D v and every 3D v with z != 0 |
| `VectorAlgebra.VectorRoundTrip` | src/game/vector/Vector.ts:67-70 | toPoint(fromPoint(p)) = p, except that a zero z is dropped |
| `Vectors.FromParam` | src/game/vector/Vector.ts:49-65 | from fails, always with the could-not-create error, exactly on values that are neither a vector, a number, nor an object with both x and y |
| `Vectors.FromParamMeaning` | src/game/vector/Vector.ts:49-65 | whatever from builds has at least one component, and a point-like object gives 2 or 3 of them |
| `Vectors.Vector.Init` | src/game/vector/Vector.ts:44-47 | the constructor body stores the given non-empty components verbatim in a fresh array |
| `Vectors.Vector.New` | src/game/vector/Vector.ts:44-47 | the constructor fails on zero components; otherwise it returns a fresh vector holding exactly the given components |
| `Vectors.Vector.X` | src/game/vector/Vector.ts:10-12 | the x getter returns the first component |
| `Vectors.Vector.SetX` | src/game/vector/Vector.ts:14-16 | the x setter replaces the first component and changes nothing else |
| `Vectors.Vector.Y` | src/game/vector/Vector.ts:18-21 | the y getter fails below two components, otherwise returns the second |
| `Vectors.Vector.SetY` | src/game/vector/Vector.ts:23-26 | the y setter fails below two components and leaves the components unchanged; otherwise it replaces only the second |
| `Vectors.Vector.Z` | src/game/vector/Vector.ts:28-30 | the z getter returns the third component |
| `Vectors.Vector.SetZ` | src/game/vector/Vector.ts:32-34 | the z setter replaces only the third component |
| `Vectors.Vector.SquaredLength` | src/game/vector/Vector.ts:36-41 | the length getter's accumulation equals v.dot(v); it is non-negative and zero exactly for the zero vector |
| `Vectors.Vector.FromPoint` | src/game/vector/Vector.ts:67-70 | fromPoint returns a fresh vector with the components of the point rule |
| `Vectors.Vector.FromAngle` | src/game/vector/Vector.ts:77-80 | fromAngle returns a fresh vector (cos t, sin t), where t is the angle in radians |
| `Vectors.Vector.FromVector` | src/game/vector/Vector.ts:82-84 | fromVector returns equal components in a fresh array |
| `Vectors.Vector.Copy` | src/game/vector/Vector.ts:301-303 | copy returns equal components in a fresh array |
| `Vectors.Vector.From` | src/game/vector/Vector.ts:49-65 | from dispatches a vector to fromVector, a number to fromAngle, an object with x and y to fromPoint, and fails on anything else |
| `Vectors.Vector.Add` | src/game/vector/Vector.ts:86-91 | add returns a fresh vector with the component-wise sums, and changes neither operand |
| `Vectors.Vector.Subtract` | src/game/vector/Vector.ts:93-98 | subtract returns a fresh vector with the component-wise differences, and changes neither operand |
| `Vectors.Vector.Scale` | src/game/vector/Vector.ts:100-102 | scale returns a fresh vector with every component multiplied by the scalar |
| `Vectors.Vector.Divide` | src/game/vector/Vector.ts:104-106 | divide returns a fresh vector with every component divided by the scalar |
| `Vectors.Vector.Normalize` | src/game/vector/Vector.ts:108-111 | normalize fails exactly on the zero vector; otherwise it returns a fresh vector, the receiver divided by its magnitude |
| `Vectors.Vector.NormalizeOrRemain` | src/game/vector/Vector.ts:113-119 | on the zero vector, normalizeOrRemain returns the receiver itself; otherwise a fresh normalised vector |
| `Vectors.Vector.Dot` | src/game/vector/Vector.ts:126-135 | dot fails when the component counts differ; otherwise the loop's sum equals the dot product of the two component sequences |
| `Vectors.Vector.FlipComponent` | src/game/vector/Vector.ts:177-184 | flipComponent(n) fails unless 1 <= n <= length; otherwise it returns a fresh copy with component n negated, and the receiver is unchanged |
| `Vectors.Vector.FlipX` | src/game/vector/Vector.ts:266-268 | flipX is flipComponent(1) |
| `Vectors.Vector.FlipY` | src/game/vector/Vector.ts:270-272 | flipY is flipComponent(2) |
| `Vectors.Vector.FlipZ` | src/game/vector/Vector.ts:274-276 | flipZ is flipComponent(3) |
| `Vectors.Vector.Perpendicular2D` | src/game/vector/Vector.ts:198-200 | perpendicular2D fails as the y getter does; otherwise it returns a fresh (-y, x) |
| `Vectors.Vector.Cross` | src/game/vector/Vector.ts:202-212 | cross fails unless both operands are 3D; otherwise it returns a fresh vector holding their cross product |
| `Vectors.Vector.Map` | src/game/vector/Vector.ts:214-219 | map returns a fresh vector holding the callback applied to each component, in order |
| `Vectors.Vector.ToPoint` | src/game/vector/Vector.ts:227-231 | toPoint returns the point rule's result for the receiver's components |
| `Vectors.Vector.Middle` | src/game/vector/Vector.ts:262-264 | middle returns a fresh vector, (this + other) / 2 |
| `Vectors.CopyIsIndependent` | src/game/vector/Vector.ts:301-303 | writing through a copy's x setter changes the copy only, never the original |

## Left out

- `length` (src/game/vector/Vector.ts:36-42): the model covers only the sum of squares (`SquaredLength`). The square root over doubles is not modelled.
- `normalize`/`normalizeOrRemain` take the magnitude from the caller instead of computing it with `Math.sqrt`.
- `fromAngle`: the cosine and sine are function arguments. Their values are not modelled.
- `angle`, `angleTo`, `distance`, `isNear`, `rotate`, `rotateAroundAnchor` and `reflectOverPoint` are not modelled. Their values need `Math.acos`, `Math.atan2`, `Math.sqrt`, `Math.cos` and `Math.sin` over doubles.
- The `y` setter's error message (src/game/vector/Vector.ts:24) speaks of a "z component". The model does not keep message texts, and gives the setter the same error kind as the getter, `NoYComponent`.
- `log` is not modelled: it only writes a table to the console.
- IEEE behaviour is not modelled: division by zero giving Infinity or NaN, NaN from `undefined` components, rounding, and a `length` that underflows to 0. Reals and preconditions replace them.
- `from`: the runtime `instanceof`/`typeof`/`hasOwnProperty` tests become the tagged `Param` datatype. Passing `null` (which makes `hasOwnProperty` throw a `TypeError`) is not modelled.
- `components` is public and mutable in the source. Here it is a `const` array, so reassigning it from outside, or sharing one array between two vectors, is not modelled.
- `map`'s callback is a pure total function `real -> real`. Side effects and exceptions in the callback are not modelled.
- Vectors.Vector.Z: requires at least three components. The source reads `undefined` there.
- Vectors.Vector.SetZ: requires at least three components. The source grows the array there, so the vector is resized.
- Vectors.Vector.Add: requires the argument to have no more components than the receiver. The source produces NaN components there.
- Vectors.Vector.Subtract: requires the argument to have no more components than the receiver, for the same reason as `Add`.
- Vectors.Vector.Middle: requires the argument to have no more components than the receiver, because `middle` calls `add`.
- Vectors.Vector.Divide: requires a non-zero divisor. The source produces Infinity or NaN components.
- Vectors.Vector.FlipComponent: `n` is an integer. In the source a fractional `n` inside the range writes to a non-index property.
- The other game files are rendering and input glue over pixi.js, the browser window, the keyboard and the ticker: the player, the renderer, the screens, the engine and the background. They are not part of this model. The type and interface files have no logic.
