/** The area formulas of demo-1/areaUtils.js. Every function rejects a
    non-positive dimension by throwing an `Error` with a fixed message; here that
    is a `Failure` carrying the same message. Lengths are exact reals.

    `Math.PI` is the double nearest to pi, which is the rational number below.
    `Math.sqrt` and `Math.tan` have no exact counterpart: Heron's formula and the
    hexagon are modelled by the SQUARE of the area they return, and the regular
    polygon takes the value `Math.tan(Math.PI / sides)` as an argument. */
module AreaUtils {
  import opened Wrappers

  /** The IEEE-754 double `Math.PI`, 884279719003555 / 2^48. */
  const Pi: real := 884279719003555.0 / 281474976710656.0

  lemma PiBounds()
    ensures 3.14159 < Pi < 3.1416
  {
  }

  /** Multiplication, kept as a function so that a square such as `radius * radius`
      carries its sign to the caller. */
  function Times(x: real, y: real): (p: real)
    ensures x > 0.0 && y > 0.0 ==> p > 0.0
    ensures p == y * x
  {
    x * y
  }

  /** `squareArea(side)`. */
  function SquareArea(side: real): (r: Result<real, string>)
    ensures r.Failure? <==> side <= 0.0
    ensures r.Failure? ==> r.error == "Cạnh phải lớn hơn 0"
    ensures r.Success? ==> r.value > 0.0
  {
    if side <= 0.0 then Failure("Cạnh phải lớn hơn 0")
    else Success(Times(side, side))
  }

  /** `rectangleArea(length, width)`. */
  function RectangleArea(length: real, width: real): (r: Result<real, string>)
    ensures r.Failure? <==> length <= 0.0 || width <= 0.0
    ensures r.Failure? ==> r.error == "Chiều dài và chiều rộng phải lớn hơn 0"
    ensures r.Success? ==> r.value > 0.0
  {
    if length <= 0.0 || width <= 0.0 then Failure("Chiều dài và chiều rộng phải lớn hơn 0")
    else Success(length * width)
  }

  /** `circleArea(radius)`. */
  function CircleArea(radius: real): (r: Result<real, string>)
    ensures r.Failure? <==> radius <= 0.0
    ensures r.Failure? ==> r.error == "Bán kính phải lớn hơn 0"
    ensures r.Success? ==> r.value > 0.0
  {
    if radius <= 0.0 then Failure("Bán kính phải lớn hơn 0")
    else Success(Pi * Times(radius, radius))
  }

  /** `triangleArea(base, height)`. */
  function TriangleArea(base: real, height: real): (r: Result<real, string>)
    ensures r.Failure? <==> base <= 0.0 || height <= 0.0
    ensures r.Failure? ==> r.error == "Đáy và chiều cao phải lớn hơn 0"
    ensures r.Success? ==> r.value > 0.0
  {
    if base <= 0.0 || height <= 0.0 then Failure("Đáy và chiều cao phải lớn hơn 0")
    else Success((base * height) / 2.0)
  }

  /** Three lengths that `triangleAreaHeron` accepts: all positive, and each
      strictly shorter than the sum of the other two. */
  predicate IsTriangle(a: real, b: real, c: real)
  {
    a > 0.0 && b > 0.0 && c > 0.0 && a + b > c && a + c > b && b + c > a
  }

  /** The radicand s(s-a)(s-b)(s-c) of Heron's formula, s the half perimeter. */
  function HeronRadicand(a: real, b: real, c: real): real
  {
    var s := (a + b + c) / 2.0;
    Times(Times(Times(s, s - a), s - b), s - c)
  }

  /** `triangleAreaHeron(a, b, c)`, returning the square of the area (the value
      under `Math.sqrt`). The positivity check comes before the triangle check,
      as in the source. */
  function TriangleAreaHeronSquared(a: real, b: real, c: real): (r: Result<real, string>)
    ensures r.Failure? <==> !IsTriangle(a, b, c)
    ensures r.Failure? && (a <= 0.0 || b <= 0.0 || c <= 0.0) ==> r.error == "Các cạnh phải lớn hơn 0"
    ensures r.Failure? && a > 0.0 && b > 0.0 && c > 0.0 ==> r.error == "Ba cạnh không tạo thành tam giác hợp lệ"
    ensures r.Success? ==> r.value > 0.0
  {
    if a <= 0.0 || b <= 0.0 || c <= 0.0 then Failure("Các cạnh phải lớn hơn 0")
    else if a + b <= c || a + c <= b || b + c <= a then Failure("Ba cạnh không tạo thành tam giác hợp lệ")
    else
      Success(HeronRadicand(a, b, c))
  }

  /** `trapezoidArea(base1, base2, height)`. */
  function TrapezoidArea(base1: real, base2: real, height: real): (r: Result<real, string>)
    ensures r.Failure? <==> base1 <= 0.0 || base2 <= 0.0 || height <= 0.0
    ensures r.Failure? ==> r.error == "Các đáy và chiều cao phải lớn hơn 0"
    ensures r.Success? ==> r.value > 0.0
  {
    if base1 <= 0.0 || base2 <= 0.0 || height <= 0.0 then Failure("Các đáy và chiều cao phải lớn hơn 0")
    else Success(((base1 + base2) * height) / 2.0)
  }

  /** `parallelogramArea(base, height)`. */
  function ParallelogramArea(base: real, height: real): (r: Result<real, string>)
    ensures r.Failure? <==> base <= 0.0 || height <= 0.0
    ensures r.Failure? ==> r.error == "Đáy và chiều cao phải lớn hơn 0"
    ensures r.Success? ==> r.value > 0.0
  {
    if base <= 0.0 || height <= 0.0 then Failure("Đáy và chiều cao phải lớn hơn 0")
    else Success(base * height)
  }

  /** `rhombusArea(diagonal1, diagonal2)`. */
  function RhombusArea(diagonal1: real, diagonal2: real): (r: Result<real, string>)
    ensures r.Failure? <==> diagonal1 <= 0.0 || diagonal2 <= 0.0
    ensures r.Failure? ==> r.error == "Các đường chéo phải lớn hơn 0"
    ensures r.Success? ==> r.value > 0.0
  {
    if diagonal1 <= 0.0 || diagonal2 <= 0.0 then Failure("Các đường chéo phải lớn hơn 0")
    else Success((diagonal1 * diagonal2) / 2.0)
  }

  /** `ellipseArea(majorAxis, minorAxis)`, the axes being semi-axes. */
  function EllipseArea(majorAxis: real, minorAxis: real): (r: Result<real, string>)
    ensures r.Failure? <==> majorAxis <= 0.0 || minorAxis <= 0.0
    ensures r.Failure? ==> r.error == "Các bán trục phải lớn hơn 0"
    ensures r.Success? ==> r.value > 0.0
  {
    if majorAxis <= 0.0 || minorAxis <= 0.0 then Failure("Các bán trục phải lớn hơn 0")
    else Success(Pi * Times(majorAxis, minorAxis))
  }

  /** `sectorArea(radius, angle)`, the angle in degrees. */
  function SectorArea(radius: real, angle: real): (r: Result<real, string>)
    ensures r.Failure? <==> radius <= 0.0 || angle <= 0.0
    ensures r.Failure? ==> r.error == "Bán kính và góc phải lớn hơn 0"
    ensures r.Success? ==> r.value > 0.0
  {
    if radius <= 0.0 || angle <= 0.0 then Failure("Bán kính và góc phải lớn hơn 0")
    else Success((Pi * Times(radius, radius) * angle) / 360.0)
  }

  /** `sectorAreaRadian(radius, angleRad)`, the angle in radians. */
  function SectorAreaRadian(radius: real, angleRad: real): (r: Result<real, string>)
    ensures r.Failure? <==> radius <= 0.0 || angleRad <= 0.0
    ensures r.Failure? ==> r.error == "Bán kính và góc phải lớn hơn 0"
    ensures r.Success? ==> r.value > 0.0
  {
    if radius <= 0.0 || angleRad <= 0.0 then Failure("Bán kính và góc phải lớn hơn 0")
    else Success((Times(radius, radius) * angleRad) / 2.0)
  }

  /** `regularPolygonArea(sides, sideLength)`, given `tanPiOverSides`, the value of
      `Math.tan(Math.PI / sides)` (positive whenever sides >= 3). The side count is
      checked before the side length. */
  function RegularPolygonArea(sides: real, sideLength: real, tanPiOverSides: real): (r: Result<real, string>)
    requires tanPiOverSides > 0.0
    ensures r.Failure? <==> sides < 3.0 || sideLength <= 0.0
    ensures r.Failure? && sides < 3.0 ==> r.error == "Số cạnh phải lớn hơn hoặc bằng 3"
    ensures r.Failure? && sides >= 3.0 ==> r.error == "Độ dài cạnh phải lớn hơn 0"
    ensures r.Success? ==> r.value > 0.0
  {
    if sides < 3.0 then Failure("Số cạnh phải lớn hơn hoặc bằng 3")
    else if sideLength <= 0.0 then Failure("Độ dài cạnh phải lớn hơn 0")
    else Success((sides * Times(sideLength, sideLength)) / (4.0 * tanPiOverSides))
  }

  /** `hexagonArea(sideLength)`, returning the square of 3 * sqrt(3) * s^2 / 2. */
  function HexagonAreaSquared(sideLength: real): (r: Result<real, string>)
    ensures r.Failure? <==> sideLength <= 0.0
    ensures r.Failure? ==> r.error == "Độ dài cạnh phải lớn hơn 0"
    ensures r.Success? ==> r.value > 0.0
  {
    if sideLength <= 0.0 then Failure("Độ dài cạnh phải lớn hơn 0")
    else
      var s2 := Times(sideLength, sideLength);
      Success(27.0 * Times(s2, s2) / 4.0)
  }

  // ---------------------------------------------------------------------------
  // How the formulas relate
  // ---------------------------------------------------------------------------

  /** On valid inputs each formula yields the source's expression: the area is
      pinned to its geometry, not only to the other formulas. */
  lemma FormulasAsInSource(x: real, y: real, z: real)
    requires x > 0.0 && y > 0.0 && z > 0.0
    ensures SquareArea(x) == Success(x * x)
    ensures RectangleArea(x, y) == Success(x * y)
    ensures CircleArea(x).Success? && CircleArea(x).value == Pi * (x * x)
    ensures TriangleArea(x, y).Success? && 2.0 * TriangleArea(x, y).value == x * y
    ensures TrapezoidArea(x, y, z).Success? && 2.0 * TrapezoidArea(x, y, z).value == (x + y) * z
    ensures ParallelogramArea(x, y) == Success(x * y)
    ensures RhombusArea(x, y).Success? && 2.0 * RhombusArea(x, y).value == x * y
    ensures EllipseArea(x, y).Success? && EllipseArea(x, y).value == Pi * (x * y)
    ensures SectorArea(x, y).Success? && 360.0 * SectorArea(x, y).value == Pi * (x * x) * y
    ensures SectorAreaRadian(x, y).Success? && 2.0 * SectorAreaRadian(x, y).value == (x * x) * y
  {
  }

  /** A square is the rectangle with equal sides. */
  lemma SquareIsRectangle(side: real)
    ensures SquareArea(side).Success? <==> RectangleArea(side, side).Success?
    ensures SquareArea(side).Success? ==> SquareArea(side).value == RectangleArea(side, side).value
  {
  }

  /** A triangle is half the parallelogram on the same base and height, and
      both reject the same inputs with the same message. */
  lemma TriangleIsHalfParallelogram(base: real, height: real)
    ensures TriangleArea(base, height).Failure? <==> ParallelogramArea(base, height).Failure?
    ensures TriangleArea(base, height).Failure? ==> TriangleArea(base, height) == ParallelogramArea(base, height)
    ensures TriangleArea(base, height).Success? ==>
      2.0 * TriangleArea(base, height).value == ParallelogramArea(base, height).value
  {
  }

  /** A rhombus is half the rectangle spanned by its diagonals. */
  lemma RhombusIsHalfRectangleOfDiagonals(d1: real, d2: real)
    ensures RhombusArea(d1, d2).Success? <==> RectangleArea(d1, d2).Success?
    ensures RhombusArea(d1, d2).Success? ==> 2.0 * RhombusArea(d1, d2).value == RectangleArea(d1, d2).value
  {
  }

  /** A trapezoid with equal bases is a parallelogram. */
  lemma EqualBasesTrapezoidIsParallelogram(base: real, height: real)
    requires base > 0.0 && height > 0.0
    ensures TrapezoidArea(base, base, height) == ParallelogramArea(base, height)
  {
  }

  /** An ellipse with equal semi-axes is a circle. */
  lemma EqualAxesEllipseIsCircle(radius: real)
    requires radius > 0.0
    ensures EllipseArea(radius, radius) == CircleArea(radius)
  {
  }

  /** A sector of 360 degrees is the whole circle. */
  lemma FullSectorIsCircle(radius: real)
    requires radius > 0.0
    ensures SectorArea(radius, 360.0) == CircleArea(radius)
  {
  }

  /** The two sector formulas agree once degrees are converted to radians with
      `Math.PI`. */
  lemma SectorDegreesAgreeWithRadians(radius: real, angle: real)
    requires radius > 0.0 && angle > 0.0
    ensures SectorArea(radius, angle) == SectorAreaRadian(radius, angle * Pi / 180.0)
  {
    var r2 := radius * radius;
    calc {
      (Pi * radius * radius * angle) / 360.0;
      (r2 * (angle * Pi / 180.0)) / 2.0;
      (radius * radius * (angle * Pi / 180.0)) / 2.0;
    }
  }

  /** Heron's formula and base-times-height agree on a right triangle: with legs
      a, b and hypotenuse c, the radicand is the square of a * b / 2. */
  lemma {:induction false} HeronAgreesOnRightTriangle(a: real, b: real, c: real)
    requires a > 0.0 && b > 0.0 && c > 0.0 && a * a + b * b == c * c
    ensures TriangleAreaHeronSquared(a, b, c).Success?
    ensures TriangleAreaHeronSquared(a, b, c).value == TriangleArea(a, b).value * TriangleArea(a, b).value
  {
    LegsShorterThanHypotenuse(a, b, c);
    var s := (a + b + c) / 2.0;
    // (2s)(2s - 2a)(2s - 2b)(2s - 2c) = ((a+b)^2 - c^2)(c^2 - (a-b)^2) = (2ab)(2ab)
    assert (a + b + c) * (b + c - a) == (b + c) * (b + c) - a * a;
    assert (a + c - b) * (a + b - c) == a * a - (b - c) * (b - c);
    assert (b + c) * (b + c) - a * a == 2.0 * b * c + 2.0 * b * b;
    assert a * a - (b - c) * (b - c) == 2.0 * b * c - 2.0 * b * b;
    assert (2.0 * b * c + 2.0 * b * b) * (2.0 * b * c - 2.0 * b * b) == 4.0 * b * b * (c * c - b * b);
    assert 16.0 * HeronRadicand(a, b, c) == (a + b + c) * (b + c - a) * ((a + c - b) * (a + b - c));
    assert 16.0 * HeronRadicand(a, b, c) == 4.0 * b * b * (a * a);
  }

  lemma LegsShorterThanHypotenuse(a: real, b: real, c: real)
    requires a > 0.0 && b > 0.0 && c > 0.0 && a * a + b * b == c * c
    ensures IsTriangle(a, b, c)
  {
    assert (a + b) * (a + b) > c * c;
    assert c * c > a * a && c * c > b * b;
  }

  /** The general polygon formula on six sides, with tan(pi/6) = 1/sqrt(3), gives
      the hexagon formula. */
  lemma HexagonIsSixSidedPolygon(sideLength: real, tanPiOverSix: real)
    requires sideLength > 0.0 && tanPiOverSix > 0.0 && 3.0 * tanPiOverSix * tanPiOverSix == 1.0
    ensures RegularPolygonArea(6.0, sideLength, tanPiOverSix).Success?
    ensures HexagonAreaSquared(sideLength).Success?
    ensures RegularPolygonArea(6.0, sideLength, tanPiOverSix).value * RegularPolygonArea(6.0, sideLength, tanPiOverSix).value
            == HexagonAreaSquared(sideLength).value
  {
    var s2 := sideLength * sideLength;
    var t := tanPiOverSix;
    var area := (6.0 * sideLength * sideLength) / (4.0 * t);
    assert area * (4.0 * t) == 6.0 * s2;
    assert area * area * (16.0 * t * t) == 36.0 * s2 * s2;
    assert 16.0 * t * t == 16.0 / 3.0;
    assert area * area == 27.0 * s2 * s2 / 4.0;
  }
}
