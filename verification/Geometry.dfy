/** Normalized boxes, detections and the geometry that decides which pairs may be associated. */
module Geometry {
  datatype Box = Box(x: real, y: real, width: real, height: real)

  datatype Detection = Detection(classId: int, confidence: real, box: Box)

  /** The library function hypot, as a parameter of everything that measures a distance. */
  type Hypot = (real, real) -> real

  /** The length of the vector (a, b). */
  ghost predicate IsHypot(h: Hypot) { forall a, b :: h(a, b) >= 0.0 && h(a, b) * h(a, b) == a * a + b * b }

  const PERSON := 0
  const CAT := 15

  function Area(b: Box): real { b.width * b.height }
  function CenterX(b: Box): real { b.x + b.width / 2.0 }
  function CenterY(b: Box): real { b.y + b.height / 2.0 }

  function MinReal(a: real, b: real): real { if a <= b then a else b }
  function MaxReal(a: real, b: real): real { if a >= b then a else b }
  function Clamp(v: real, low: real, high: real): real { if v < low then low else if high < v then high else v }

  /** How far two segments of one axis overlap. */
  function Span(a: real, lengthA: real, b: real, lengthB: real): (span: real)
    requires lengthA > 0.0 && lengthB > 0.0
    ensures 0.0 <= span <= lengthA && span <= lengthB
  {
    MaxReal(0.0, MinReal(a + lengthA, b + lengthB) - MaxReal(a, b))
  }

  predicate Solid(b: Box) { b.width > 0.0 && b.height > 0.0 && Area(b) > 0.0 }

  function Overlap(a: Box, b: Box): real
    requires Solid(a) && Solid(b)
  {
    Span(a.x, a.width, b.x, b.width) * Span(a.y, a.height, b.y, b.height)
  }

  lemma {:induction false} ProductMonotone(w: real, h: real, w': real, h': real)
    requires 0.0 <= w <= w' && 0.0 <= h <= h'
    ensures 0.0 <= w * h <= w' * h'
  {
    assert w * h <= w * h' <= w' * h';
  }

  lemma {:induction false} Fraction(n: real, d: real)
    requires 0.0 <= n <= d && d > 0.0
    ensures 0.0 <= n / d <= 1.0
  {
  }

  /** The intersection fits into both boxes. */
  lemma {:induction false} OverlapBounds(a: Box, b: Box)
    requires Solid(a) && Solid(b)
    ensures 0.0 <= Overlap(a, b) <= Area(a) && Overlap(a, b) <= Area(b)
  {
    var width, height := Span(a.x, a.width, b.x, b.width), Span(a.y, a.height, b.y, b.height);
    ProductMonotone(width, height, a.width, a.height);
    ProductMonotone(width, height, b.width, b.height);
  }

  function Iou(a: Box, b: Box): (iou: real)
    requires Solid(a) && Solid(b)
    ensures 0.0 <= iou <= 1.0
  {
    OverlapBounds(a, b);
    var intersection := Overlap(a, b);
    Fraction(intersection, Area(a) + Area(b) - intersection);
    intersection / (Area(a) + Area(b) - intersection)
  }

  /** The overlap ratio does not depend on the order of the boxes, and is 1 for a box and itself. */
  lemma {:induction false} IouLaws(a: Box, b: Box)
    requires Solid(a) && Solid(b)
    ensures Iou(a, b) == Iou(b, a) && Iou(a, a) == 1.0
  {
    assert Span(a.x, a.width, b.x, b.width) == Span(b.x, b.width, a.x, a.width);
    assert Span(a.y, a.height, b.y, b.height) == Span(b.y, b.height, a.y, a.height);
    assert Overlap(a, a) == Area(a);
  }

  predicate ValidDetection(d: Detection) {
    var b := d.box;
    && (d.classId == PERSON || d.classId == CAT)
    && 0.0 < d.confidence <= 1.0
    && b.x >= 0.0 && b.y >= 0.0 && b.width > 0.0 && b.height > 0.0
    && Area(b) >= 0.000000000001
    && b.x + b.width <= 1.00001 && b.y + b.height <= 1.00001
  }

  lemma {:induction false} ValidIsSolid(d: Detection)
    requires ValidDetection(d)
    ensures Solid(d.box)
  {
  }

  /** A detection that no tracker takes: of another class, of no confidence between 0 and 1, or with a box
      that has no size or leaves the frame. */
  predicate Unusable(d: Detection) {
    || (d.classId != 0 && d.classId != 15) || d.confidence <= 0.0 || d.confidence > 1.0
    || d.box.width <= 0.0 || d.box.height <= 0.0 || Area(d.box) < 0.000000000001
    || d.box.x < 0.0 || d.box.y < 0.0 || d.box.x + d.box.width > 1.00001 || d.box.y + d.box.height > 1.00001
  }

  lemma {:induction false} ValidOrUnusable(d: Detection)
    ensures ValidDetection(d) <==> !Unusable(d)
  {
  }
}
