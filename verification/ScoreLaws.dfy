/** What the numbers of the association measure: common segments, overlap ratios, speeds, predictions and scores. */
module ScoreLaws {
  import opened Common
  import opened Geometry
  import opened Tracking

  /** A point lies on both segments exactly if it lies between the later start and that start plus the span. */
  lemma {:induction false} SpanExact(a: real, lengthA: real, b: real, lengthB: real, p: real)
    requires lengthA > 0.0 && lengthB > 0.0
    ensures var span, start := Span(a, lengthA, b, lengthB), if a <= b then b else a;
            && (span > 0.0 ==> (a <= p <= a + lengthA && b <= p <= b + lengthB <==> start <= p <= start + span))
            && (span == 0.0 ==> !(a < p < a + lengthA && b < p < b + lengthB))
  {
  }

  lemma {:induction false} Quotient(n: real, d: real)
    requires d > 0.0
    ensures n / d * d == n
  {
  }

  /** The overlap ratio is the common area over the joint one, the common area being the product of the
      common segments. */
  lemma {:induction false} IouExact(a: Box, b: Box, common: real, joint: real)
    requires Solid(a) && Solid(b) && joint == Area(a) + Area(b) - common
    requires common == Span(a.x, a.width, b.x, b.width) * Span(a.y, a.height, b.y, b.height)
    ensures joint > 0.0 && Iou(a, b) * joint == common
  {
    assert common == Overlap(a, b);
    RatioOf(a, b, common, joint);
  }

  lemma {:induction false} RatioOf(a: Box, b: Box, common: real, joint: real)
    requires Solid(a) && Solid(b) && common == Overlap(a, b) && joint == Area(a) + Area(b) - common
    ensures joint > 0.0 && Iou(a, b) * joint == common
  {
    OverlapBounds(a, b);
    Quotient(common, joint);
    assert Iou(a, b) == common / joint;
  }

  /** The centre of a box is as far from one edge as from the other, and its area is width times height. */
  lemma {:induction false} BoxMeans(b: Box)
    ensures CenterX(b) - b.x == b.x + b.width - CenterX(b) && CenterY(b) - b.y == b.y + b.height - CenterY(b)
    ensures Area(b) == b.width * b.height
  {
  }

  /** No place within the limits is nearer. */
  lemma {:induction false} ClampNearest(v: real, low: real, high: real, other: real)
    requires low <= other <= high
    ensures low <= Clamp(v, low, high) <= high
    ensures Distance(Clamp(v, low, high), v) <= Distance(other, v)
  {
  }

  function Distance(a: real, b: real): real { if a < b then b - a else a - b }

  lemma {:induction false} DistanceScales(u: real, v: real, s: real, us: real, vs: real)
    requires s > 0.0 && us == u * s && vs == v * s
    ensures Distance(us, vs) == Distance(u, v) * s
  {
    if u < v {
      Monotone(u, v, s);
      assert (v - u) * s == vs - us;
    } else {
      Monotone(v, u, s);
      assert (u - v) * s == us - vs;
    }
  }

  lemma {:induction false} Monotone(a: real, b: real, s: real)
    requires a <= b && s > 0.0
    ensures a * s <= b * s
  {
  }

  /** The speed kept is the one of at most half a frame per second that comes nearest to the movement made. */
  lemma {:induction false} VelocityNearest(from: real, to: real, dt: Time, other: real)
    requires dt > 0 && -0.5 <= other <= 0.5
    ensures var s, v := dt as real / 1000000000.0, Velocity(from, to, dt);
            -0.5 <= v <= 0.5 && Distance(v * s, to - from) <= Distance(other * s, to - from)
  {
    var s := dt as real / 1000000000.0;
    assert s == Seconds(dt) && s > 0.0;
    var v, q := Velocity(from, to, dt), (to - from) / s;
    Quotient(to - from, s);
    ClampNearest(q, -0.5, 0.5, other);
    NearestScaled(v, q, other, s, v * s, to - from, other * s);
  }

  lemma {:induction false} NearestScaled(v: real, q: real, other: real, s: real, vs: real, d: real, os: real)
    requires s > 0.0 && d == q * s && vs == v * s && os == other * s && Distance(v, q) <= Distance(other, q)
    ensures Distance(vs, d) <= Distance(os, d)
  {
    DistanceScales(v, q, s, vs, d);
    DistanceScales(other, q, s, os, d);
    Nearer(Distance(vs, d), Distance(os, d), Distance(v, q), Distance(other, q), s);
  }

  lemma {:induction false} Nearer(x: real, y: real, a: real, b: real, s: real)
    requires x == a * s && y == b * s && a <= b && s > 0.0
    ensures x <= y
  {
    Monotone(a, b, s);
  }

  /** Where a coordinate gets to at a constant speed per second. */
  function Led(start: real, speed: real, elapsed: Time): real { start + speed * (elapsed as real / 1000000000.0) }

  /** The predicted corner is the place inside the frame that is nearest to where the last known speed
      leads; the size stays. */
  lemma {:induction false} PredictedNearest(config: Config, track: Track, received: Time, x: real, y: real)
    requires 0.0 <= x <= 1.0 - track.snapshot.box.width && 0.0 <= y <= 1.0 - track.snapshot.box.height
    ensures var b, p := track.snapshot.box, config.Predicted(track, received);
            var elapsed := received - track.snapshot.lastSeen;
            && p.width == b.width && p.height == b.height
            && 0.0 <= p.x <= 1.0 - b.width && 0.0 <= p.y <= 1.0 - b.height
            && Distance(p.x, Led(b.x, track.velocityX, elapsed)) <= Distance(x, Led(b.x, track.velocityX, elapsed))
            && Distance(p.y, Led(b.y, track.velocityY, elapsed)) <= Distance(y, Led(b.y, track.velocityY, elapsed))
  {
    var b, elapsed := track.snapshot.box, received - track.snapshot.lastSeen;
    PredictedLed(config, track, received);
    CornerNearest(Led(b.x, track.velocityX, elapsed), b.width, x);
    CornerNearest(Led(b.y, track.velocityY, elapsed), b.height, y);
  }

  lemma {:induction false} PredictedLed(config: Config, track: Track, received: Time)
    ensures var b, p := track.snapshot.box, config.Predicted(track, received);
            var elapsed := received - track.snapshot.lastSeen;
            && p.width == b.width && p.height == b.height
            && p.x == Clamp(Led(b.x, track.velocityX, elapsed), 0.0, MaxReal(0.0, 1.0 - b.width))
            && p.y == Clamp(Led(b.y, track.velocityY, elapsed), 0.0, MaxReal(0.0, 1.0 - b.height))
  {
    var elapsed := received - track.snapshot.lastSeen;
    assert Seconds(elapsed) == elapsed as real / 1000000000.0;
  }

  lemma {:induction false} CornerNearest(target: real, size: real, other: real)
    requires 0.0 <= other <= 1.0 - size
    ensures var place := Clamp(target, 0.0, MaxReal(0.0, 1.0 - size));
            0.0 <= place <= 1.0 - size && Distance(place, target) <= Distance(other, target)
  {
    ClampNearest(target, 0.0, 1.0 - size, other);
  }

  // ----- the score -----

  function Square(x: real): real { x * x }

  /** The square of the distance between two centres. */
  function Apart(a: Box, b: Box): real {
    Square((a.x + a.width / 2.0) - (b.x + b.width / 2.0)) + Square((a.y + a.height / 2.0) - (b.y + b.height / 2.0))
  }

  lemma {:induction false} RatioGate(area: real, before: real)
    requires before > 0.0
    ensures area / before < 0.4 <==> 5.0 * area < 2.0 * before
    ensures area / before > 2.5 <==> 2.0 * area > 5.0 * before
  {
    Quotient(area, before);
    var q := area / before;
    assert q < 0.4 ==> q * before < 0.4 * before;
    assert q >= 0.4 ==> q * before >= 0.4 * before;
    assert q > 2.5 ==> q * before > 2.5 * before;
    assert q <= 2.5 ==> q * before <= 2.5 * before;
  }

  lemma {:induction false} SquareGate(d: real, limit: real)
    requires d >= 0.0 && limit > 0.0
    ensures d <= limit <==> Square(d) <= Square(limit)
  {
    if d <= limit { assert d * d <= d * limit <= limit * limit; } else { assert d * d > d * limit >= limit * limit; }
  }

  /** Exactly which pairs are candidates, and with what score: the classes agree, the measured area is
      between two fifths and five halves of the predicted one, and the boxes overlap enough or their
      centres are near enough. A tenth of the distance is taken off the overlap ratio. */
  lemma {:induction false} ScoreExact(config: Config, track: Track, detection: Detection, received: Time)
    requires config.Valid() && IsHypot(config.hypot) && Solid(track.snapshot.box) && Solid(detection.box)
    ensures var p, score := config.Predicted(track, received), config.Score(track, detection, received);
            && Solid(p)
            && (score.Some? <==>
                  && detection.classId == track.snapshot.classId
                  && 5.0 * Area(detection.box) >= 2.0 * Area(p) && 2.0 * Area(detection.box) <= 5.0 * Area(p)
                  && (Iou(p, detection.box) >= config.minimumIou ||
                      Apart(p, detection.box) <= Square(config.maximumCenterDistance)))
            && (score.Some? ==>
                  var distance := 10.0 * (Iou(p, detection.box) - score.value);
                  distance >= 0.0 && Square(distance) == Apart(p, detection.box))
  {
    var p := config.Predicted(track, received);
    var d := config.hypot(CenterX(p) - CenterX(detection.box), CenterY(p) - CenterY(detection.box));
    HypotApart(config.hypot, p, detection.box, d);
    GateExact(config, track, detection, received, d);
    SquareGate(d, config.maximumCenterDistance);
  }

  lemma {:induction false} GateExact(config: Config, track: Track, detection: Detection, received: Time, d: real)
    requires Solid(track.snapshot.box) && Solid(detection.box)
    requires var p := config.Predicted(track, received);
             d == config.hypot(CenterX(p) - CenterX(detection.box), CenterY(p) - CenterY(detection.box))
    ensures var p, score := config.Predicted(track, received), config.Score(track, detection, received);
            && Solid(p)
            && (score.Some? <==>
                  && detection.classId == track.snapshot.classId
                  && 5.0 * Area(detection.box) >= 2.0 * Area(p) && 2.0 * Area(detection.box) <= 5.0 * Area(p)
                  && (Iou(p, detection.box) >= config.minimumIou || d <= config.maximumCenterDistance))
            && (score.Some? ==> 10.0 * (Iou(p, detection.box) - score.value) == d)
  {
    RatioGate(Area(detection.box), Area(config.Predicted(track, received)));
  }

  lemma {:induction false} HypotApart(h: Hypot, a: Box, b: Box, d: real)
    requires IsHypot(h) && d == h(CenterX(a) - CenterX(b), CenterY(a) - CenterY(b))
    ensures d >= 0.0 && Square(d) == Apart(a, b)
  {
  }
}
