/** What the motion tests measure on real boxes, and what therefore lies behind active and resting. */
module MotionLaws {
  import opened Common
  import opened Geometry
  import opened Contexts
  import opened Activity
  import opened ActivityTrace
  import opened ActivityLaws
  import S = ScoreLaws
  import T = Tracking

  // ----- the speed test -----

  /** From one sample to the next the centre has gone further than 0.03 of the frame per second. */
  predicate Travels(a: Sample, b: Sample) {
    S.Apart(a.box, b.box) > S.Square(0.03 * ((b.at - a.at) as real / 1000000000.0))
  }

  /** The logarithm of the area has changed by more than 0.12 per second. A box without area changes when
      the other one has some. */
  predicate Swells(log: real -> real, a: Sample, b: Sample) {
    var limit, ratio := 0.12 * ((b.at - a.at) as real / 1000000000.0), if Area(a.box) == 0.0 then 0.0 else Area(b.box) / Area(a.box);
    if Area(a.box) == 0.0 then Area(b.box) > 0.0
    else Area(b.box) == 0.0 || (ratio > 0.0 && (log(ratio) > limit || log(ratio) < -limit))
  }

  lemma {:induction false} PerSecond(x: real, dt: real, limit: real)
    requires dt > 0.0
    ensures x / dt > limit <==> x > limit * dt
  {
    S.Quotient(x, dt);
    if x / dt > limit { S.Monotone(limit, x / dt, dt); assert (x / dt - limit) * dt > 0.0; } else { S.Monotone(x / dt, limit, dt); }
  }

  lemma {:induction false} SwellsExact(libm: Libm, a: Sample, b: Sample, dt: real)
    requires b.at > a.at && dt == (b.at - a.at) as real / 1000000000.0
    ensures Resizes(libm, Area(a.box), Area(b.box), dt) <==> Swells(libm.log, a, b)
  {
    if Area(a.box) != 0.0 {
      var l := libm.log(Area(b.box) / Area(a.box));
      PerSecond(AbsReal(l), dt, 0.12);
    }
  }

  lemma {:induction false} TravelsExact(h: Hypot, a: Sample, b: Sample, d: real, dt: real)
    requires IsHypot(h) && b.at > a.at && dt == (b.at - a.at) as real / 1000000000.0
    requires d == h(CenterX(b.box) - CenterX(a.box), CenterY(b.box) - CenterY(a.box))
    ensures d / dt > 0.03 <==> Travels(a, b)
  {
    S.HypotApart(h, b.box, a.box, d);
    ApartSymmetric(a.box, b.box);
    PerSecond(d, dt, 0.03);
    S.SquareGate(d, 0.03 * dt);
  }

  lemma {:induction false} ApartSymmetric(a: Box, b: Box)
    ensures S.Apart(a, b) == S.Apart(b, a)
  {
    Opposite((a.x + a.width / 2.0) - (b.x + b.width / 2.0), (b.x + b.width / 2.0) - (a.x + a.width / 2.0));
    Opposite((a.y + a.height / 2.0) - (b.y + b.height / 2.0), (b.y + b.height / 2.0) - (a.y + a.height / 2.0));
  }

  lemma {:induction false} Opposite(x: real, y: real)
    requires x == -y
    ensures S.Square(x) == S.Square(y)
  {
  }

  /** A sighting moves exactly if it comes later than the one before it, and its centre has travelled more
      than 0.03 of the frame per second or its area has changed by more than 0.12 per second. */
  lemma {:induction false} MovesExact(libm: Libm, a: Sample, b: Sample)
    requires IsHypot(libm.hypot)
    ensures SensesOf(libm).moves(a, b) <==> a.at < b.at && (Travels(a, b) || Swells(libm.log, a, b))
  {
    if a.at < b.at {
      var dt := (b.at - a.at) as real / 1000000000.0;
      assert T.Seconds(b.at - a.at) == dt && dt > 0.0;
      SwellsExact(libm, a, b, dt);
      TravelsExact(libm.hypot, a, b, libm.hypot(CenterX(b.box) - CenterX(a.box), CenterY(b.box) - CenterY(a.box)), dt);
    }
  }

  /** A box of the same size moves exactly by travelling. */
  lemma {:induction false} SameSizeMoves(libm: Libm, a: Sample, b: Sample)
    requires IsHypot(libm.hypot) && libm.log(1.0) == 0.0 && Area(a.box) == Area(b.box)
    ensures SensesOf(libm).moves(a, b) <==> a.at < b.at && Travels(a, b)
  {
    MovesExact(libm, a, b);
    if Area(a.box) != 0.0 { assert Area(b.box) / Area(a.box) == 1.0; }
  }

  /** A box that does not change does not move. */
  lemma {:induction false} EqualBoxesRest(libm: Libm, a: Sample, b: Sample)
    requires IsHypot(libm.hypot) && libm.log(1.0) == 0.0 && a.box == b.box
    ensures !SensesOf(libm).moves(a, b)
  {
    SameSizeMoves(libm, a, b);
    if a.at < b.at { assert S.Apart(a.box, b.box) == 0.0; NoSquareBelow(0.03 * ((b.at - a.at) as real / 1000000000.0)); }
  }

  lemma {:induction false} NoSquareBelow(x: real)
    ensures S.Square(x) >= 0.0
  {
  }

  // ----- active -----

  /** From sighting j of the trail on, every sighting has really moved since the one before it. */
  ghost predicate ReallyMoving(libm: Libm, trail: seq<Seen>, j: nat) {
    && 1 <= j < |trail|
    && forall h, i | j - 1 <= h < i < |trail| && i == h + 1 ::
         && trail[h].trackId == trail[i].trackId && trail[h].sample.at < trail[i].sample.at
         && (Travels(trail[h].sample, trail[i].sample) || Swells(libm.log, trail[h].sample, trail[i].sample))
  }

  /** Sustained motion means that one track has really moved at every sighting for at least two seconds. */
  lemma {:induction false} SustainedIsReal(libm: Libm, log: seq<Glance>)
    requires IsHypot(libm.hypot)
    ensures SustainedMotion(SensesOf(libm), Trail(log)) <==>
            exists j: nat :: ReallyMoving(libm, Trail(log), j) &&
                             Last(Trail(log)).sample.at - Trail(log)[j].sample.at >= 2_000_000_000
  {
    TrailShape(log);
    forall j: nat ensures MovingOn(SensesOf(libm), Trail(log), j) <==> ReallyMoving(libm, Trail(log), j) {
      MovingIsReal(libm, Trail(log), j);
    }
  }

  lemma {:induction false} MovingIsReal(libm: Libm, trail: seq<Seen>, j: nat)
    requires IsHypot(libm.hypot)
    requires forall h, i | 0 <= h < i < |trail| && i == h + 1 :: trail[h].trackId == trail[i].trackId
    ensures MovingOn(SensesOf(libm), trail, j) <==> ReallyMoving(libm, trail, j)
  {
    forall h, i | 0 <= h < i < |trail| && i == h + 1
      ensures SensesOf(libm).moves(trail[h].sample, trail[i].sample) <==>
              && trail[h].sample.at < trail[i].sample.at
              && (Travels(trail[h].sample, trail[i].sample) || Swells(libm.log, trail[h].sample, trail[i].sample))
    {
      MovesExact(libm, trail[h].sample, trail[i].sample);
    }
  }

  /** The sightings of a trail are those of the glances. */
  lemma {:induction false} TrailFromGlances(log: seq<Glance>, b: Box)
    requires forall g | g in log && g.reading.One? :: g.reading.cat.box == b
    ensures forall s | s in Trail(log) :: s.sample.box == b
    decreases |log|
  {
    if |log| > 0 {
      assert Last(log) in log;
      assert forall g | g in Front(log) :: g in log;
      TrailFromGlances(Front(log), b);
    }
  }

  /** A cat whose box never changes is never shown as active. */
  lemma {:induction false} StillCatNeverActive(libm: Libm, log: seq<Glance>, b: Box)
    requires IsHypot(libm.hypot) && libm.log(1.0) == 0.0 && InOrder(log)
    requires forall g | g in log && g.reading.One? :: g.reading.cat.box == b
    ensures After(SensesOf(libm), log).state != Active
  {
    if After(SensesOf(libm), log).state == Active {
      var w := ActiveHasWitness(SensesOf(libm), log);
      var seen := log[..w + 1];
      assert forall g | g in seen :: g in log;
      TrailFromGlances(seen, b);
      var trail := Trail(seen);
      var j: nat :| MovingOn(SensesOf(libm), trail, j) && Last(trail).sample.at - trail[j].sample.at >= 2_000_000_000;
      assert trail[j - 1] in trail && trail[j] in trail;
      EqualBoxesRest(libm, trail[j - 1].sample, trail[j].sample);
      assert false;
    }
  }

  // ----- still -----

  /** Centre and area of a box in the unit frame. */
  predicate InFrame(b: Box) { 0.0 <= CenterX(b) <= 1.0 && 0.0 <= CenterY(b) <= 1.0 && 0.0 < Area(b) <= 1.0 }

  /** Places of the samples that attain the extremes. */
  datatype Places = Places(minX: nat, maxX: nat, minY: nat, maxY: nat, minArea: nat, maxArea: nat)

  ghost predicate Attains(samples: seq<Sample>, e: Extent, p: Places) {
    && p.minX < |samples| && p.maxX < |samples| && p.minY < |samples| && p.maxY < |samples|
    && p.minArea < |samples| && p.maxArea < |samples|
    && e.minX == CenterX(samples[p.minX].box) && e.maxX == CenterX(samples[p.maxX].box)
    && e.minY == CenterY(samples[p.minY].box) && e.maxY == CenterY(samples[p.maxY].box)
    && e.minArea == Area(samples[p.minArea].box) && e.maxArea == Area(samples[p.maxArea].box)
  }

  lemma {:induction false} ExtentAttained(samples: seq<Sample>) returns (p: Places)
    requires |samples| > 0 && forall s | s in samples :: InFrame(s.box)
    ensures Attains(samples, ExtentOf(samples), p)
    decreases |samples|
  {
    var n, b := |samples| - 1, Last(samples).box;
    assert Last(samples) in samples;
    if n == 0 {
      assert ExtentOf(Front(samples)) == NO_EXTENT;
      p := Places(0, 0, 0, 0, 0, 0);
    } else {
      assert forall s | s in Front(samples) :: s in samples;
      var e := ExtentOf(Front(samples));
      var q := ExtentAttained(Front(samples));
      p := Pick(e, b, q, n);
      PickAttains(samples, e, q);
    }
  }

  /** Where the extremes are once box number n joins. */
  function Pick(e: Extent, b: Box, q: Places, n: nat): Places {
    Places(if e.minX <= CenterX(b) then q.minX else n, if e.maxX >= CenterX(b) then q.maxX else n,
           if e.minY <= CenterY(b) then q.minY else n, if e.maxY >= CenterY(b) then q.maxY else n,
           if e.minArea <= Area(b) then q.minArea else n, if e.maxArea >= Area(b) then q.maxArea else n)
  }

  lemma {:induction false} PickAttains(samples: seq<Sample>, e: Extent, q: Places)
    requires |samples| > 0 && Attains(Front(samples), e, q)
    ensures Attains(samples, Widen(e, Last(samples).box), Pick(e, Last(samples).box, q, |samples| - 1))
  {
  }

  /** The centres of every two samples across and every two samples along lie in a box with a diagonal of
      at most 3 percent of the frame, and no area is more than a quarter above another. */
  ghost predicate Gathered(samples: seq<Sample>) {
    && (forall i, j, k, l | 0 <= i < |samples| && 0 <= j < |samples| && 0 <= k < |samples| && 0 <= l < |samples| ::
          Near(samples[i].box, samples[j].box, samples[k].box, samples[l].box))
    && (forall i, j | 0 <= i < |samples| && 0 <= j < |samples| :: Alike(samples[i].box, samples[j].box))
  }

  predicate Near(a: Box, b: Box, c: Box, d: Box) {
    SquareGap(CenterX(a), CenterX(b)) + SquareGap(CenterY(c), CenterY(d)) <= 0.0009
  }

  function SquareGap(x: real, y: real): real { S.Square(x - y) }

  predicate Alike(a: Box, b: Box) { Area(a) <= 1.25 * Area(b) }

  lemma {:induction false} Diagonal(h: Hypot, x: real, y: real)
    requires IsHypot(h)
    ensures h(x, y) <= 0.03 <==> S.Square(x) + S.Square(y) <= 0.0009
  {
    S.SquareGate(h(x, y), 0.03);
    assert S.Square(0.03) == 0.0009;
    assert S.Square(h(x, y)) == h(x, y) * h(x, y) == x * x + y * y;
  }

  lemma {:induction false} WithinSpan(a: real, b: real, low: real, high: real)
    requires low <= a <= high && low <= b <= high
    ensures SquareGap(a, b) <= SquareGap(high, low)
  {
    SquareOfDifference(a, b, low, high);
  }

  /** The extremes lie within the thresholds. */
  predicate Narrow(e: Extent) {
    SquareGap(e.maxX, e.minX) + SquareGap(e.maxY, e.minY) <= 0.0009 && e.maxArea <= 1.25 * e.minArea
  }

  lemma {:induction false} StillIsNarrow(libm: Libm, samples: seq<Sample>)
    requires IsHypot(libm.hypot) && ExtentOf(samples).minArea > 0.0
    ensures SensesOf(libm).still(samples) <==> Narrow(ExtentOf(samples))
  {
    var e := ExtentOf(samples);
    Diagonal(libm.hypot, e.maxX - e.minX, e.maxY - e.minY);
    AreaSpan(e.minArea, e.maxArea);
  }

  lemma {:induction false} NarrowGathers(samples: seq<Sample>, e: Extent)
    requires Narrow(e) && forall i | 0 <= i < |samples| :: Covers(e, samples[i].box)
    ensures Gathered(samples)
  {
    forall i, j, k, l | 0 <= i < |samples| && 0 <= j < |samples| && 0 <= k < |samples| && 0 <= l < |samples|
      ensures Near(samples[i].box, samples[j].box, samples[k].box, samples[l].box)
    {
      CoveredNear(e, samples[i].box, samples[j].box, samples[k].box, samples[l].box);
    }
    forall i, j | 0 <= i < |samples| && 0 <= j < |samples| ensures Alike(samples[i].box, samples[j].box) {
      CoveredAlike(e, samples[i].box, samples[j].box);
    }
  }

  lemma {:induction false} CoveredNear(e: Extent, a: Box, b: Box, c: Box, d: Box)
    requires Narrow(e) && Covers(e, a) && Covers(e, b) && Covers(e, c) && Covers(e, d)
    ensures Near(a, b, c, d)
  {
    WithinSpan(CenterX(a), CenterX(b), e.minX, e.maxX);
    WithinSpan(CenterY(c), CenterY(d), e.minY, e.maxY);
  }

  lemma {:induction false} CoveredAlike(e: Extent, a: Box, b: Box)
    requires Narrow(e) && Covers(e, a) && Covers(e, b)
    ensures Alike(a, b)
  {
  }

  lemma {:induction false} GatheredIsNarrow(samples: seq<Sample>, e: Extent, p: Places)
    requires Gathered(samples) && Attains(samples, e, p)
    ensures Narrow(e)
  {
    ExtremesNarrow(e, samples[p.maxX].box, samples[p.minX].box, samples[p.maxY].box, samples[p.minY].box,
                   samples[p.maxArea].box, samples[p.minArea].box);
  }

  lemma {:induction false} ExtremesNarrow(e: Extent, a: Box, b: Box, c: Box, d: Box, large: Box, small: Box)
    requires Near(a, b, c, d) && Alike(large, small)
    requires e.maxX == CenterX(a) && e.minX == CenterX(b) && e.maxY == CenterY(c) && e.minY == CenterY(d)
    requires e.maxArea == Area(large) && e.minArea == Area(small)
    ensures Narrow(e)
  {
  }

  /** Boxes of the frame are still exactly if they are gathered. */
  lemma {:induction false} StillExact(libm: Libm, samples: seq<Sample>)
    requires IsHypot(libm.hypot) && |samples| > 0 && forall s | s in samples :: InFrame(s.box)
    ensures SensesOf(libm).still(samples) <==> Gathered(samples)
  {
    var p := ExtentAttained(samples);
    assert samples[p.minArea] in samples;
    StillIsNarrow(libm, samples);
    forall i | 0 <= i < |samples| ensures Covers(ExtentOf(samples), samples[i].box) { ExtentCovers(samples, i); }
    if Narrow(ExtentOf(samples)) { NarrowGathers(samples, ExtentOf(samples)); }
    if Gathered(samples) { GatheredIsNarrow(samples, ExtentOf(samples), p); }
  }

  lemma {:induction false} AreaSpan(low: real, high: real)
    requires low > 0.0
    ensures high / low <= 1.25 <==> high <= 1.25 * low
  {
    PerSecond(high, low, 1.25);
  }
}
