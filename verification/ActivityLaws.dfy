/** The trace properties of the movement heuristic. */
module ActivityLaws {
  import opened Common
  import opened Geometry
  import opened Contexts
  import opened Activity
  import opened ActivityTrace

  // ----- what is read -----

  /** Exactly how a context is read: nothing while the camera is offline; a crowd when more than one cat is
      detected or tracked; the one tracked cat when it is the only one detected and is confirmed; and a
      miss in every other case. */
  lemma {:induction false} ReadExact(context: Context)
    ensures var cats, r := CatPlaces(context.tracks), Read(context);
            && (r.Gone? <==> context.health == HealthOffline)
            && (r.Crowd? <==> context.health != HealthOffline && (context.catCount >= 2 || |cats| >= 2))
            && (r.One? <==>
                  && context.health != HealthOffline && context.catCount == 1 && |cats| == 1
                  && forall k | k in cats :: context.tracks[k].confirmed)
            && (r.One? ==> forall k | k in cats :: r.cat == context.tracks[k])
            && (r.Miss? ==> r.catCount == context.catCount && r.presence == context.cat)
  {
    var cats := CatPlaces(context.tracks);
    CountCatsExact(context.tracks);
    if |cats| == 1 {
      var k := LastCatExact(context.tracks);
      OnlyPlace(cats, k);
    }
  }

  // ----- times along a trail -----

  lemma {:induction false} TrailInOrder(log: seq<Glance>)
    requires InOrder(log)
    ensures var trail := Trail(log);
            && InTime(trail)
            && (|trail| > 0 ==> !Last(log).reading.Gone? && Last(trail).sample.at <= Last(log).now)
  {
    if |log| > 0 {
      TrailInOrder(Front(log));
      var before := Trail(Front(log));
      assert |before| > 0 && !Last(log).reading.Gone? ==> Last(Front(log)).now <= Last(log).now;
    }
  }

  /** The samples are those of the trail from sighting k on. */
  ghost predicate SuffixFrom(samples: seq<Sample>, trail: seq<Seen>, k: nat) {
    |samples| + k == |trail| && forall x | 0 <= x < |samples| :: samples[x] == trail[k + x].sample
  }

  lemma {:induction false} SuffixCut(samples: seq<Sample>, trail: seq<Seen>, k: nat, f: nat)
    requires SuffixFrom(samples, trail, k) && f <= |samples|
    ensures SuffixFrom(samples[f..], trail, k + f)
  {
  }

  lemma {:induction false} SuffixPush(samples: seq<Sample>, front: seq<Seen>, k: nat, next: Seen)
    requires SuffixFrom(samples, front, k)
    ensures SuffixFrom(samples + [next.sample], front + [next], k)
  {
  }

  ghost predicate InTime(trail: seq<Seen>) {
    forall i, j | 0 <= i < j < |trail| :: trail[i].sample.at <= trail[j].sample.at
  }

  /** The deque is exactly the suffix of the trail that the twenty-second rule selects: it starts at
      the last sighting at least twenty seconds old, or at the first one if there is none. */
  lemma {:induction false} WindowExact(trail: seq<Seen>) returns (k: nat)
    requires |trail| > 0 && InTime(trail)
    ensures k < |trail| && SuffixFrom(Window(trail), trail, k)
    ensures k > 0 ==> Last(trail).sample.at - trail[k].sample.at >= 20_000_000_000
    ensures k + 1 < |trail| ==> Last(trail).sample.at - trail[k + 1].sample.at < 20_000_000_000
  {
    var front, last := Front(trail), Last(trail);
    assert trail == front + [last];
    var m := 0;
    if |front| == 0 { assert Window(front) == []; } else { m := WindowExact(front); }
    SuffixPush(Window(front), front, m, last);
    k := TrimExact(Window(front) + [last.sample], trail, m);
  }

  lemma {:induction false} TrimExact(pushed: seq<Sample>, trail: seq<Seen>, m: nat) returns (k: nat)
    requires |pushed| > 0 && SuffixFrom(pushed, trail, m)
    requires m > 0 ==> Last(trail).sample.at - trail[m].sample.at >= 20_000_000_000
    ensures k < |trail| && SuffixFrom(DropOld(pushed, Last(trail).sample.at), trail, k)
    ensures k > 0 ==> Last(trail).sample.at - trail[k].sample.at >= 20_000_000_000
    ensures k + 1 < |trail| ==> Last(trail).sample.at - trail[k + 1].sample.at < 20_000_000_000
  {
    var now := Last(trail).sample.at;
    FirstKeptExact(pushed, now, 0);
    var f := FirstKept(pushed, now, 0);
    SuffixCut(pushed, trail, m, f);
    k := m + f;
    assert pushed[f] == trail[k].sample;
    assert f + 1 < |pushed| ==> pushed[f + 1] == trail[k + 1].sample;
  }

  lemma {:induction false} FirstKeptExact(samples: seq<Sample>, now: Time, k: nat)
    requires k < |samples|
    ensures var first := FirstKept(samples, now, k);
            && (first > k ==> now - samples[first].at >= 20_000_000_000)
            && (first + 1 < |samples| ==> now - samples[first + 1].at < 20_000_000_000)
    decreases |samples| - k
  {
    if k + 1 < |samples| && now - samples[k + 1].at >= 20_000_000_000 { FirstKeptExact(samples, now, k + 1); }
  }

  // ----- motion -----

  /** From sighting j of the trail on, every sighting moved since the one before it. */
  ghost predicate MovingOn(senses: Senses, trail: seq<Seen>, j: nat) {
    1 <= j < |trail| && forall h, i | j - 1 <= h < i < |trail| && i == h + 1 :: senses.moves(trail[h].sample, trail[i].sample)
  }

  /** One track that has moved at every sighting for at least two seconds. */
  ghost predicate SustainedMotion(senses: Senses, trail: seq<Seen>) {
    exists j: nat :: MovingOn(senses, trail, j) && Last(trail).sample.at - trail[j].sample.at >= 2_000_000_000
  }

  lemma {:induction false} MovingStartExact(senses: Senses, trail: seq<Seen>) returns (j: nat)
    requires MovingStart(senses, trail).Some?
    ensures MovingOn(senses, trail, j) && MovingStart(senses, trail) == Some(trail[j].sample.at)
    ensures forall i: nat | MovingOn(senses, trail, i) :: j <= i
  {
    var front := Front(trail);
    if MovingStart(senses, front).Some? {
      j := MovingStartExact(senses, front);
      forall i: nat | MovingOn(senses, trail, i) ensures j <= i {
        if i < |front| { assert MovingOn(senses, front, i); }
      }
    } else {
      j := |trail| - 1;
      forall i: nat | MovingOn(senses, trail, i) ensures j <= i {
        if i < |front| { MovingHadStart(senses, trail, i); }
      }
    }
  }

  lemma {:induction false} MovingHasStart(senses: Senses, trail: seq<Seen>, j: nat)
    requires MovingOn(senses, trail, j)
    ensures MovingStart(senses, trail).Some?
  {
    assert senses.moves(trail[|trail| - 2].sample, Last(trail).sample);
  }

  lemma {:induction false} MovingHadStart(senses: Senses, trail: seq<Seen>, j: nat)
    requires MovingOn(senses, trail, j) && j < |trail| - 1
    ensures MovingStart(senses, Front(trail)).Some?
  {
    assert MovingOn(senses, Front(trail), j);
    MovingHasStart(senses, Front(trail), j);
  }

  /** The motion timer fires exactly on sustained motion. */
  lemma {:induction false} TimerExact(senses: Senses, trail: seq<Seen>)
    requires |trail| > 0 && InTime(trail)
    ensures SustainedMotion(senses, trail) <==>
            MovingStart(senses, trail).Some? &&
            Last(trail).sample.at - MovingStart(senses, trail).value >= 2_000_000_000
  {
    if MovingStart(senses, trail).Some? {
      var j := MovingStartExact(senses, trail);
    }
    if SustainedMotion(senses, trail) {
      var i: nat :| MovingOn(senses, trail, i) && Last(trail).sample.at - trail[i].sample.at >= 2_000_000_000;
      MovingHasStart(senses, trail, i);
    }
  }

  /** What a confirmed sighting decides, in terms of the past only. */
  lemma {:induction false} SightingVerdict(senses: Senses, log: seq<Glance>)
    requires InOrder(log) && |log| > 0 && Last(log).reading.One?
    ensures var s, now := After(senses, Front(log)), Last(log).now;
            After(senses, log).state ==
            if SustainedMotion(senses, Trail(log)) then Active
            else if |Window(Trail(log))| >= 10 && now - Window(Trail(log))[0].at >= 20_000_000_000 &&
                    senses.still(Window(Trail(log))) then Resting
            else if s.state == Active && now - s.changed < 5_000_000_000 then Active
            else Unknown
    ensures After(senses, log).confidence ==
            if After(senses, log).state == Active || After(senses, log).state == Resting then Last(log).reading.cat.confidence
            else 0.0
  {
    var s := After(senses, Front(log));
    BeliefsExplained(senses, Front(log));
    BeliefsExplained(senses, log);
    TrailInOrder(log);
    TrailShape(log);
    TimerExact(senses, Trail(log));
    JoinedWindow(s, Trail(Front(log)), Last(log).reading.cat, Last(log).now);
    JoinedMoving(senses, s, Trail(Front(log)), Last(log).reading.cat, Last(log).now);
  }

  /** The evidence that goes with a reading and the time of the last confirmed sighting. */
  function EvidenceOf(reading: Reading, confirmed: Option<Time>, now: Time): Evidence {
    match reading
    case Gone => CameraOffline
    case Crowd => Ambiguous
    case One(_) => Observed
    case Miss(catCount, presence) =>
      if Fresh(confirmed, now) then Held
      else if confirmed.Some? && now - confirmed.value <= 8_000_000_000 then Searching
      else if catCount == 0 && presence == OutOfView then Absent
      else if catCount > 0 then Confirming
      else NoEvidence
  }

  /** The evidence shown says what was seen last and how long ago the cat was confirmed; the age shown
      is that time. Only held evidence keeps what was shown; anything else but a sighting shows the
      camera offline, the cat out of view or nothing known, without confidence. */
  lemma {:induction false} EvidenceExact(senses: Senses, log: seq<Glance>)
    requires InOrder(log) && |log| > 0
    ensures var now, confirmed := Last(log).now, Confirmed(log);
            && After(senses, log).evidence == EvidenceOf(Last(log).reading, confirmed, now)
            && After(senses, log).age == (if confirmed.Some? then Some(now - confirmed.value) else None)
    ensures !Last(log).reading.One? && After(senses, log).evidence != Held ==>
              && After(senses, log).confidence == 0.0
              && After(senses, log).state == (if Last(log).reading.Gone? then Offline
                                              else if After(senses, log).evidence == Absent then OutOfView else Unknown)
    ensures After(senses, log).evidence == Held ==>
              && After(senses, log).confidence == After(senses, Front(log)).confidence
              && After(senses, log).state == After(senses, Front(log)).state
  {
    var s, g := After(senses, Front(log)), Last(log);
    BeliefsExplained(senses, Front(log));
    if g.reading.Miss? { MissShows(s, g.reading.catCount, g.reading.presence, g.now); }
  }

  lemma {:induction false} MissShows(s: Beliefs, catCount: nat, presence: State, now: Time)
    ensures var s' := Shown(JudgeMiss(s, catCount, presence, now), now);
            && s'.evidence == EvidenceOf(Miss(catCount, presence), s.lastConfirmed, now)
            && s'.age == (if s.lastConfirmed.Some? then Some(now - s.lastConfirmed.value) else None)
            && (s'.evidence == Held ==> s'.confidence == s.confidence && s'.state == s.state)
            && (s'.evidence != Held ==>
                  s'.confidence == 0.0 && s'.state == if s'.evidence == Absent then OutOfView else Unknown)
  {
  }

  /** The time kept beside the state is that of the last change. */
  lemma {:induction false} ChangedExact(senses: Senses, log: seq<Glance>)
    requires |log| > 0
    ensures var before, after := After(senses, Front(log)), After(senses, log);
            after.changed == if after.state == before.state then before.changed else Last(log).now
  {
    JudgeKeeps(senses, After(senses, Front(log)), Last(log));
  }

  lemma {:induction false} JudgeKeeps(senses: Senses, s: Beliefs, g: Glance)
    ensures Judge(senses, s, g).0.state == s.state && Judge(senses, s, g).0.changed == s.changed
  {
  }

  // ----- active -----

  /** Glance w is a confirmed sighting that completes two seconds of sustained motion. */
  ghost predicate Witness(senses: Senses, log: seq<Glance>, w: nat) {
    w < |log| && log[w].reading.One? && SustainedMotion(senses, Trail(log[..w + 1]))
  }

  lemma {:induction false} WitnessStays(senses: Senses, log: seq<Glance>, w: nat)
    requires |log| > 0 && Witness(senses, Front(log), w)
    ensures Witness(senses, log, w)
  {
    assert Front(log)[..w + 1] == log[..w + 1];
  }

  /** While active is shown: it was entered at a witness, and the last confirmed sighting, at most
      three seconds old, lies less than five seconds after a witness. */
  lemma {:induction false} ActiveTraced(senses: Senses, log: seq<Glance>) returns (entered: nat, w: nat)
    requires InOrder(log) && After(senses, log).state == Active
    ensures |log| > 0 && !Last(log).reading.Gone? && Confirmed(log).Some?
    ensures Last(log).now - Confirmed(log).value <= 3_000_000_000
    ensures Witness(senses, log, entered) && log[entered].now == After(senses, log).changed
    ensures Witness(senses, log, w) && 0 <= Confirmed(log).value - log[w].now < 5_000_000_000
  {
    var front, g := Front(log), Last(log);
    entered, w := 0, 0;
    if After(senses, front).state == Active {
      entered, w := ActiveTraced(senses, front);
      WitnessStays(senses, log, entered);
      WitnessStays(senses, log, w);
    }
    if g.reading.One? {
      entered, w := ActiveSighted(senses, log, entered);
    } else {
      ActiveHeld(senses, log);
    }
  }

  lemma {:induction false} ActiveSighted(senses: Senses, log: seq<Glance>, before: nat) returns (entered: nat, w: nat)
    requires InOrder(log) && |log| > 0 && Last(log).reading.One? && After(senses, log).state == Active
    requires After(senses, Front(log)).state == Active ==>
               Witness(senses, log, before) && log[before].now == After(senses, Front(log)).changed
    ensures Witness(senses, log, entered) && log[entered].now == After(senses, log).changed
    ensures Witness(senses, log, w) && 0 <= Last(log).now - log[w].now < 5_000_000_000
  {
    SightingVerdict(senses, log);
    assert log[..|log|] == log;
    var s := After(senses, Front(log));
    entered := if s.state == Active then before else |log| - 1;
    w := if SustainedMotion(senses, Trail(log)) then |log| - 1 else before;
  }

  lemma {:induction false} ActiveHeld(senses: Senses, log: seq<Glance>)
    requires InOrder(log) && After(senses, log).state == Active && |log| > 0 && !Last(log).reading.One?
    ensures Last(log).reading.Miss? && After(senses, Front(log)).state == Active
    ensures After(senses, log).changed == After(senses, Front(log)).changed
    ensures Confirmed(log).Some? && Confirmed(log) == Confirmed(Front(log)) && Last(log).now - Confirmed(log).value <= 3_000_000_000
  {
    BeliefsExplained(senses, Front(log));
  }

  /** Active is shown strictly less than eight seconds after a sighting at which one track had moved
      above threshold at every sighting for at least two seconds. */
  lemma {:induction false} ActiveHasWitness(senses: Senses, log: seq<Glance>) returns (w: nat)
    requires InOrder(log) && After(senses, log).state == Active
    ensures Witness(senses, log, w) && 0 <= Last(log).now - log[w].now < 8_000_000_000
  {
    var entered;
    entered, w := ActiveTraced(senses, log);
    assert log[w].now <= Last(log).now;
  }

  // ----- resting -----

  /** A resting decision at a confirmed sighting rests on at least ten confirmed sightings of one
      track, neighbours at most three seconds apart, the oldest at least twenty and under
      twenty-three seconds old, all still. */
  lemma {:induction false} RestingHasWindow(senses: Senses, log: seq<Glance>) returns (k: nat)
    requires InOrder(log) && |log| > 0 && Last(log).reading.One? && After(senses, log).state == Resting
    ensures var trail := Trail(log);
            && k + 10 <= |trail| && senses.still(Window(trail)) && SuffixFrom(Window(trail), trail, k)
            && 20_000_000_000 <= Last(log).now - trail[k].sample.at < 23_000_000_000
            && (forall i, j | k <= i < j < |trail| && j == i + 1 ::
                  trail[i].trackId == trail[j].trackId && trail[j].sample.at - trail[i].sample.at <= 3_000_000_000)
  {
    SightingVerdict(senses, log);
    TrailInOrder(log);
    TrailShape(log);
    var trail := Trail(log);
    k := WindowExact(trail);
    assert trail[k + 1].sample.at - trail[k].sample.at <= 3_000_000_000;
  }

  lemma {:induction false} SquareMonotone(a: real, b: real)
    requires 0.0 <= a <= b
    ensures a * a <= b * b
  {
  }

  lemma {:induction false} SquareOfDifference(a: real, b: real, low: real, high: real)
    requires low <= a <= high && low <= b <= high
    ensures (a - b) * (a - b) <= (high - low) * (high - low)
  {
    if a >= b { SquareMonotone(a - b, high - low); } else {
      SquareMonotone(b - a, high - low);
      assert (a - b) * (a - b) == (b - a) * (b - a);
    }
  }

  lemma {:induction false} ExtentCovers(samples: seq<Sample>, i: nat)
    requires i < |samples|
    ensures Covers(ExtentOf(samples), samples[i].box)
  {
    if i < |samples| - 1 { ExtentCovers(Front(samples), i); }
  }

  lemma {:induction false} SpreadBound(dx: real, dy: real, spanX: real, spanY: real, h: real)
    requires dx * dx <= spanX * spanX && dy * dy <= spanY * spanY
    requires 0.0 <= h <= 0.03 && h * h == spanX * spanX + spanY * spanY
    ensures dx * dx + dy * dy <= 0.0009
  {
    SquareMonotone(h, 0.03);
  }

  lemma {:induction false} RatioBound(a: real, b: real, low: real, high: real)
    requires 0.0 < low <= b && a <= high && high / low <= 1.25
    ensures a <= 1.25 * b
  {
    assert high == high / low * low;
    assert high / low * low <= 1.25 * low;
  }

  /** Although the code folds its extremes from 1 and 0, still means what it says of the true boxes:
      any two centres lie within 3 percent of the frame and any two areas within a quarter. */
  lemma {:induction false} StillMeans(libm: Libm, samples: seq<Sample>, i: nat, j: nat)
    requires IsHypot(libm.hypot) && AllSolid(samples) && Still(libm, samples) && i < |samples| && j < |samples|
    ensures Close(samples[i].box, samples[j].box)
  {
    var e := ExtentOf(samples);
    ExtentPositive(samples);
    ExtentCovers(samples, i);
    ExtentCovers(samples, j);
    var h := libm.hypot(e.maxX - e.minX, e.maxY - e.minY);
    assert h * h == (e.maxX - e.minX) * (e.maxX - e.minX) + (e.maxY - e.minY) * (e.maxY - e.minY) && h >= 0.0;
    CoveredIsClose(e, h, samples[i].box, samples[j].box);
  }

  /** So a resting decision at a confirmed sighting means that the sightings of the last twenty seconds
      are all within 3 percent of the frame and a quarter in size of each other. */
  lemma {:induction false} RestingIsClose(libm: Libm, log: seq<Glance>) returns (k: nat)
    requires IsHypot(libm.hypot) && InOrder(log) && |log| > 0 && Last(log).reading.One?
    requires After(SensesOf(libm), log).state == Resting && SolidSightings(log)
    ensures k + 10 <= |Trail(log)| && 20_000_000_000 <= Last(log).now - Trail(log)[k].sample.at < 23_000_000_000
    ensures forall i, j | k <= i < |Trail(log)| && k <= j < |Trail(log)| ::
              Trail(log)[i].trackId == Trail(log)[j].trackId && Close(Trail(log)[i].sample.box, Trail(log)[j].sample.box)
  {
    k := RestingHasWindow(SensesOf(libm), log);
    TrailIsSolid(log);
    SuffixIsClose(libm, Window(Trail(log)), Trail(log), k);
  }

  lemma {:induction false} SuffixIsClose(libm: Libm, window: seq<Sample>, trail: seq<Seen>, k: nat)
    requires IsHypot(libm.hypot) && SuffixFrom(window, trail, k) && Still(libm, window)
    requires forall s | s in trail :: Solid(s.sample.box)
    requires forall i, j | k <= i < j < |trail| && j == i + 1 :: trail[i].trackId == trail[j].trackId
    ensures forall i, j | k <= i < |trail| && k <= j < |trail| ::
              trail[i].trackId == trail[j].trackId && Close(trail[i].sample.box, trail[j].sample.box)
  {
    forall i, j | k <= i < |trail| && k <= j < |trail|
      ensures trail[i].trackId == trail[j].trackId && Close(trail[i].sample.box, trail[j].sample.box)
    {
      forall h | 0 <= h < |window| ensures Solid(window[h].box) {
        assert window[h] == trail[k + h].sample && trail[k + h] in trail;
      }
      assert window[i - k] == trail[i].sample && window[j - k] == trail[j].sample;
      StillMeans(libm, window, i - k, j - k);
      OneTrack(trail, k, i);
      OneTrack(trail, k, j);
    }
  }

  lemma {:induction false} OneTrack(trail: seq<Seen>, k: nat, i: nat)
    requires k <= i < |trail|
    requires forall i, j | k <= i < j < |trail| && j == i + 1 :: trail[i].trackId == trail[j].trackId
    ensures trail[i].trackId == trail[k].trackId
  {
    if k < i { OneTrack(trail, k, i - 1); }
  }

  /** The boxes of confirmed sightings have a positive size, as tracked boxes do. */
  ghost predicate SolidSightings(log: seq<Glance>) { forall g | g in log && g.reading.One? :: Solid(g.reading.cat.box) }

  lemma {:induction false} TrailIsSolid(log: seq<Glance>)
    requires SolidSightings(log)
    ensures forall s | s in Trail(log) :: Solid(s.sample.box)
  {
    if |log| > 0 {
      assert Last(log) in log;
      assert forall g | g in Front(log) :: g in log;
      TrailIsSolid(Front(log));
    }
  }

  predicate Close(a: Box, b: Box) {
    var dx, dy := CenterX(a) - CenterX(b), CenterY(a) - CenterY(b);
    dx * dx + dy * dy <= 0.0009 && Area(a) <= 1.25 * Area(b)
  }

  predicate Covers(e: Extent, b: Box) {
    e.minX <= CenterX(b) <= e.maxX && e.minY <= CenterY(b) <= e.maxY && e.minArea <= Area(b) <= e.maxArea
  }

  lemma {:induction false} CoveredIsClose(e: Extent, h: real, a: Box, b: Box)
    requires Covers(e, a) && Covers(e, b) && e.minArea > 0.0 && e.maxArea / e.minArea <= 1.25
    requires 0.0 <= h <= 0.03
    requires h * h == (e.maxX - e.minX) * (e.maxX - e.minX) + (e.maxY - e.minY) * (e.maxY - e.minY)
    ensures Close(a, b)
  {
    SquareOfDifference(CenterX(a), CenterX(b), e.minX, e.maxX);
    SquareOfDifference(CenterY(a), CenterY(b), e.minY, e.maxY);
    SpreadBound(CenterX(a) - CenterX(b), CenterY(a) - CenterY(b), e.maxX - e.minX, e.maxY - e.minY, h);
    RatioBound(Area(a), Area(b), e.minArea, e.maxArea);
  }

  // ----- held, and out of view -----

  /** Glance i is a confirmed sighting with only misses since. */
  ghost predicate LastSighting(log: seq<Glance>, i: nat) {
    i < |log| && log[i].reading.One? && forall k | i < k < |log| :: log[k].reading.Miss?
  }

  lemma {:induction false} SightingStands(log: seq<Glance>, i: nat)
    requires |log| > 0 && LastSighting(Front(log), i) && Last(log).reading.Miss?
    ensures LastSighting(log, i) && log[..i + 1] == Front(log)[..i + 1] && log[i] == Front(log)[i]
  {
    forall k | i < k < |log| ensures log[k].reading.Miss? { assert k < |log| - 1 ==> Front(log)[k] == log[k]; }
  }

  /** Held evidence traces to the last confirmed sighting, at most three seconds earlier, with only
      misses since, and shows the state and confidence of that sighting. */
  lemma {:induction false} HeldHasSighting(senses: Senses, log: seq<Glance>) returns (i: nat)
    requires InOrder(log) && After(senses, log).evidence == Held
    ensures LastSighting(log, i) && i < |log| - 1
    ensures Confirmed(log) == Some(log[i].now) && 0 <= Last(log).now - log[i].now <= 3_000_000_000
    ensures After(senses, log).state == After(senses, log[..i + 1]).state
    ensures After(senses, log).confidence == After(senses, log[..i + 1]).confidence
    decreases |log|
  {
    var front := Front(log);
    HeldBefore(senses, log);
    if Last(front).reading.One? {
      i := |front| - 1;
      assert front[..i + 1] == front;
    } else {
      i := HeldHasSighting(senses, front);
    }
    SightingStands(log, i);
  }

  /** Resting, whenever it is shown, was decided at the last confirmed sighting, at most three seconds ago. */
  lemma {:induction false} RestingTraced(senses: Senses, log: seq<Glance>) returns (i: nat)
    requires InOrder(log) && After(senses, log).state == Resting
    ensures LastSighting(log, i) && 0 <= Last(log).now - log[i].now <= 3_000_000_000
    ensures After(senses, log[..i + 1]).state == Resting
  {
    if Last(log).reading.One? {
      i := |log| - 1;
      assert log[..i + 1] == log;
    } else {
      i := HeldHasSighting(senses, log);
    }
  }

  /** A hold starts at a sighting or continues a hold. */
  lemma {:induction false} HeldBefore(senses: Senses, log: seq<Glance>)
    requires InOrder(log) && After(senses, log).evidence == Held
    ensures |log| > 1 && Last(log).reading.Miss? && !Last(Front(log)).reading.Blank()
    ensures After(senses, log).state == After(senses, Front(log)).state
    ensures After(senses, log).confidence == After(senses, Front(log)).confidence
    ensures Fresh(Confirmed(Front(log)), Last(log).now)
    ensures !Last(Front(log)).reading.One? ==> After(senses, Front(log)).evidence == Held
  {
    var front := Front(log);
    HeldFresh(senses, log);
    if Last(front).reading.Miss? {
      BeliefsExplained(senses, Front(front));
      assert Last(front).now <= Last(log).now;
    }
  }

  lemma {:induction false} HeldFresh(senses: Senses, log: seq<Glance>)
    requires InOrder(log) && After(senses, log).evidence == Held
    ensures |log| > 1 && Last(log).reading.Miss? && Fresh(Confirmed(Front(log)), Last(log).now)
    ensures After(senses, log).state == After(senses, Front(log)).state
    ensures After(senses, log).confidence == After(senses, Front(log)).confidence
  {
    BeliefsExplained(senses, Front(log));
  }

  lemma {:induction false} ConfirmedIsLatest(log: seq<Glance>, i: nat)
    requires InOrder(log) && i < |log| && log[i].reading.One? && forall k | i < k < |log| :: !log[k].reading.Blank()
    ensures Confirmed(log).Some? && log[i].now <= Confirmed(log).value
  {
    if i < |log| - 1 && Last(log).reading.Miss? { ConfirmedIsLatest(Front(log), i); }
  }

  /** Out of view is decided exactly on absent evidence: no cat detected, its presence debounced to
      absent, and no confirmed sighting in the last eight seconds since anything blanked the past. */
  lemma {:induction false} OutOfViewMeans(senses: Senses, log: seq<Glance>)
    requires InOrder(log) && |log| > 0
    ensures After(senses, log).state == OutOfView <==> After(senses, log).evidence == Absent
    ensures After(senses, log).state == OutOfView ==> Last(log).reading == Miss(0, OutOfView)
    ensures After(senses, log).state == OutOfView ==>
              forall i | 0 <= i < |log| && log[i].reading.One? && (forall k | i < k < |log| :: !log[k].reading.Blank()) ::
                Last(log).now - log[i].now > 8_000_000_000
  {
    var front, g := Front(log), Last(log);
    var s := After(senses, front);
    BeliefsExplained(senses, front);
    BeliefsExplained(senses, log);
    if g.reading.One? { SightingVerdict(senses, log); }
    if |front| > 0 && g.reading.Miss? && s.lastConfirmed.Some? && !Last(front).reading.Gone? {
      assert Last(front).now <= g.now;
    }
    if After(senses, log).state == OutOfView {
      forall i | 0 <= i < |log| && log[i].reading.One? && (forall k | i < k < |log| :: !log[k].reading.Blank())
        ensures g.now - log[i].now > 8_000_000_000
      {
        ConfirmedIsLatest(log, i);
      }
    }
  }
}
