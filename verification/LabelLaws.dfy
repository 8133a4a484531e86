/** What a label that clients are served rests on, from the published context back to the detections of
    camera frames. */
module LabelLaws {
  import opened Common
  import opened Geometry
  import opened Contexts
  import opened Activity
  import opened ActivityTrace
  import opened ActivityLaws
  import opened Engine
  import opened LiveLaws
  import opened MotionLaws
  import opened Service
  import C = Chronicle
  import E = EngineLaws
  import Presence
  import Story = StoryLaws
  import T = Tracking
  import L = TrackerLaws

  // ----- every confirmed sighting is a detection -----

  /** A cat detection of the frame has just this box and confidence. */
  ghost predicate Detected(f: Frame, cat: T.Snapshot) {
    exists d :: 0 <= d < |f.detections| && f.detections[d].classId == 15 && f.detections[d].box == cat.box &&
                f.detections[d].confidence == cat.confidence
  }

  ghost predicate Measured(f: Frame, tracks: seq<T.Snapshot>) {
    forall t | t in tracks && ObservedCat(t) :: Detected(f, t) && Solid(t.box)
  }

  /** Turn k brought a frame that was less than two seconds old. */
  ghost predicate Brought(turns: seq<Turn>, k: nat) {
    k < |turns| && turns[k].frame.Some? && turns[k].now - turns[k].frame.value.received < 2_000_000_000
  }

  /** The sighting comes from a timely frame of one of the turns, received when it is dated. */
  ghost predicate FromTurns(turns: seq<Turn>, g: Glance) {
    g.reading.One? ==>
      && Solid(g.reading.cat.box)
      && exists k: nat :: Brought(turns, k) && turns[k].frame.value.received == g.now &&
                          Detected(turns[k].frame.value, g.reading.cat)
  }

  ghost predicate AllFromTurns(turns: seq<Turn>, glances: seq<Glance>) { forall g | g in glances :: FromTurns(turns, g) }

  lemma {:induction false} StillFromTurns(turns: seq<Turn>, turn: Turn, glances: seq<Glance>)
    requires AllFromTurns(turns, glances)
    ensures AllFromTurns(turns + [turn], glances)
  {
    forall g | g in glances ensures FromTurns(turns + [turn], g) {
      if g.reading.One? {
        assert FromTurns(turns, g);
        var k: nat :| Brought(turns, k) && turns[k].frame.value.received == g.now &&
                      Detected(turns[k].frame.value, g.reading.cat);
        assert (turns + [turn])[k] == turns[k] && Brought(turns + [turn], k);
      }
    }
  }

  /** One more glance, or none. */
  ghost predicate Adds(before: seq<Glance>, after: seq<Glance>, g: Glance) { after == before || after == before + [g] }

  lemma {:induction false} TrackedMeasured(setup: Setup, s: ServiceState, f: Frame)
    requires setup.Built() && T.Sound(setup.config, s.tracker) && |f.scores| == |setup.names|
    ensures Tracked(setup, s, f).Success? ==>
              Measured(f, Tracked(setup, s, f).value.1) && Tracked(setup, s, f).value.0.engine == s.engine
  {
    if Tracked(setup, s, f).Success? && f.done - f.received < FRAME_MAX_AGE {
      UpdateMeasured(setup.config, s.tracker, f);
    }
  }

  lemma {:induction false} UpdateMeasured(config: T.Config, s: T.TrackerState, f: Frame)
    requires L.Accepted(config, s, f.detections, f.received)
    ensures Measured(f, T.Snapshots(T.Update(config, s, f.detections, f.received).0.tracks))
  {
    var tracks := T.Update(config, s, f.detections, f.received).0.tracks;
    UpdateTrackable(config, s, f.detections, f.received);
    var owner := L.DetectionsAreObservedTracks(config, s, f.detections, f.received);
    forall t | t in T.Snapshots(tracks) && ObservedCat(t) ensures Detected(f, t) {
      var k :| 0 <= k < |tracks| && tracks[k].snapshot == t;
      var d :| 0 <= d < |owner| && owner[d] == k;
      assert L.Shows(tracks[owner[d]].snapshot, f.detections[d], f.received);
    }
  }

  lemma {:induction false} WitnessedGlance(setup: Setup, s: ServiceState, f: Frame, tracks: seq<T.Snapshot>)
    returns (g: Glance)
    requires Measured(f, tracks)
    ensures Witnessed(setup, s, f, tracks).Success? ==>
              Adds(s.engine.past.glances, Witnessed(setup, s, f, tracks).value.engine.past.glances, g)
    ensures g.reading.One? ==> Solid(g.reading.cat.box) && g.now == f.received && Detected(f, g.reading.cat)
  {
    g := Glance(Gone, 0);
    var o := ObservationOf(s.engine.context.source, f, tracks);
    if Rejected(s.engine, o).None? && !Ignored(s.engine, o, f.done) {
      g := Last(Taken(setup.senses, s.engine, o, f.done).past.glances);
      assert g.reading.One? ==> g.reading.cat in tracks && ObservedCat(g.reading.cat);
    }
  }

  lemma {:induction false} InferredGlance(setup: Setup, s: ServiceState, f: Frame) returns (g: Glance)
    requires setup.Built() && T.Sound(setup.config, s.tracker) && |f.scores| == |setup.names|
    ensures Inferred(setup, s, f).Success? ==>
              Adds(s.engine.past.glances, Inferred(setup, s, f).value.engine.past.glances, g)
    ensures g.reading.One? ==> Solid(g.reading.cat.box) && g.now == f.received && Detected(f, g.reading.cat)
  {
    g := Glance(Gone, 0);
    TrackedMeasured(setup, s, f);
    if Tracked(setup, s, f).Success? {
      var (s', tracks) := Tracked(setup, s, f).value;
      g := WitnessedGlance(setup, s', f, tracks);
    }
  }

  lemma {:induction false} PassGlance(setup: Setup, s: ServiceState, turn: Turn) returns (g: Glance)
    requires setup.Built() && T.Sound(setup.config, s.tracker)
    requires turn.frame.Some? ==> |turn.frame.value.scores| == |setup.names|
    ensures Pass(setup, s, turn).Success? ==>
              Adds(s.engine.past.glances, Pass(setup, s, turn).value.engine.past.glances, g)
    ensures FromTurns([turn], g)
  {
    g := Glance(Gone, 0);
    if turn.Timely() {
      var f := turn.frame.value;
      var heard := s.(engine := Heard(s.engine, f.received, turn.now));
      if turn.now >= s.next {
        g := InferredGlance(setup, Due(setup, heard, f), f);
        assert [turn][0] == turn && Brought([turn], 0);
      }
    } else if TimedOut(s.engine, turn.now) {
      g := Last(Ticked(setup.senses, s.engine, turn.now, turn.utc).past.glances);
      assert g.reading == Gone;
    }
  }

  /** In every run of the service every confirmed sighting the engine has taken is a cat detection of a
      timely frame, unchanged. */
  lemma {:induction false} SightingsAreMeasured(setup: Setup, source: string, started: Time, turns: seq<Turn>)
    requires setup.Built() && Scored(setup, turns) && Run(setup, source, started, turns).Some?
    ensures AllFromTurns(turns, Run(setup, source, started, turns).value.engine.past.glances)
  {
    if |turns| > 0 {
      var front, turn := Front(turns), Last(turns);
      assert turn in turns && turns == front + [turn];
      SightingsAreMeasured(setup, source, started, front);
      EveryPublishedContext(setup, source, started, front);
      var s := Run(setup, source, started, front).value;
      var g := PassGlance(setup, s, turn);
      StillFromTurns(front, turn, s.engine.past.glances);
      LastTurnToo(front, turn, g);
    }
  }

  lemma {:induction false} LastTurnToo(front: seq<Turn>, turn: Turn, g: Glance)
    requires FromTurns([turn], g)
    ensures FromTurns(front + [turn], g)
  {
    if g.reading.One? {
      assert Brought([turn], 0);
      assert (front + [turn])[|front|] == turn && Brought(front + [turn], |front|);
    }
  }

  // ----- the labels -----

  /** What the engine behind a served context has seen. */
  lemma {:induction false} ServedFacts(setup: Setup, source: string, started: Time, turns: seq<Turn>)
    requires setup.Built() && Scored(setup, turns) && Run(setup, source, started, turns).Some?
    ensures var s := Run(setup, source, started, turns).value;
            && InOrder(s.engine.past.glances) && AllFromTurns(turns, s.engine.past.glances)
            && s.current.petState == After(setup.senses, s.engine.past.glances).state
            && s.current.cat == Presence.After(s.engine.past.catLooks).state
            && (|s.engine.past.glances| > 0 ==> Last(s.engine.past.glances).reading == Read(s.engine.context))
            && s.engine.context.cat == s.current.cat
  {
    EveryPublishedContext(setup, source, started, turns);
    ServedIsRecorded(setup, source, started, turns);
    SightingsAreMeasured(setup, source, started, turns);
  }

  /** A cat detection of a timely frame has just the time and the box of the sighting. */
  ghost predicate SeenIn(turns: seq<Turn>, seen: Seen) {
    exists k: nat :: Brought(turns, k) && turns[k].frame.value.received == seen.sample.at &&
                     BoxedIn(turns[k].frame.value, seen.sample.box)
  }

  ghost predicate BoxedIn(f: Frame, box: Box) {
    exists d :: 0 <= d < |f.detections| && f.detections[d].classId == 15 && f.detections[d].box == box
  }

  lemma {:induction false} TrailIsSeen(turns: seq<Turn>, glances: seq<Glance>)
    requires AllFromTurns(turns, glances)
    ensures forall s | s in Trail(glances) :: SeenIn(turns, s)
    decreases |glances|
  {
    if |glances| > 0 {
      assert Last(glances) in glances;
      assert forall g | g in Front(glances) :: g in glances;
      TrailIsSeen(turns, Front(glances));
      if Last(glances).reading.One? { SightingIsSeen(turns, Last(glances)); }
    }
  }

  lemma {:induction false} SightingIsSeen(turns: seq<Turn>, g: Glance)
    requires FromTurns(turns, g) && g.reading.One?
    ensures SeenIn(turns, Seen(Sample(g.now, g.reading.cat.box), g.reading.cat.trackId))
  {
    var k: nat :| Brought(turns, k) && turns[k].frame.value.received == g.now &&
                  Detected(turns[k].frame.value, g.reading.cat);
    var d :| 0 <= d < |turns[k].frame.value.detections| && turns[k].frame.value.detections[d].classId == 15 &&
             turns[k].frame.value.detections[d].box == g.reading.cat.box;
    assert BoxedIn(turns[k].frame.value, g.reading.cat.box);
  }

  /** A served active rests on real motion: less than eight seconds before the last glance, a cat had been
      detected in frame after frame for at least two seconds, always on one track, and from each of these
      detections to the next its centre had travelled more than 0.03 of the frame per second or its area
      had changed. */
  lemma {:induction false} ServedActive(setup: Setup, libm: Libm, source: string, started: Time, turns: seq<Turn>)
    returns (w: nat, j: nat)
    requires setup.Built() && Scored(setup, turns) && Run(setup, source, started, turns).Some?
    requires setup.senses == SensesOf(libm) && IsHypot(libm.hypot)
    requires Run(setup, source, started, turns).value.current.petState == Active
    ensures var glances := Run(setup, source, started, turns).value.engine.past.glances;
            && w < |glances| && FromTurns(turns, glances[w]) && glances[w].reading.One?
            && 0 <= Last(glances).now - glances[w].now < 8_000_000_000
            && var trail := Trail(glances[..w + 1]);
               && ReallyMoving(libm, trail, j) && Last(trail).sample.at == glances[w].now
               && glances[w].now - trail[j].sample.at >= 2_000_000_000
               && forall s | s in trail :: SeenIn(turns, s)
  {
    ServedFacts(setup, source, started, turns);
    w, j := ActiveIsReal(libm, turns, Run(setup, source, started, turns).value.engine.past.glances);
  }

  lemma {:induction false} ActiveIsReal(libm: Libm, turns: seq<Turn>, glances: seq<Glance>) returns (w: nat, j: nat)
    requires IsHypot(libm.hypot) && InOrder(glances) && AllFromTurns(turns, glances)
    requires After(SensesOf(libm), glances).state == Active
    ensures w < |glances| && FromTurns(turns, glances[w]) && glances[w].reading.One?
    ensures 0 <= Last(glances).now - glances[w].now < 8_000_000_000
    ensures var trail := Trail(glances[..w + 1]);
            && ReallyMoving(libm, trail, j) && Last(trail).sample.at == glances[w].now
            && glances[w].now - trail[j].sample.at >= 2_000_000_000
            && forall s | s in trail :: SeenIn(turns, s)
  {
    w := ActiveHasWitness(SensesOf(libm), glances);
    assert glances[w] in glances;
    var seen := glances[..w + 1];
    assert forall g | g in seen :: g in glances;
    TrailIsSeen(turns, seen);
    SustainedIsReal(libm, seen);
    j :| ReallyMoving(libm, Trail(seen), j) && Last(Trail(seen)).sample.at - Trail(seen)[j].sample.at >= 2_000_000_000;
    TrailEnds(seen);
  }

  lemma {:induction false} TrailEnds(glances: seq<Glance>)
    requires |glances| > 0 && Last(glances).reading.One?
    ensures |Trail(glances)| > 0 && Last(Trail(glances)).sample == Sample(Last(glances).now, Last(glances).reading.cat.box)
  {
  }

  /** A served resting rests on a detection of the cat at most three seconds before the last glance, and
      on at least nine more over the twenty seconds before it, all of one track and close together. */
  lemma {:induction false} ServedResting(setup: Setup, libm: Libm, source: string, started: Time, turns: seq<Turn>)
    returns (i: nat, k: nat)
    requires setup.Built() && Scored(setup, turns) && Run(setup, source, started, turns).Some?
    requires setup.senses == SensesOf(libm) && IsHypot(libm.hypot)
    requires Run(setup, source, started, turns).value.current.petState == Resting
    ensures RestsOn(turns, Run(setup, source, started, turns).value.engine.past.glances, i, k)
  {
    ServedFacts(setup, source, started, turns);
    i, k := RestingIsReal(libm, turns, Run(setup, source, started, turns).value.engine.past.glances);
  }

  /** Glance i is the last sighting, at most three seconds old, and from sighting k of its trail on, ten or
      more over at least twenty seconds, all of them are cat detections of timely frames, close together
      and on one track. */
  ghost predicate RestsOn(turns: seq<Turn>, glances: seq<Glance>, i: nat, k: nat) {
    && LastSighting(glances, i) && FromTurns(turns, glances[i]) && 0 <= Last(glances).now - glances[i].now <= 3_000_000_000
    && var trail := Trail(glances[..i + 1]);
       && k + 10 <= |trail| && 20_000_000_000 <= glances[i].now - trail[k].sample.at < 23_000_000_000
       && (forall s | s in trail :: SeenIn(turns, s))
       && forall a, b | k <= a < |trail| && k <= b < |trail| ::
            trail[a].trackId == trail[b].trackId && Close(trail[a].sample.box, trail[b].sample.box)
  }

  lemma {:induction false} RestingIsReal(libm: Libm, turns: seq<Turn>, glances: seq<Glance>) returns (i: nat, k: nat)
    requires IsHypot(libm.hypot) && InOrder(glances) && AllFromTurns(turns, glances)
    requires After(SensesOf(libm), glances).state == Resting
    ensures RestsOn(turns, glances, i, k)
  {
    i := RestingTraced(SensesOf(libm), glances);
    assert glances[i] in glances;
    SolidPrefix(turns, glances, i + 1);
    k := RestingIsClose(libm, glances[..i + 1]);
    assert forall g | g in glances[..i + 1] :: g in glances;
    TrailIsSeen(turns, glances[..i + 1]);
  }

  lemma {:induction false} SolidPrefix(turns: seq<Turn>, glances: seq<Glance>, n: nat)
    requires AllFromTurns(turns, glances) && InOrder(glances) && n <= |glances|
    ensures SolidSightings(glances[..n]) && InOrder(glances[..n])
  {
    forall g | g in glances[..n] && g.reading.One? ensures Solid(g.reading.cat.box) {
      assert g in glances;
      assert FromTurns(turns, g);
    }
  }

  // ----- out of view -----

  /** The observation is that of a timely frame of one of the turns. */
  ghost predicate OfTurn(turns: seq<Turn>, source: string, o: Observation) {
    exists k: nat :: Brought(turns, k) && o == C.Observed(source, turns[k].frame.value, o.tracks)
  }

  ghost predicate SamplesOfTurns(turns: seq<Turn>, source: string, inputs: seq<E.Input>) {
    forall x | x in inputs && x.Sampled? :: OfTurn(turns, source, x.o)
  }

  lemma {:induction false} OfTurnStill(turns: seq<Turn>, turn: Turn, source: string, o: Observation)
    requires OfTurn(turns, source, o)
    ensures OfTurn(turns + [turn], source, o)
  {
    var k: nat :| Brought(turns, k) && o == C.Observed(source, turns[k].frame.value, o.tracks);
    assert (turns + [turn])[k] == turns[k] && Brought(turns + [turn], k);
  }

  /** What one turn adds to the inputs of the engine. */
  lemma {:induction false} TurnSamples(setup: Setup, source: string, started: Time, c: C.Chronicle, turns: seq<Turn>,
                                       turn: Turn)
    requires setup.config.Valid() && SamplesOfTurns(turns + [turn], source, c.inputs)
    ensures SamplesOfTurns(turns + [turn], source, C.Turned(setup, source, started, c, turn).inputs)
  {
    if turn.frame.Some? && turn.now - turn.frame.value.received < 2_000_000_000 {
      assert (turns + [turn])[|turns|] == turn && Brought(turns + [turn], |turns|);
    }
  }

  /** Every sample the engine is given is the observation of a timely frame. */
  lemma {:induction false} SamplesAreFrames(setup: Setup, source: string, started: Time, turns: seq<Turn>)
    requires setup.config.Valid()
    ensures SamplesOfTurns(turns, source, C.ChronicleOf(setup, source, started, turns).inputs)
    decreases |turns|
  {
    if |turns| > 0 {
      var front, c := Front(turns), C.ChronicleOf(setup, source, started, Front(turns));
      assert turns == front + [Last(turns)];
      SamplesAreFrames(setup, source, started, front);
      forall x | x in c.inputs && x.Sampled? ensures OfTurn(turns, source, x.o) { OfTurnStill(front, Last(turns), source, x.o); }
      TurnSamples(setup, source, started, c, front, Last(turns));
    }
  }

  lemma {:induction false} StepsAreInputs(source: string, started: Time, inputs: seq<E.Input>, o: Observation)
    requires Story.Saw(o) in Story.Recall(source, started, inputs).steps
    ensures exists x :: x in inputs && x.Sampled? && x.o == o
    decreases |inputs|
  {
    var front, x := Front(inputs), Last(inputs);
    if Story.Saw(o) in Story.Recall(source, started, front).steps {
      StepsAreInputs(source, started, front, o);
      var y :| y in front && y.Sampled? && y.o == o;
      assert y in inputs;
    } else {
      assert x in inputs;
    }
  }

  /** A frame without a cat. */
  ghost predicate NoCat(f: Frame) { forall d | d in f.detections :: d.classId != 15 }

  /** The steps from start to n saw no cat: each is an observation of a timely frame without one. */
  ghost predicate CatMissing(turns: seq<Turn>, steps: seq<Story.Step>, start: nat, n: nat) {
    && start <= n < |steps|
    && forall m | start <= m <= n ::
         steps[m].Saw? && exists k: nat :: Brought(turns, k) && NoCat(turns[k].frame.value) &&
                                           turns[k].frame.value.received == steps[m].o.received
  }

  lemma {:induction false} NoCatCounted(turns: seq<Turn>, source: string, o: Observation)
    requires OfTurn(turns, source, o) && o.catCount == 0
    ensures exists k: nat :: Brought(turns, k) && NoCat(turns[k].frame.value) && turns[k].frame.value.received == o.received
  {
    var k: nat :| Brought(turns, k) && o == C.Observed(source, turns[k].frame.value, o.tracks);
    var f := turns[k].frame.value;
    forall d | d in f.detections ensures d.classId != 15 {
      var i :| 0 <= i < |f.detections| && f.detections[i] == d;
      assert i in PlacesOf(f.detections, 15) <==> d.classId == 15;
    }
    assert NoCat(f);
  }

  /** What the engine of a service has been shown, told from the turns. */
  lemma {:induction false} ServedStory(setup: Setup, source: string, started: Time, turns: seq<Turn>)
    requires C.Named(setup) && Scored(setup, turns) && Run(setup, source, started, turns).Some?
    ensures var inputs, past := C.ChronicleOf(setup, source, started, turns).inputs,
                                Run(setup, source, started, turns).value.engine.past;
            var steps := Story.Recall(source, started, inputs).steps;
            && |past.catLooks| == |past.personLooks| == |past.glances| == |steps|
            && (forall i | 0 <= i < |steps| :: Story.Reported(past, steps[i], i))
            && (forall i | 0 <= i < |steps| && steps[i].Saw? :: OfTurn(turns, source, steps[i].o))
  {
    var inputs := C.ChronicleOf(setup, source, started, turns).inputs;
    C.ServiceIsChronicle(setup, source, started, turns);
    Story.LooksExact(setup.senses, source, started, inputs);
    SamplesAreFrames(setup, source, started, turns);
    var steps := Story.Recall(source, started, inputs).steps;
    forall i | 0 <= i < |steps| && steps[i].Saw? ensures OfTurn(turns, source, steps[i].o) {
      StepsAreInputs(source, started, inputs, steps[i].o);
    }
  }

  /** A served out of view rests on timely frames without a cat: an unbroken stretch of them, every
      observation taken from its first to its last, spans at least five seconds, and the cat has been shown
      out of view ever since; no confirmed sighting lies in the eight seconds before the last glance since
      anything blanked the past. */
  lemma {:induction false} ServedOutOfView(setup: Setup, source: string, started: Time, turns: seq<Turn>)
    returns (start: nat, n: nat)
    requires C.Named(setup) && Scored(setup, turns) && Run(setup, source, started, turns).Some?
    requires Run(setup, source, started, turns).value.current.petState == OutOfView
    ensures var past := Run(setup, source, started, turns).value.engine.past;
            var steps := Story.Recall(source, started, C.ChronicleOf(setup, source, started, turns).inputs).steps;
            && CatMissing(turns, steps, start, n)
            && steps[n].o.received - steps[start].o.received >= 5_000_000_000
            && |past.catLooks| == |steps|
            && (forall m | n < m <= |past.catLooks| :: Presence.After(past.catLooks[..m]).state == OutOfView)
            && forall i | 0 <= i < |past.glances| && past.glances[i].reading.One? &&
                          (forall k | i < k < |past.glances| :: !past.glances[k].reading.Gone? && !past.glances[k].reading.Crowd?) ::
                 Last(past.glances).now - past.glances[i].now > 8_000_000_000
  {
    ServedFacts(setup, source, started, turns);
    ServedStory(setup, source, started, turns);
    var past := Run(setup, source, started, turns).value.engine.past;
    var steps := Story.Recall(source, started, C.ChronicleOf(setup, source, started, turns).inputs).steps;
    OutOfViewMeans(setup.senses, past.glances);
    start, n := MissingStretch(turns, source, past, steps);
  }

  lemma {:induction false} MissingStretch(turns: seq<Turn>, source: string, past: History, steps: seq<Story.Step>)
    returns (start: nat, n: nat)
    requires |past.catLooks| == |past.personLooks| == |past.glances| == |steps|
    requires forall i | 0 <= i < |steps| :: Story.Reported(past, steps[i], i)
    requires forall i | 0 <= i < |steps| && steps[i].Saw? :: OfTurn(turns, source, steps[i].o)
    requires Presence.After(past.catLooks).state == OutOfView
    ensures CatMissing(turns, steps, start, n) && steps[n].o.received - steps[start].o.received >= 5_000_000_000
    ensures forall m | n < m <= |past.catLooks| :: Presence.After(past.catLooks[..m]).state == OutOfView
  {
    start, n := Presence.StateHasStretch(past.catLooks);
    forall m | start <= m <= n
      ensures steps[m].Saw? && exists k: nat :: Brought(turns, k) && NoCat(turns[k].frame.value) &&
                                                turns[k].frame.value.received == steps[m].o.received
    {
      assert Story.Reported(past, steps[m], m);
      NoCatCounted(turns, source, steps[m].o);
    }
    assert Story.Reported(past, steps[start], start) && Story.Reported(past, steps[n], n);
  }
}
