/** From tracker to published context: the counts agree, and what every published context satisfies. */
module LiveLaws {
  import opened Common
  import opened Geometry
  import opened Tracking
  import opened TrackerLaws
  import opened Contexts
  import opened Activity
  import opened Engine
  import opened EngineLaws
  import IntervalTable
  import Monitor

  function CountClass(detections: seq<Detection>, classId: int): nat {
    if |detections| == 0 then 0
    else CountClass(Front(detections), classId) + if Last(detections).classId == classId then 1 else 0
  }

  /** The highest confidence of a class, from 0 on. */
  function TopConfidence(detections: seq<Detection>, classId: int): real {
    if |detections| == 0 then 0.0
    else
      var top := TopConfidence(Front(detections), classId);
      if Last(detections).classId == classId then MaxReal(top, Last(detections).confidence) else top
  }

  /** One tracker update as the loops see it: the new state and the refusal, if any. */
  type TrackerStep = (TrackerState, seq<Detection>, Time) -> (TrackerState, Option<Refusal>)

  /** The update of a tracker that is only ever reached by updates and resets. */
  ghost function TrackerOf(config: Config): TrackerStep {
    (s: TrackerState, detections: seq<Detection>, received: Time) =>
      if Tracking.Sound(config, s) then Tracking.Update(config, s, detections, received) else (s, Some(InvalidDetection))
  }

  // ----- counting -----

  /** The places at which a class is detected. */
  ghost function PlacesOf(detections: seq<Detection>, classId: int): set<nat> {
    set d: nat | d < |detections| && detections[d].classId == classId
  }

  lemma {:induction false} CountExact(detections: seq<Detection>, classId: int)
    ensures CountClass(detections, classId) == |PlacesOf(detections, classId)|
    decreases |detections|
  {
    if |detections| > 0 {
      CountExact(Front(detections), classId);
      PlacesNext(detections, classId);
    }
  }

  lemma {:induction false} PlacesNext(detections: seq<Detection>, classId: int)
    requires |detections| > 0
    ensures PlacesOf(detections, classId) ==
            PlacesOf(Front(detections), classId) + if Last(detections).classId == classId then {|detections| - 1} else {}
  {
    var n, front := |detections| - 1, Front(detections);
    forall d: nat | d < n ensures front[d] == detections[d] {}
  }

  /** Detections are counted place by place, and the confidence of a class is the highest one of its
      detections, or zero. */
  lemma {:induction false} CountsExact(detections: seq<Detection>, classId: int)
    ensures CountClass(detections, classId) == |PlacesOf(detections, classId)|
    ensures forall d | d in detections && d.classId == classId :: d.confidence <= TopConfidence(detections, classId)
    ensures TopConfidence(detections, classId) != 0.0 ==>
              exists d :: d in detections && d.classId == classId && d.confidence == TopConfidence(detections, classId)
    decreases |detections|
  {
    CountExact(detections, classId);
    if |detections| > 0 {
      CountsExact(Front(detections), classId);
      assert detections == Front(detections) + [Last(detections)];
    }
  }

  function Image(owner: seq<nat>, s: set<nat>): set<nat>
    requires forall d | d in s :: d < |owner|
  {
    set d | d in s :: owner[d]
  }

  lemma {:induction false} ImageSize(owner: seq<nat>, s: set<nat>)
    requires forall d | d in s :: d < |owner|
    requires forall d, e | 0 <= d < e < |owner| :: owner[d] != owner[e]
    ensures |Image(owner, s)| == |s|
  {
    if s != {} {
      var d :| d in s;
      ImageSize(owner, s - {d});
      assert Image(owner, s) == Image(owner, s - {d}) + {owner[d]};
      assert owner[d] !in Image(owner, s - {d});
    }
  }

  /** As many observed cat tracks as cat detections. */
  lemma {:induction false} CatsCounted(owner: seq<nat>, detections: seq<Detection>, tracks: seq<Track>, received: Time)
    requires Corresponds(owner, detections, tracks, received)
    ensures CountCats(Snapshots(tracks)) == CountClass(detections, CAT)
  {
    var snapshots := Snapshots(tracks);
    var cats, tracked := PlacesOf(detections, CAT), CatPlaces(snapshots);
    CountCatsExact(snapshots);
    CountExact(detections, CAT);
    ImageSize(owner, cats);
    forall k ensures k in tracked <==> k in Image(owner, cats) {
      if k in tracked {
        assert k in owner;
        var d :| 0 <= d < |owner| && owner[d] == k;
        assert Shows(tracks[owner[d]].snapshot, detections[d], received);
        assert d in cats;
      }
      if k in Image(owner, cats) {
        var d :| d in cats && owner[d] == k;
        assert Shows(tracks[owner[d]].snapshot, detections[d], received);
      }
    }
    assert tracked == Image(owner, cats);
  }

  /** What an accepted frame hands to the engine. */
  ghost predicate Trackable(tracks: seq<Snapshot>, cats: nat) {
    && CountCats(tracks) == cats
    && forall t | t in tracks && ObservedCat(t) :: Solid(t.box) && ValidConfidence(t.confidence)
  }

  lemma {:induction false} UpdateTrackable(config: Config, s: TrackerState, detections: seq<Detection>, received: Time)
    requires Accepted(config, s, detections, received)
    ensures Trackable(Snapshots(Tracking.Update(config, s, detections, received).0.tracks), CountClass(detections, CAT))
  {
    var s' := Tracking.Update(config, s, detections, received).0;
    var owner := DetectionsAreObservedTracks(config, s, detections, received);
    CatsCounted(owner, detections, s'.tracks, received);
    UpdateKeepsSound(config, s, detections, received);
    forall t | t in Snapshots(s'.tracks) ensures Solid(t.box) && ValidConfidence(t.confidence) {
      var k :| 0 <= k < |s'.tracks| && s'.tracks[k].snapshot == t;
      assert TrackSound(config, s', s'.tracks[k]);
      ValidIsSolid(Detection(t.classId, t.confidence, t.box));
    }
  }

  // ----- what every published context satisfies -----

  /** The engine of a running service. */
  ghost predicate Healthy(senses: Senses, s: EngineState) {
    && Engine.Sound(senses, s) && Confident(s.past.glances)
    && s.context.catCount == CountCats(s.context.tracks) && s.context.inferenceMs >= 0.0
  }

  /** What the store is given of a context. */
  function EntryOf(c: Context, at: int): IntervalTable.Entry {
    IntervalTable.Entry(c.source, c.petState, c.petEvidence, c.petConfidence, at)
  }

  /** The events told between two states of a run. */
  function News(before: EngineState, after: EngineState): seq<Event> {
    if |before.past.events| <= |after.past.events| then after.past.events[|before.past.events|..] else []
  }

  ghost predicate Grown(before: EngineState, after: EngineState) { before.past.events <= after.past.events }

  lemma {:induction false} TakenGrown(senses: Senses, s: EngineState, o: Observation, now: Time)
    requires Rejected(s, o).None?
    ensures Grown(s, Taken(senses, s, o, now))
  {
  }

  lemma {:induction false} TickedGrown(senses: Senses, s: EngineState, now: Time, at: int)
    ensures Grown(s, Ticked(senses, s, now, at))
  {
  }

  /** The cat count is the number of observed cat tracks; the pet is offline exactly when the camera
      is; several cats are never active or resting; the confidence is one. */
  predicate Publishable(c: Context) {
    && c.catCount == CountCats(c.tracks)
    && (c.petState == Offline <==> c.health == HealthOffline)
    && (c.catCount > 1 ==> c.petState != Active && c.petState != Resting)
    && 0.0 <= c.petConfidence <= 1.0 && c.petState in STATES && c.inferenceMs >= 0.0
  }

  lemma {:induction false} HealthyPublishes(senses: Senses, s: EngineState)
    requires Healthy(senses, s)
    ensures Publishable(s.context) && Monitor.Objections(s.context).None?
  {
    PublishedStates(senses, s);
    ConfidenceValid(senses, s.past.glances);
  }

  lemma {:induction false} NewHealthy(senses: Senses, source: string, started: Time)
    ensures Healthy(senses, NewEngine(source, started))
  {
    NewSound(senses, source, started);
  }

  lemma {:induction false} ConfidentNext(glances: seq<Glance>, g: Glance)
    requires Confident(glances) && (g.reading.One? ==> ValidConfidence(g.reading.cat.confidence))
    ensures Confident(glances + [g])
  {
  }

  lemma {:induction false} TakenHealthy(senses: Senses, s: EngineState, o: Observation, now: Time)
    requires Healthy(senses, s) && Rejected(s, o).None?
    requires Ignored(s, o, now) || Trackable(o.tracks, o.catCount)
    ensures Healthy(senses, Taken(senses, s, o, now))
  {
    TakenSound(senses, s, o, now);
    if !Ignored(s, o, now) {
      var s' := Taken(senses, s, o, now);
      var g := Last(s'.past.glances);
      assert s'.past.glances == s.past.glances + [g];
      assert g.reading.One? ==> g.reading.cat in o.tracks;
      ConfidentNext(s.past.glances, g);
    }
  }

  lemma {:induction false} TickedHealthy(senses: Senses, s: EngineState, now: Time, at: int)
    requires Healthy(senses, s)
    ensures Healthy(senses, Ticked(senses, s, now, at))
  {
    TickedSound(senses, s, now, at);
    if TimedOut(s, now) {
      var s' := Ticked(senses, s, now, at);
      var g := Last(s'.past.glances);
      assert s'.past.glances == s.past.glances + [g];
      assert g.reading == Gone;
      ConfidentNext(s.past.glances, g);
    }
  }

  lemma {:induction false} HeardHealthy(senses: Senses, s: EngineState, received: Time, now: Time)
    requires Healthy(senses, s)
    ensures Healthy(senses, Heard(s, received, now))
  {
  }
}
