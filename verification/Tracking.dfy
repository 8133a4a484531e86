/** One tracker update as a function: expiry, gating, greedy association, lost marks, new ids. */
module Tracking {
  import opened Common
  import opened Geometry
  import opened Matching

  const MAXIMUM_TARGETS := 256
  /** The largest 64-bit id, which is never issued. */
  const MAXIMUM_ID := 0xFFFF_FFFF_FFFF_FFFF

  datatype Status = Tentative | Confirmed | Lost

  datatype Snapshot = Snapshot(trackId: nat, classId: int, confidence: real, box: Box, status: Status,
                               observed: bool, confirmed: bool, lastSeen: Time)

  datatype Track = Track(snapshot: Snapshot, hits: nat, velocityX: real, velocityY: real)

  function Seconds(t: Time): real { t as real / SECOND as real }

  /** Speed between two sightings, at most half a frame per second. */
  function Velocity(from: real, to: real, dt: Time): real
    requires dt > 0
  {
    Clamp((to - from) / Seconds(dt), -0.5, 0.5)
  }

  datatype Config = Config(minimumIou: real, maximumCenterDistance: real, lostAfter: Time, confirmationHits: nat,
                           hypot: Hypot)
  {
    predicate Valid() {
      && 0.0 < minimumIou <= 1.0 && 0.0 < maximumCenterDistance <= 1.0
      && lostAfter > 0 && confirmationHits > 0
    }

    /** Where the track is expected, inside the frame. Used for association only. */
    function Predicted(track: Track, received: Time): Box {
      var b := track.snapshot.box;
      var dt := Seconds(received - track.snapshot.lastSeen);
      b.(x := Clamp(b.x + track.velocityX * dt, 0.0, MaxReal(0.0, 1.0 - b.width)),
         y := Clamp(b.y + track.velocityY * dt, 0.0, MaxReal(0.0, 1.0 - b.height)))
    }

    /** The score of a gated pair; None when class, area or place rule the pair out. */
    function Score(track: Track, detection: Detection, received: Time): Option<real>
      requires Solid(track.snapshot.box) && Solid(detection.box)
    {
      var predicted := Predicted(track, received);
      if detection.classId != track.snapshot.classId then None
      else
        var ratio := Area(detection.box) / Area(predicted);
        if ratio < 0.4 || ratio > 2.5 then None
        else
          var overlap := Iou(predicted, detection.box);
          var distance := hypot(CenterX(predicted) - CenterX(detection.box), CenterY(predicted) - CenterY(detection.box));
          if overlap < minimumIou && distance > maximumCenterDistance then None
          else Some(overlap - distance * 0.1)
    }

    function Expired(track: Track, received: Time): bool { received - track.snapshot.lastSeen >= lostAfter }

    function Live(tracks: seq<Track>, received: Time): seq<Track> {
      if |tracks| == 0 then []
      else Live(Front(tracks), received) + (if Expired(Last(tracks), received) then [] else [Last(tracks)])
    }

    function Matched(track: Track, detection: Detection, received: Time): Track
      requires track.snapshot.lastSeen < received
    {
      var s := track.snapshot;
      var dt := received - s.lastSeen;
      var confirmed := track.hits + 1 >= confirmationHits;
      Track(s.(box := detection.box, confidence := detection.confidence, lastSeen := received, observed := true,
               confirmed := confirmed, status := if confirmed then Confirmed else Tentative),
            track.hits + 1,
            Velocity(CenterX(s.box), CenterX(detection.box), dt),
            Velocity(CenterY(s.box), CenterY(detection.box), dt))
    }

    function Born(id: nat, detection: Detection, received: Time): Track {
      var confirmed := confirmationHits == 1;
      Track(Snapshot(id, detection.classId, detection.confidence, detection.box,
                     if confirmed then Confirmed else Tentative, true, confirmed, received),
            1, 0.0, 0.0)
    }
  }

  function Missed(track: Track): Track {
    track.(snapshot := track.snapshot.(observed := false, status := Lost))
  }

  // ----- the predictor -----

  /** The prediction keeps the size of the box and stays inside the frame. */
  lemma {:induction false} PredictionInside(config: Config, track: Track, received: Time)
    ensures var b, p := track.snapshot.box, config.Predicted(track, received);
            && p.width == b.width && p.height == b.height
            && 0.0 <= p.x <= MaxReal(0.0, 1.0 - p.width) && 0.0 <= p.y <= MaxReal(0.0, 1.0 - p.height)
  {
  }

  /** A target that moves on as it did between its last two sightings, by at most half a frame per
      second and not out of the frame, is predicted where it will be after the same time again. */
  lemma {:induction false} SteadyMotionPredicted(config: Config, track: Track, detection: Detection, received: Time)
    requires track.snapshot.lastSeen < received
    requires var b, dt := detection.box, Seconds(received - track.snapshot.lastSeen);
             var dx, dy := CenterX(b) - CenterX(track.snapshot.box), CenterY(b) - CenterY(track.snapshot.box);
             && -0.5 <= dx / dt <= 0.5 && -0.5 <= dy / dt <= 0.5
             && 0.0 <= b.x + dx <= 1.0 - b.width && 0.0 <= b.y + dy <= 1.0 - b.height
    ensures var b, next := detection.box, received + (received - track.snapshot.lastSeen);
            config.Predicted(config.Matched(track, detection, received), next) ==
            b.(x := b.x + (CenterX(b) - CenterX(track.snapshot.box)), y := b.y + (CenterY(b) - CenterY(track.snapshot.box)))
  {
    var dt, next := received - track.snapshot.lastSeen, received + (received - track.snapshot.lastSeen);
    var b, matched := detection.box, config.Matched(track, detection, received);
    assert next - matched.snapshot.lastSeen == dt;
    CarriedOn(CenterX(track.snapshot.box), CenterX(b), dt);
    CarriedOn(CenterY(track.snapshot.box), CenterY(b), dt);
  }

  lemma {:induction false} CarriedOn(from: real, to: real, dt: Time)
    requires dt > 0 && -0.5 <= (to - from) / Seconds(dt) <= 0.5
    ensures Velocity(from, to, dt) * Seconds(dt) == to - from
  {
  }

  /** A pair that passes the gates agrees in class, is alike in area, and overlaps or is near; no score
      exceeds 1, and a target at rest that is found where it was scores 1. */
  lemma {:induction false} ScoreMeans(config: Config, track: Track, detection: Detection, received: Time)
    requires Solid(track.snapshot.box) && Solid(detection.box) && forall x, y :: config.hypot(x, y) >= 0.0
    ensures var score, p := config.Score(track, detection, received), config.Predicted(track, received);
            score.Some? ==>
              && detection.classId == track.snapshot.classId && score.value <= 1.0 && Solid(p)
              && 0.4 <= Area(detection.box) / Area(p) <= 2.5
              && (Iou(p, detection.box) >= config.minimumIou ||
                  config.hypot(CenterX(p) - CenterX(detection.box), CenterY(p) - CenterY(detection.box)) <=
                  config.maximumCenterDistance)
    ensures && detection.box == track.snapshot.box && detection.classId == track.snapshot.classId
            && track.velocityX == track.velocityY == 0.0 && config.hypot(0.0, 0.0) == 0.0 && config.Valid()
            && 0.0 <= detection.box.x <= 1.0 - detection.box.width && 0.0 <= detection.box.y <= 1.0 - detection.box.height
            ==> config.Score(track, detection, received) == Some(1.0)
  {
    IouLaws(detection.box, detection.box);
  }

  // ----- candidates -----

  ghost predicate Measurable(tracks: seq<Track>, detections: seq<Detection>) {
    && (forall t | 0 <= t < |tracks| :: Solid(tracks[t].snapshot.box))
    && (forall d | 0 <= d < |detections| :: Solid(detections[d].box))
  }

  /** The candidates of track t among the first d detections. */
  function RowOf(config: Config, tracks: seq<Track>, detections: seq<Detection>, received: Time, t: nat, d: nat)
    : seq<Candidate>
    requires Measurable(tracks, detections) && t < |tracks| && d <= |detections|
  {
    if d == 0 then []
    else
      var before := RowOf(config, tracks, detections, received, t, d - 1);
      match config.Score(tracks[t], detections[d - 1], received)
      case None => before
      case Some(score) => before + [Candidate(t, d - 1, score)]
  }

  /** The candidates of the first t tracks. */
  function CandidatesOf(config: Config, tracks: seq<Track>, detections: seq<Detection>, received: Time, t: nat)
    : seq<Candidate>
    requires Measurable(tracks, detections) && t <= |tracks|
  {
    if t == 0 then []
    else CandidatesOf(config, tracks, detections, received, t - 1) +
         RowOf(config, tracks, detections, received, t - 1, |detections|)
  }

  lemma {:induction false} RowExact(config: Config, tracks: seq<Track>, detections: seq<Detection>, received: Time,
                                    t: nat, d: nat)
    requires Measurable(tracks, detections) && t < |tracks| && d <= |detections|
    ensures forall c :: c in RowOf(config, tracks, detections, received, t, d) <==>
                        && c.track == t && c.detection < d
                        && config.Score(tracks[t], detections[c.detection], received) == Some(c.score)
    ensures DistinctPairs(RowOf(config, tracks, detections, received, t, d))
  {
    if d > 0 {
      RowExact(config, tracks, detections, received, t, d - 1);
      var before := RowOf(config, tracks, detections, received, t, d - 1);
      forall i | 0 <= i < |before| ensures before[i].detection < d - 1 { assert before[i] in before; }
    }
  }

  /** The candidates are exactly the gated pairs, each listed once. */
  lemma {:induction false} CandidatesExact(config: Config, tracks: seq<Track>, detections: seq<Detection>,
                                           received: Time, n: nat)
    requires Measurable(tracks, detections) && n <= |tracks|
    ensures forall c :: c in CandidatesOf(config, tracks, detections, received, n) <==>
                        && c.track < n && c.detection < |detections|
                        && config.Score(tracks[c.track], detections[c.detection], received) == Some(c.score)
    ensures DistinctPairs(CandidatesOf(config, tracks, detections, received, n))
  {
    if n > 0 {
      CandidatesExact(config, tracks, detections, received, n - 1);
      RowExact(config, tracks, detections, received, n - 1, |detections|);
      var before := CandidatesOf(config, tracks, detections, received, n - 1);
      var row := RowOf(config, tracks, detections, received, n - 1, |detections|);
      forall i | 0 <= i < |before| ensures before[i].track < n - 1 { assert before[i] in before; }
      forall i | 0 <= i < |row| ensures row[i].track == n - 1 { assert row[i] in row; }
    }
  }

  /** The association of one update. */
  function Chosen(config: Config, live: seq<Track>, detections: seq<Detection>, received: Time): seq<Candidate>
    requires Measurable(live, detections)
  {
    Greedy(ByScore(CandidatesOf(config, live, detections, received, |live|)))
  }

  ghost function Gated(config: Config, live: seq<Track>, detections: seq<Detection>, received: Time): set<Candidate>
    requires Measurable(live, detections)
  {
    Elements(CandidatesOf(config, live, detections, received, |live|))
  }

  /** The chosen pairs are the one stable association of the gated pairs. */
  lemma {:induction false} ChosenIsTheStableOne(config: Config, live: seq<Track>, detections: seq<Detection>,
                                                received: Time,
                             m: set<Candidate>)
    requires Measurable(live, detections)
    ensures Stable(m, Gated(config, live, detections, received)) <==>
            m == Elements(Chosen(config, live, detections, received))
  {
    var cs := CandidatesOf(config, live, detections, received, |live|);
    CandidatesExact(config, live, detections, received, |live|);
    ByScoreSorts(cs);
    StableIsGreedy(ByScore(cs), m);
  }

  lemma {:induction false} ChosenFacts(config: Config, live: seq<Track>, detections: seq<Detection>, received: Time)
    requires Measurable(live, detections)
    ensures Pairs(Chosen(config, live, detections, received), |live|, |detections|)
    ensures SameClass(Chosen(config, live, detections, received), live, detections)
    ensures forall c | c in Chosen(config, live, detections, received) ::
              && c.track < |live| && c.detection < |detections|
              && config.Score(live[c.track], detections[c.detection], received) == Some(c.score)
  {
    var cs := CandidatesOf(config, live, detections, received, |live|);
    CandidatesExact(config, live, detections, received, |live|);
    ByScoreSorts(cs);
    GreedyStable(ByScore(cs));
    GreedyFrom(ByScore(cs));
    var chosen := Chosen(config, live, detections, received);
    forall c | c in chosen ensures c in cs { assert c in Elements(ByScore(cs)); }
    assert forall i | 0 <= i < |chosen| :: chosen[i] in chosen;
  }

  // ----- applying the association -----

  /** A one-to-one list of pairs within bounds. */
  ghost predicate Pairs(chosen: seq<Candidate>, tracks: nat, detections: nat) {
    && (forall i | 0 <= i < |chosen| :: chosen[i].track < tracks && chosen[i].detection < detections)
    && (forall i, j | 0 <= i < j < |chosen| :: !Clash(chosen[i], chosen[j]))
  }

  function DetectionOf(chosen: seq<Candidate>, t: nat): Option<nat> {
    if |chosen| == 0 then None
    else if Last(chosen).track == t then Some(Last(chosen).detection)
    else DetectionOf(Front(chosen), t)
  }

  function TrackOf(chosen: seq<Candidate>, d: nat): Option<nat> {
    if |chosen| == 0 then None
    else if Last(chosen).detection == d then Some(Last(chosen).track)
    else TrackOf(Front(chosen), d)
  }

  lemma {:induction false} PairOfTrack(chosen: seq<Candidate>, t: nat) returns (i: nat)
    requires DetectionOf(chosen, t).Some?
    ensures i < |chosen| && chosen[i].track == t && DetectionOf(chosen, t) == Some(chosen[i].detection)
  {
    if Last(chosen).track == t { i := |chosen| - 1; } else { i := PairOfTrack(Front(chosen), t); }
  }

  lemma {:induction false} PairOfDetection(chosen: seq<Candidate>, d: nat) returns (i: nat)
    requires TrackOf(chosen, d).Some?
    ensures i < |chosen| && chosen[i].detection == d && TrackOf(chosen, d) == Some(chosen[i].track)
  {
    if Last(chosen).detection == d { i := |chosen| - 1; } else { i := PairOfDetection(Front(chosen), d); }
  }

  lemma {:induction false} PartnersFound(chosen: seq<Candidate>, i: nat)
    requires i < |chosen|
    ensures DetectionOf(chosen, chosen[i].track).Some? && TrackOf(chosen, chosen[i].detection).Some?
  {
    if i < |chosen| - 1 { PartnersFound(Front(chosen), i); }
  }

  /** The pair of a track and the pair of a detection are the same pair. */
  lemma {:induction false} PairsInverse(chosen: seq<Candidate>, tracks: nat, detections: nat, t: nat, d: nat)
    requires Pairs(chosen, tracks, detections)
    ensures DetectionOf(chosen, t) == Some(d) <==> TrackOf(chosen, d) == Some(t)
    ensures DetectionOf(chosen, t) == Some(d) ==> t < tracks && d < detections
  {
    if DetectionOf(chosen, t) == Some(d) {
      var i := PairOfTrack(chosen, t);
      PartnersFound(chosen, i);
      var j := PairOfDetection(chosen, d);
      assert i == j;
    }
    if TrackOf(chosen, d) == Some(t) {
      var i := PairOfDetection(chosen, d);
      PartnersFound(chosen, i);
      var j := PairOfTrack(chosen, t);
      assert i == j;
    }
  }

  /** One track after association. */
  function SettledOne(config: Config, track: Track, detections: seq<Detection>, d: Option<nat>, received: Time): Track
    requires track.snapshot.lastSeen < received
  {
    if d.Some? && d.value < |detections| then config.Matched(track, detections[d.value], received) else Missed(track)
  }

  ghost predicate SeenBefore(tracks: seq<Track>, received: Time) {
    forall t | 0 <= t < |tracks| :: tracks[t].snapshot.lastSeen < received
  }

  /** The first n tracks after association. */
  function Settled(config: Config, live: seq<Track>, detections: seq<Detection>, chosen: seq<Candidate>,
                   received: Time, n: nat): (settled: seq<Track>)
    requires Pairs(chosen, |live|, |detections|) && SeenBefore(live, received) && n <= |live|
    ensures |settled| == n
    ensures forall t | 0 <= t < n ::
              settled[t] == SettledOne(config, live[t], detections, DetectionOf(chosen, t), received)
  {
    if n == 0 then []
    else Settled(config, live, detections, chosen, received, n - 1) +
         [SettledOne(config, live[n - 1], detections, DetectionOf(chosen, n - 1), received)]
  }

  // ----- new tracks -----

  datatype Spawned = Spawned(tracks: seq<Track>, nextId: nat, ok: bool)

  /** After the first d detections; ok turns false for good at the first unmatched one that finds no room. */
  function Spawn(config: Config, tracks: seq<Track>, nextId: nat, detections: seq<Detection>, chosen: seq<Candidate>,
                 received: Time, d: nat): Spawned
    requires d <= |detections|
  {
    if d == 0 then Spawned(tracks, nextId, true)
    else
      var s := Spawn(config, tracks, nextId, detections, chosen, received, d - 1);
      if !s.ok || TrackOf(chosen, d - 1).Some? then s
      else if |s.tracks| >= MAXIMUM_TARGETS || s.nextId == MAXIMUM_ID then s.(ok := false)
      else Spawned(s.tracks + [config.Born(s.nextId, detections[d - 1], received)], s.nextId + 1, true)
  }

  /** How many of the first d detections stay unmatched. */
  function Unmatched(chosen: seq<Candidate>, d: nat): nat {
    if d == 0 then 0 else Unmatched(chosen, d - 1) + if TrackOf(chosen, d - 1).Some? then 0 else 1
  }

  lemma {:induction false} UnmatchedBefore(chosen: seq<Candidate>, e: nat, d: nat)
    requires e < d && TrackOf(chosen, e).None?
    ensures Unmatched(chosen, e) < Unmatched(chosen, d)
  {
    if e < d - 1 { UnmatchedBefore(chosen, e, d - 1); }
  }

  /** There is room exactly when the unmatched detections fit below both limits. */
  lemma {:induction false} SpawnRoom(config: Config, tracks: seq<Track>, nextId: nat, detections: seq<Detection>,
                                     chosen: seq<Candidate>, received: Time, d: nat)
    requires d <= |detections| && |tracks| <= MAXIMUM_TARGETS && nextId <= MAXIMUM_ID
    ensures var s := Spawn(config, tracks, nextId, detections, chosen, received, d);
            var n := Unmatched(chosen, d);
            && (s.ok <==> |tracks| + n <= MAXIMUM_TARGETS && nextId + n <= MAXIMUM_ID)
            && |tracks| <= |s.tracks| <= MAXIMUM_TARGETS && s.tracks[..|tracks|] == tracks
            && nextId <= s.nextId <= MAXIMUM_ID
            && (s.ok ==> |s.tracks| == |tracks| + n && s.nextId == nextId + n)
  {
    if d > 0 { SpawnRoom(config, tracks, nextId, detections, chosen, received, d - 1); }
  }

  /** Every unmatched detection gets the next place and the next id. */
  lemma {:induction false} SpawnPlace(config: Config, tracks: seq<Track>, nextId: nat, detections: seq<Detection>,
                                      chosen: seq<Candidate>, received: Time, d: nat, e: nat)
    requires e < d <= |detections| && |tracks| <= MAXIMUM_TARGETS && nextId <= MAXIMUM_ID
    requires Spawn(config, tracks, nextId, detections, chosen, received, d).ok && TrackOf(chosen, e).None?
    ensures var s := Spawn(config, tracks, nextId, detections, chosen, received, d);
            var k := |tracks| + Unmatched(chosen, e);
            k < |s.tracks| && s.tracks[k] == config.Born(nextId + Unmatched(chosen, e), detections[e], received)
  {
    SpawnRoom(config, tracks, nextId, detections, chosen, received, d - 1);
    if e < d - 1 {
      SpawnPlace(config, tracks, nextId, detections, chosen, received, d - 1, e);
    }
  }

  lemma {:induction false} UnmatchedAt(chosen: seq<Candidate>, d: nat, n: nat) returns (e: nat)
    requires n < Unmatched(chosen, d)
    ensures e < d && TrackOf(chosen, e).None? && Unmatched(chosen, e) == n
  {
    if n < Unmatched(chosen, d - 1) { e := UnmatchedAt(chosen, d - 1, n); } else { e := d - 1; }
  }

  // ----- the shape of the result -----

  /** The survivors keep their places and become what their own pair says; behind them every
      unmatched detection has one new track, with consecutive fresh ids. */
  ghost predicate Shape(config: Config, live: seq<Track>, nextId: nat, detections: seq<Detection>,
                        chosen: seq<Candidate>, received: Time, tracks: seq<Track>) {
    && Pairs(chosen, |live|, |detections|) && SeenBefore(live, received)
    && |tracks| == |live| + Unmatched(chosen, |detections|)
    && (forall t | 0 <= t < |live| :: SurvivorShape(config, live[t], detections, DetectionOf(chosen, t), received, tracks[t]))
    && (forall d {:trigger detections[d]} | 0 <= d < |detections| && TrackOf(chosen, d).None? ::
          && |live| + Unmatched(chosen, d) < |tracks|
          && tracks[|live| + Unmatched(chosen, d)] == config.Born(nextId + Unmatched(chosen, d), detections[d], received))
  }

  ghost predicate SurvivorShape(config: Config, a: Track, detections: seq<Detection>, d: Option<nat>, received: Time,
                                b: Track)
    requires a.snapshot.lastSeen < received
  {
    && (d.Some? ==> d.value < |detections| && detections[d.value].classId == a.snapshot.classId)
    && b == SettledOne(config, a, detections, d, received)
  }

  ghost predicate SameClass(chosen: seq<Candidate>, live: seq<Track>, detections: seq<Detection>) {
    forall i | 0 <= i < |chosen| ::
      && chosen[i].track < |live| && chosen[i].detection < |detections|
      && detections[chosen[i].detection].classId == live[chosen[i].track].snapshot.classId
  }

  lemma {:induction false} SpawnShape(config: Config, live: seq<Track>, nextId: nat, detections: seq<Detection>,
                   chosen: seq<Candidate>, received: Time)
    requires Pairs(chosen, |live|, |detections|) && SameClass(chosen, live, detections) && SeenBefore(live, received)
    requires |live| <= MAXIMUM_TARGETS && nextId <= MAXIMUM_ID
    requires Spawn(config, Settled(config, live, detections, chosen, received, |live|), nextId, detections, chosen,
                   received, |detections|).ok
    ensures Shape(config, live, nextId, detections, chosen, received,
                  Spawn(config, Settled(config, live, detections, chosen, received, |live|), nextId, detections,
                        chosen, received, |detections|).tracks)
  {
    var settled := Settled(config, live, detections, chosen, received, |live|);
    var tracks := Spawn(config, settled, nextId, detections, chosen, received, |detections|).tracks;
    SpawnRoom(config, settled, nextId, detections, chosen, received, |detections|);
    forall t | 0 <= t < |live|
      ensures SurvivorShape(config, live[t], detections, DetectionOf(chosen, t), received, tracks[t])
    {
      assert tracks[..|settled|][t] == settled[t];
      PartnerClass(chosen, live, detections, t);
    }
    forall d | 0 <= d < |detections| && TrackOf(chosen, d).None?
      ensures |live| + Unmatched(chosen, d) < |tracks|
      ensures tracks[|live| + Unmatched(chosen, d)] == config.Born(nextId + Unmatched(chosen, d), detections[d], received)
    {
      SpawnPlace(config, settled, nextId, detections, chosen, received, |detections|, d);
    }
  }

  lemma {:induction false} PartnerClass(chosen: seq<Candidate>, live: seq<Track>, detections: seq<Detection>, t: nat)
    requires SameClass(chosen, live, detections) && t < |live|
    ensures var d := DetectionOf(chosen, t);
            d.Some? ==> d.value < |detections| && detections[d.value].classId == live[t].snapshot.classId
  {
    if DetectionOf(chosen, t).Some? { var i := PairOfTrack(chosen, t); }
  }

  // ----- one update -----

  datatype TrackerState = TrackerState(tracks: seq<Track>, nextId: nat, lastUpdate: Time, started: bool)

  datatype Refusal = TooManyDetections | InvalidDetection | NotLater | CapacityExhausted

  ghost predicate TrackSound(config: Config, s: TrackerState, t: Track) {
    && ValidDetection(Detection(t.snapshot.classId, t.snapshot.confidence, t.snapshot.box))
    && 1 <= t.snapshot.trackId < s.nextId
    && s.started && t.snapshot.lastSeen <= s.lastUpdate
    && (t.snapshot.observed <==> t.snapshot.lastSeen == s.lastUpdate)
    && t.hits >= 1 && (t.snapshot.confirmed <==> t.hits >= config.confirmationHits)
    && t.snapshot.status ==
       (if !t.snapshot.observed then Lost else if t.snapshot.confirmed then Confirmed else Tentative)
  }

  /** What every update keeps: valid boxes, ids from 1 in increasing order below the next one,
      sightings no later than the last update. */
  ghost predicate Sound(config: Config, s: TrackerState) {
    && config.Valid() && |s.tracks| <= MAXIMUM_TARGETS && 1 <= s.nextId <= MAXIMUM_ID
    && (forall t | t in s.tracks :: TrackSound(config, s, t))
    && (forall i, j | 0 <= i < j < |s.tracks| :: s.tracks[i].snapshot.trackId < s.tracks[j].snapshot.trackId)
  }

  predicate AllValid(detections: seq<Detection>) { forall d | d in detections :: ValidDetection(d) }

  /** Why an update is refused before anything changes. */
  function Refused(s: TrackerState, detections: seq<Detection>, received: Time): Option<Refusal> {
    if |detections| > MAXIMUM_TARGETS then Some(TooManyDetections)
    else if !AllValid(detections) then Some(InvalidDetection)
    else if s.started && received <= s.lastUpdate then Some(NotLater)
    else None
  }

  lemma {:induction false} LiveSubset(config: Config, tracks: seq<Track>, received: Time)
    ensures forall t | t in config.Live(tracks, received) :: t in tracks && !config.Expired(t, received)
    ensures forall t | t in tracks && !config.Expired(t, received) :: t in config.Live(tracks, received)
    ensures |config.Live(tracks, received)| <= |tracks|
    ensures (forall i, j | 0 <= i < j < |tracks| :: tracks[i].snapshot.trackId < tracks[j].snapshot.trackId) ==>
              var live := config.Live(tracks, received);
              forall i, j | 0 <= i < j < |live| :: live[i].snapshot.trackId < live[j].snapshot.trackId
  {
    if |tracks| > 0 {
      LiveSubset(config, Front(tracks), received);
      var live := config.Live(Front(tracks), received);
      forall i | 0 <= i < |live| && forall i, j | 0 <= i < j < |tracks| :: tracks[i].snapshot.trackId < tracks[j].snapshot.trackId
        ensures live[i].snapshot.trackId < Last(tracks).snapshot.trackId
      {
        assert live[i] in Front(tracks);
      }
      assert tracks == Front(tracks) + [Last(tracks)];
    }
  }

  /** The tracks that take part in an update. */
  lemma {:induction false} LiveReady(config: Config, s: TrackerState, detections: seq<Detection>, received: Time)
    requires Sound(config, s) && Refused(s, detections, received).None?
    ensures var live := config.Live(s.tracks, received);
            && Measurable(live, detections) && SeenBefore(live, received) && |live| <= MAXIMUM_TARGETS
            && Pairs(Chosen(config, live, detections, received), |live|, |detections|)
            && SameClass(Chosen(config, live, detections, received), live, detections)
  {
    var live := config.Live(s.tracks, received);
    LiveSubset(config, s.tracks, received);
    forall t | 0 <= t < |live| ensures Solid(live[t].snapshot.box) && live[t].snapshot.lastSeen < received {
      assert live[t] in s.tracks;
      ValidIsSolid(Detection(live[t].snapshot.classId, live[t].snapshot.confidence, live[t].snapshot.box));
    }
    forall d | 0 <= d < |detections| ensures Solid(detections[d].box) {
      assert detections[d] in detections;
      ValidIsSolid(detections[d]);
    }
    ChosenFacts(config, live, detections, received);
  }

  /** The update proper, from the surviving tracks and the chosen pairs on. Running out of room is
      noticed after the tracks have been changed. */
  function Proceed(config: Config, s: TrackerState, live: seq<Track>, chosen: seq<Candidate>,
                   detections: seq<Detection>, received: Time): (TrackerState, Option<Refusal>)
    requires Pairs(chosen, |live|, |detections|) && SeenBefore(live, received)
  {
    var settled := Settled(config, live, detections, chosen, received, |live|);
    var spawned := Spawn(config, settled, s.nextId, detections, chosen, received, |detections|);
    if spawned.ok then (TrackerState(spawned.tracks, spawned.nextId, received, true), None)
    else (TrackerState(spawned.tracks, spawned.nextId, s.lastUpdate, s.started), Some(CapacityExhausted))
  }

  /** One update: the state it leaves and the refusal, if any. */
  function Update(config: Config, s: TrackerState, detections: seq<Detection>, received: Time)
    : (TrackerState, Option<Refusal>)
    requires Sound(config, s)
  {
    var refused := Refused(s, detections, received);
    if refused.Some? then (s, refused)
    else
      LiveReady(config, s, detections, received);
      var live := config.Live(s.tracks, received);
      Proceed(config, s, live, Chosen(config, live, detections, received), detections, received)
  }

  /** Clearing on a stream discontinuity; ids go on. */
  function Reset(s: TrackerState): TrackerState { s.(tracks := [], started := false) }

  function Snapshots(tracks: seq<Track>): (r: seq<Snapshot>)
    ensures |r| == |tracks| && forall t | 0 <= t < |tracks| :: r[t] == tracks[t].snapshot
  {
    if |tracks| == 0 then [] else Snapshots(Front(tracks)) + [Last(tracks).snapshot]
  }
}
