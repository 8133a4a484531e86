/** Whole runs of the tracker: frames and restarts in any order, until it runs out of room. */
module TrackerRuns {
  import opened Common
  import opened Geometry
  import opened Tracking
  import opened TrackerLaws

  datatype Op = Frame(detections: seq<Detection>, received: Time) | Restart

  const FRESH := TrackerState([], 1, 0, false)

  /** A refused frame changes nothing; running out of room ends the run. */
  function Next(config: Config, s: TrackerState, op: Op): (r: Option<TrackerState>)
    requires Sound(config, s)
    ensures r.Some? ==> Sound(config, r.value)
  {
    match op
    case Restart => Some(Reset(s))
    case Frame(detections, received) =>
      var (s', why) := Update(config, s, detections, received);
      if why.None? then (UpdateKeepsSound(config, s, detections, received); Some(s'))
      else if why == Some(CapacityExhausted) then None
      else Some(s)
  }

  function After(config: Config, ops: seq<Op>): (r: Option<TrackerState>)
    requires config.Valid()
    ensures r.Some? ==> Sound(config, r.value)
  {
    if |ops| == 0 then Some(FRESH)
    else
      match After(config, Front(ops))
      case None => None
      case Some(s) => Next(config, s, Last(ops))
  }

  lemma {:induction false} AfterSnoc(config: Config, ops: seq<Op>, op: Op)
    requires config.Valid() && After(config, ops).Some?
    ensures After(config, ops + [op]) == Next(config, After(config, ops).value, op)
  {
    assert Front(ops + [op]) == ops;
  }

  /** Frame i of the run was accepted. */
  ghost predicate Took(config: Config, ops: seq<Op>, i: nat)
    requires config.Valid() && i < |ops|
  {
    && ops[i].Frame? && After(config, ops[..i]).Some?
    && Accepted(config, After(config, ops[..i]).value, ops[i].detections, ops[i].received)
  }

  ghost predicate Measured(s: Snapshot, detections: seq<Detection>) {
    exists d :: 0 <= d < |detections| &&
      detections[d].classId == s.classId && detections[d].box == s.box && detections[d].confidence == s.confidence
  }

  /** The snapshot shows a detection of its class, as it stood in frame i, accepted at the last
      sighting with no restart since. */
  ghost predicate Sighting(config: Config, ops: seq<Op>, i: nat, s: Snapshot)
    requires config.Valid()
  {
    && i < |ops| && Took(config, ops, i) && ops[i].received == s.lastSeen && Measured(s, ops[i].detections)
    && forall j | i < j < |ops| :: !ops[j].Restart?
  }

  lemma {:induction false} SightingLasts(config: Config, ops: seq<Op>, op: Op, i: nat, a: Snapshot, b: Snapshot)
    requires config.Valid() && Sighting(config, ops, i, a) && !op.Restart?
    requires a.lastSeen == b.lastSeen && a.classId == b.classId && a.box == b.box && a.confidence == b.confidence
    ensures Sighting(config, ops + [op], i, b)
  {
    assert ops[..i] == (ops + [op])[..i] && (ops + [op])[i] == ops[i];
    var d :| 0 <= d < |ops[i].detections| && ops[i].detections[d].classId == a.classId &&
             ops[i].detections[d].box == a.box && ops[i].detections[d].confidence == a.confidence;
    assert Measured(b, ops[i].detections);
  }

  lemma {:induction false} NewSighting(config: Config, s: TrackerState, detections: seq<Detection>, received: Time,
                                       k: nat)
    requires Accepted(config, s, detections, received) && k < |Update(config, s, detections, received).0.tracks|
    requires Update(config, s, detections, received).0.tracks[k].snapshot.observed
    ensures Measured(Update(config, s, detections, received).0.tracks[k].snapshot, detections)
    ensures Update(config, s, detections, received).0.tracks[k].snapshot.lastSeen == received
  {
    var owner := DetectionsAreObservedTracks(config, s, detections, received);
    var d :| 0 <= d < |owner| && owner[d] == k;
    assert Shows(Update(config, s, detections, received).0.tracks[k].snapshot, detections[d], received);
  }

  /** Every box is a measurement: in every run, each track shows a detection of its class, as it
      stood in the accepted frame received at its last sighting, with no restart since. */
  lemma {:induction false} BoxesAreMeasured(config: Config, ops: seq<Op>, t: Track) returns (i: nat)
    requires config.Valid() && After(config, ops).Some? && t in After(config, ops).value.tracks
    ensures Sighting(config, ops, i, t.snapshot)
  {
    var front, op := Front(ops), Last(ops);
    var s := After(config, front).value;
    assert ops == front + [op] && ops[..|front|] == front;
    if op.Frame? && Accepted(config, s, op.detections, op.received) {
      var s' := After(config, ops).value;
      var k :| 0 <= k < |s'.tracks| && s'.tracks[k] == t;
      if t.snapshot.observed {
        i := |front|;
        NewSighting(config, s, op.detections, op.received, k);
      } else {
        TrackOrigin(config, s, op.detections, op.received, k);
        var a := config.Live(s.tracks, op.received)[k];
        i := BoxesAreMeasured(config, front, a);
        SightingLasts(config, front, op, i, a.snapshot, t.snapshot);
      }
    } else {
      i := BoxesAreMeasured(config, front, t);
      SightingLasts(config, front, op, i, t.snapshot, t.snapshot);
    }
  }

  predicate Past(s: TrackerState, t: Time) { s.started && t <= s.lastUpdate }

  lemma {:induction false} PastStays(config: Config, s: TrackerState, op: Op, t: Time)
    requires Sound(config, s) && Next(config, s, op).Some? && op.Frame?
    ensures Past(s, t) ==> Past(Next(config, s, op).value, t)
    ensures Accepted(config, s, op.detections, op.received) ==>
              Past(Next(config, s, op).value, op.received) && !Past(s, op.received)
  {
    if Accepted(config, s, op.detections, op.received) {
      var live, chosen := UpdateShape(config, s, op.detections, op.received);
    }
  }

  lemma {:induction false} PastStep(config: Config, ops: seq<Op>, t: Time)
    requires config.Valid() && |ops| > 0 && After(config, ops).Some? && Last(ops).Frame?
    ensures After(config, Front(ops)).Some?
    ensures Past(After(config, Front(ops)).value, t) ==> Past(After(config, ops).value, t)
    ensures Took(config, ops, |ops| - 1) ==> Past(After(config, ops).value, Last(ops).received)
  {
    PastStays(config, After(config, Front(ops)).value, Last(ops), t);
  }

  lemma {:induction false} ClockHolds(config: Config, ops: seq<Op>, i: nat)
    requires config.Valid() && i < |ops| && Took(config, ops, i) && After(config, ops).Some?
    requires forall k | i < k < |ops| :: ops[k].Frame?
    ensures Past(After(config, ops).value, ops[i].received)
  {
    PastStep(config, ops, ops[i].received);
    if i < |ops| - 1 {
      assert Front(ops)[..i] == ops[..i];
      ClockHolds(config, Front(ops), i);
    }
  }

  /** Accepted frames between restarts come at strictly increasing times. */
  lemma {:induction false} TimesIncrease(config: Config, ops: seq<Op>, i: nat, j: nat)
    requires config.Valid() && i < j < |ops| && Took(config, ops, i) && Took(config, ops, j)
    requires forall k | i < k < j :: ops[k].Frame?
    ensures ops[i].received < ops[j].received
  {
    assert ops[..j][..i] == ops[..i];
    ClockHolds(config, ops[..j], i);
    PastStays(config, After(config, ops[..j]).value, ops[j], ops[i].received);
  }

  // ----- ids -----

  /** Every id of the later state that was already issued before belonged to a track of the same
      class then, last seen no later. */
  ghost predicate Descends(s: TrackerState, s': TrackerState) {
    && s.nextId <= s'.nextId
    && forall b | b in s'.tracks && b.snapshot.trackId < s.nextId :: exists a :: a in s.tracks && Ancestor(a, b)
  }

  predicate Ancestor(a: Track, b: Track) {
    && a.snapshot.trackId == b.snapshot.trackId && a.snapshot.classId == b.snapshot.classId
    && a.snapshot.lastSeen <= b.snapshot.lastSeen
  }

  lemma {:induction false} NextDescends(config: Config, s: TrackerState, op: Op)
    requires Sound(config, s) && Next(config, s, op).Some?
    ensures Descends(s, Next(config, s, op).value)
  {
    var s' := Next(config, s, op).value;
    if op.Frame? && Accepted(config, s, op.detections, op.received) {
      var live, chosen := UpdateShape(config, s, op.detections, op.received);
      forall b | b in s'.tracks && b.snapshot.trackId < s.nextId
        ensures exists a :: a in s.tracks && Ancestor(a, b)
      {
        var k :| 0 <= k < |s'.tracks| && s'.tracks[k] == b;
        TrackOrigin(config, s, op.detections, op.received, k);
        assert Ancestor(live[k], b);
      }
    } else {
      assert forall b | b in s'.tracks :: Ancestor(b, b);
    }
  }

  lemma {:induction false} DescendsOn(s: TrackerState, s': TrackerState, s'': TrackerState)
    requires Descends(s, s') && Descends(s', s'')
    ensures Descends(s, s'')
  {
    forall c | c in s''.tracks && c.snapshot.trackId < s.nextId ensures exists a :: a in s.tracks && Ancestor(a, c) {
      var b :| b in s'.tracks && Ancestor(b, c);
      var a :| a in s.tracks && Ancestor(a, b);
      assert Ancestor(a, c);
    }
  }

  lemma {:induction false} RunDescends(config: Config, ops: seq<Op>, i: nat, j: nat)
    requires config.Valid() && i <= j <= |ops| && After(config, ops[..j]).Some?
    ensures After(config, ops[..i]).Some?
    ensures Descends(After(config, ops[..i]).value, After(config, ops[..j]).value)
  {
    if i == j {
      assert forall b | b in After(config, ops[..i]).value.tracks :: Ancestor(b, b);
    } else {
      assert Front(ops[..j]) == ops[..j - 1] && Last(ops[..j]) == ops[j - 1];
      RunDescends(config, ops, i, j - 1);
      NextDescends(config, After(config, ops[..j - 1]).value, ops[j - 1]);
      DescendsOn(After(config, ops[..i]).value, After(config, ops[..j - 1]).value, After(config, ops[..j]).value);
    }
  }

  ghost predicate Carries(s: TrackerState, id: nat) { exists t :: t in s.tracks && t.snapshot.trackId == id }

  /** An id that has been dropped never comes back, restarts included. */
  lemma {:induction false} IdsNeverReturn(config: Config, ops: seq<Op>, i: nat, j: nat, k: nat, id: nat)
    requires config.Valid() && i <= j <= k <= |ops| && After(config, ops[..k]).Some?
    ensures After(config, ops[..i]).Some? && After(config, ops[..j]).Some?
    ensures Carries(After(config, ops[..i]).value, id) && !Carries(After(config, ops[..j]).value, id) ==>
              !Carries(After(config, ops[..k]).value, id)
  {
    RunDescends(config, ops, j, k);
    RunDescends(config, ops, i, j);
    if Carries(After(config, ops[..i]).value, id) && Carries(After(config, ops[..k]).value, id) {
      var t :| t in After(config, ops[..i]).value.tracks && t.snapshot.trackId == id;
      assert TrackSound(config, After(config, ops[..i]).value, t);
      var c :| c in After(config, ops[..k]).value.tracks && c.snapshot.trackId == id;
      var b :| b in After(config, ops[..j]).value.tracks && Ancestor(b, c);
    }
  }

  /** An id keeps its class for ever. */
  lemma {:induction false} IdsKeepTheirClass(config: Config, ops: seq<Op>, i: nat, j: nat, a: Track, b: Track)
    requires config.Valid() && i <= j <= |ops| && After(config, ops[..j]).Some? && After(config, ops[..i]).Some?
    requires a in After(config, ops[..i]).value.tracks && b in After(config, ops[..j]).value.tracks
    requires a.snapshot.trackId == b.snapshot.trackId
    ensures a.snapshot.classId == b.snapshot.classId && a.snapshot.lastSeen <= b.snapshot.lastSeen
  {
    var s := After(config, ops[..i]).value;
    RunDescends(config, ops, i, j);
    assert TrackSound(config, s, a);
    var c :| c in s.tracks && Ancestor(c, b);
    var m :| 0 <= m < |s.tracks| && s.tracks[m] == a;
    var n :| 0 <= n < |s.tracks| && s.tracks[n] == c;
    assert m == n;
  }

  /** Consecutive sightings of an id are more than nothing and less than lostAfter apart. */
  lemma {:induction false} SightingsAreClose(config: Config, s: TrackerState, detections: seq<Detection>,
                                             received: Time, a: Track, b: Track)
    requires Accepted(config, s, detections, received)
    requires a in s.tracks && b in Update(config, s, detections, received).0.tracks
    requires a.snapshot.trackId == b.snapshot.trackId
    ensures b.snapshot.lastSeen == received || b.snapshot.lastSeen == a.snapshot.lastSeen
    ensures 0 < received - a.snapshot.lastSeen < config.lostAfter
  {
    var s' := Update(config, s, detections, received).0;
    var k :| 0 <= k < |s'.tracks| && s'.tracks[k] == b;
    TrackOrigin(config, s, detections, received, k);
    assert TrackSound(config, s, a);
    var live := config.Live(s.tracks, received);
    var m :| 0 <= m < |s.tracks| && s.tracks[m] == a;
    var n :| 0 <= n < |s.tracks| && s.tracks[n] == live[k];
    assert m == n;
  }

  /** Frame i was accepted and showed the id. */
  ghost predicate SeenAt(config: Config, ops: seq<Op>, i: nat, id: nat)
    requires config.Valid()
  {
    && i < |ops| && Took(config, ops, i) && After(config, ops[..i + 1]).Some?
    && exists t :: t in After(config, ops[..i + 1]).value.tracks && t.snapshot.trackId == id && t.snapshot.observed
  }

  lemma {:induction false} TrackSeen(config: Config, ops: seq<Op>, i: nat, id: nat) returns (t: Track)
    requires config.Valid() && SeenAt(config, ops, i, id)
    ensures t in After(config, ops[..i + 1]).value.tracks
    ensures t.snapshot.trackId == id && t.snapshot.observed && t.snapshot.lastSeen == ops[i].received
  {
    var s := After(config, ops[..i]).value;
    assert Front(ops[..i + 1]) == ops[..i];
    t :| t in After(config, ops[..i + 1]).value.tracks && t.snapshot.trackId == id && t.snapshot.observed;
    var live, chosen := UpdateShape(config, s, ops[i].detections, ops[i].received);
    assert TrackSound(config, After(config, ops[..i + 1]).value, t);
  }

  lemma {:induction false} Carrier(s: TrackerState, id: nat) returns (t: Track)
    requires Carries(s, id)
    ensures t in s.tracks && t.snapshot.trackId == id
  {
    t :| t in s.tracks && t.snapshot.trackId == id;
  }

  /** One operation in which a carried id is not sighted leaves its last sighting as it was. */
  lemma {:induction false} UnsightedStays(config: Config, s: TrackerState, op: Op, a: Track, b: Track)
    requires Sound(config, s) && Next(config, s, op).Some? && a in s.tracks && b in Next(config, s, op).value.tracks
    requires a.snapshot.trackId == b.snapshot.trackId
    requires op.Frame? && Accepted(config, s, op.detections, op.received) ==> !b.snapshot.observed
    ensures b.snapshot.lastSeen == a.snapshot.lastSeen
  {
    if op.Frame? && Accepted(config, s, op.detections, op.received) {
      SightingsAreClose(config, s, op.detections, op.received, a, b);
      var live, chosen := UpdateShape(config, s, op.detections, op.received);
      assert TrackSound(config, Next(config, s, op).value, b);
    } else {
      var m :| 0 <= m < |s.tracks| && s.tracks[m] == a;
      var n :| 0 <= n < |s.tracks| && s.tracks[n] == b;
      assert m == n;
    }
  }

  /** Between two sightings of an id some track carries it. */
  lemma {:induction false} CarriedBetween(config: Config, ops: seq<Op>, i: nat, n: nat, j: nat, id: nat)
    requires config.Valid() && i < n <= j < |ops| && SeenAt(config, ops, i, id) && SeenAt(config, ops, j, id)
    ensures After(config, ops[..n]).Some? && Carries(After(config, ops[..n]).value, id)
  {
    var run := ops[..j + 1];
    assert run[..i + 1] == ops[..i + 1] && run[..n] == ops[..n] && run[..j + 1] == run;
    IdsNeverReturn(config, run, i + 1, n, j + 1, id);
  }

  lemma {:induction false} UnsightedAt(config: Config, ops: seq<Op>, n: nat, a: Track, b: Track)
    requires config.Valid() && n < |ops| && After(config, ops[..n]).Some? && After(config, ops[..n + 1]).Some?
    requires a in After(config, ops[..n]).value.tracks && b in After(config, ops[..n + 1]).value.tracks
    requires a.snapshot.trackId == b.snapshot.trackId && !SeenAt(config, ops, n, b.snapshot.trackId)
    ensures b.snapshot.lastSeen == a.snapshot.lastSeen
  {
    assert Front(ops[..n + 1]) == ops[..n];
    UnsightedStays(config, After(config, ops[..n]).value, ops[n], a, b);
  }

  /** Between two sightings of an id its track keeps the time of the first. */
  lemma {:induction false} IdStays(config: Config, ops: seq<Op>, i: nat, n: nat, j: nat, id: nat) returns (t: Track)
    requires config.Valid() && i < n <= j < |ops| && SeenAt(config, ops, i, id) && SeenAt(config, ops, j, id)
    requires forall k | i < k < j :: !SeenAt(config, ops, k, id)
    ensures After(config, ops[..n]).Some? && t in After(config, ops[..n]).value.tracks
    ensures t.snapshot.trackId == id && t.snapshot.lastSeen == ops[i].received
    decreases n
  {
    if n == i + 1 {
      t := TrackSeen(config, ops, i, id);
    } else {
      var before := IdStays(config, ops, i, n - 1, j, id);
      CarriedBetween(config, ops, i, n, j, id);
      t := IdStep(config, ops, n - 1, before);
    }
  }

  lemma {:induction false} IdStep(config: Config, ops: seq<Op>, n: nat, a: Track) returns (b: Track)
    requires config.Valid() && n < |ops| && After(config, ops[..n]).Some? && After(config, ops[..n + 1]).Some?
    requires a in After(config, ops[..n]).value.tracks && !SeenAt(config, ops, n, a.snapshot.trackId)
    requires Carries(After(config, ops[..n + 1]).value, a.snapshot.trackId)
    ensures b in After(config, ops[..n + 1]).value.tracks
    ensures b.snapshot.trackId == a.snapshot.trackId && b.snapshot.lastSeen == a.snapshot.lastSeen
  {
    b := Carrier(After(config, ops[..n + 1]).value, a.snapshot.trackId);
    UnsightedAt(config, ops, n, a, b);
  }

  /** Over a whole run: two sightings of an id with none in between are more than nothing and less than
      lostAfter apart, restarts and refused frames included. */
  lemma {:induction false} ConsecutiveSightingsAreClose(config: Config, ops: seq<Op>, i: nat, j: nat, id: nat)
    requires config.Valid() && i < j < |ops| && SeenAt(config, ops, i, id) && SeenAt(config, ops, j, id)
    requires forall k | i < k < j :: !SeenAt(config, ops, k, id)
    ensures 0 < ops[j].received - ops[i].received < config.lostAfter
  {
    var a := IdStays(config, ops, i, j, j, id);
    assert Front(ops[..j + 1]) == ops[..j];
    var b := TrackSeen(config, ops, j, id);
    SightingsAreClose(config, After(config, ops[..j]).value, ops[j].detections, ops[j].received, a, b);
  }
}
