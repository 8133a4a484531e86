/** What the counters of a track count: its sightings in the accepted frames of the whole run. */
module SightingLaws {
  import opened Common
  import opened Geometry
  import opened Tracking
  import opened TrackerLaws
  import opened TrackerRuns

  /** The frames among the first n that were accepted and showed the id. */
  ghost function Sightings(config: Config, ops: seq<Op>, n: nat, id: nat): set<nat>
    requires config.Valid()
  {
    set i: nat | i < n && SeenAt(config, ops, i, id)
  }

  lemma {:induction false} SeenEarlier(config: Config, ops: seq<Op>, i: nat, id: nat)
    requires config.Valid() && |ops| > 0 && i < |ops| - 1
    ensures SeenAt(config, Front(ops), i, id) <==> SeenAt(config, ops, i, id)
  {
    assert Front(ops)[..i] == ops[..i] && Front(ops)[..i + 1] == ops[..i + 1];
  }

  lemma {:induction false} SightingsNext(config: Config, ops: seq<Op>, id: nat)
    requires config.Valid() && |ops| > 0
    ensures Sightings(config, ops, |ops|, id) ==
            Sightings(config, Front(ops), |ops| - 1, id) + if SeenAt(config, ops, |ops| - 1, id) then {|ops| - 1} else {}
  {
    forall i: nat | i < |ops| - 1 ensures SeenAt(config, Front(ops), i, id) <==> SeenAt(config, ops, i, id) {
      SeenEarlier(config, ops, i, id);
    }
  }

  lemma {:induction false} SightingsGrow(config: Config, ops: seq<Op>, id: nat)
    requires config.Valid() && |ops| > 0
    ensures |Sightings(config, ops, |ops|, id)| ==
            |Sightings(config, Front(ops), |ops| - 1, id)| + if SeenAt(config, ops, |ops| - 1, id) then 1 else 0
  {
    SightingsNext(config, ops, id);
  }

  /** A track of the last state was seen in the last frame exactly if it is observed and the frame was accepted. */
  lemma {:induction false} SeenLast(config: Config, ops: seq<Op>, t: Track)
    requires config.Valid() && |ops| > 0 && After(config, ops).Some? && t in After(config, ops).value.tracks
    ensures SeenAt(config, ops, |ops| - 1, t.snapshot.trackId) <==> Took(config, ops, |ops| - 1) && t.snapshot.observed
  {
    assert ops[..|ops| - 1 + 1] == ops;
    OnlyOne(After(config, ops).value.tracks, t);
  }

  /** An id that has not been issued has not been seen. */
  lemma {:induction false} UnissuedUnseen(config: Config, ops: seq<Op>, i: nat, id: nat)
    requires config.Valid() && i < |ops| && After(config, ops).Some? && After(config, ops).value.nextId <= id
    ensures !SeenAt(config, ops, i, id)
  {
    if SeenAt(config, ops, i, id) {
      var t := TrackSeen(config, ops, i, id);
      assert TrackSound(config, After(config, ops[..i + 1]).value, t);
      assert ops[..|ops|] == ops;
      RunDescends(config, ops, i + 1, |ops|);
    }
  }

  lemma {:induction false} UnissuedUncounted(config: Config, ops: seq<Op>, id: nat)
    requires config.Valid() && After(config, ops).Some? && After(config, ops).value.nextId <= id
    ensures |Sightings(config, ops, |ops|, id)| == 0
  {
    forall i: nat | i < |ops| ensures !SeenAt(config, ops, i, id) { UnissuedUnseen(config, ops, i, id); }
    assert Sightings(config, ops, |ops|, id) == {};
  }

  lemma {:induction false} ComesFrom(config: Config, s: TrackerState, detections: seq<Detection>, received: Time,
                                     t: Track) returns (before: Option<Track>)
    requires Accepted(config, s, detections, received) && t in Update(config, s, detections, received).0.tracks
    ensures before.Some? ==> before.value in s.tracks && SameTarget(config, before.value, t, received)
    ensures before.None? ==> s.nextId <= t.snapshot.trackId && Fresh(t)
  {
    var live, tracks := config.Live(s.tracks, received), Update(config, s, detections, received).0.tracks;
    var k :| 0 <= k < |tracks| && tracks[k] == t;
    TrackOrigin(config, s, detections, received, k);
    before := if k < |live| then Some(live[k]) else None;
  }

  /** The hits of a track are its sightings: in every run, restarts and refused frames included, the
      counter is the number of accepted frames in which the id was seen. */
  lemma {:induction false} HitsAreSightings(config: Config, ops: seq<Op>, t: Track)
    requires config.Valid() && After(config, ops).Some? && t in After(config, ops).value.tracks
    ensures t.hits == |Sightings(config, ops, |ops|, t.snapshot.trackId)|
    decreases |ops|
  {
    var front, op := Front(ops), Last(ops);
    var s := After(config, front).value;
    assert ops[..|ops| - 1] == front;
    SightingsGrow(config, ops, t.snapshot.trackId);
    SeenLast(config, ops, t);
    if op.Frame? && Accepted(config, s, op.detections, op.received) {
      var before := ComesFrom(config, s, op.detections, op.received, t);
      if before.Some? {
        HitsAreSightings(config, front, before.value);
      } else {
        UnissuedUncounted(config, front, t.snapshot.trackId);
      }
    } else {
      HitsAreSightings(config, front, t);
    }
  }

  /** So a track is confirmed exactly from the frame on in which its id is seen for the configured number
      of times, and shown as confirmed, tentative or lost accordingly. */
  lemma {:induction false} ConfirmedExact(config: Config, ops: seq<Op>, t: Track)
    requires config.Valid() && After(config, ops).Some? && t in After(config, ops).value.tracks
    ensures var seen := |Sightings(config, ops, |ops|, t.snapshot.trackId)|;
            && (t.snapshot.confirmed <==> seen >= config.confirmationHits)
            && (t.snapshot.status == Lost <==> !t.snapshot.observed)
            && (t.snapshot.status == Confirmed <==> t.snapshot.observed && seen >= config.confirmationHits)
            && (t.snapshot.status == Tentative <==> t.snapshot.observed && seen < config.confirmationHits)
  {
    HitsAreSightings(config, ops, t);
    assert TrackSound(config, After(config, ops).value, t);
  }

  // ----- the clock -----

  /** Frame i was accepted, with no restart since. */
  ghost predicate TookSince(config: Config, ops: seq<Op>, i: nat)
    requires config.Valid()
  {
    i < |ops| && Took(config, ops, i) && forall k | i < k < |ops| :: ops[k].Frame?
  }

  /** The time kept is that of an accepted frame with no restart since. */
  lemma {:induction false} ClockAttained(config: Config, ops: seq<Op>) returns (i: nat)
    requires config.Valid() && After(config, ops).Some? && After(config, ops).value.started
    ensures TookSince(config, ops, i) && ops[i].received == After(config, ops).value.lastUpdate
    decreases |ops|
  {
    var front, op := Front(ops), Last(ops);
    var s := After(config, front).value;
    assert ops[..|ops| - 1] == front;
    if Took(config, ops, |ops| - 1) {
      var live, chosen := UpdateShape(config, s, op.detections, op.received);
      i := |ops| - 1;
    } else {
      i := ClockAttained(config, front);
      assert front[..i] == ops[..i];
      assert forall k | i < k < |front| :: front[k] == ops[k];
    }
  }

  /** A frame comes too late exactly if it is no later than some frame accepted since the last restart. */
  lemma {:induction false} LateExact(config: Config, ops: seq<Op>, detections: seq<Detection>, received: Time)
    requires config.Valid() && After(config, ops).Some?
    ensures Update(config, After(config, ops).value, detections, received).1 == Some(NotLater) <==>
            && |detections| <= 256 && (forall d | d in detections :: !Unusable(d))
            && exists i: nat :: TookSince(config, ops, i) && received <= ops[i].received
  {
    var s := After(config, ops).value;
    RefusalsExact(config, s, detections, received);
    if s.started && received <= s.lastUpdate {
      var i := ClockAttained(config, ops);
    }
    if exists i: nat :: TookSince(config, ops, i) && received <= ops[i].received {
      var i: nat :| TookSince(config, ops, i) && received <= ops[i].received;
      ClockHolds(config, ops, i);
    }
  }
}
