/** What must have been seen in the past for a label to be shown now. */
module ActivityTrace {
  import opened Common
  import opened Activity
  import T = Tracking

  /** Online glances come in the order of their times. */
  ghost predicate InOrder(log: seq<Glance>) {
    forall i, j | 0 <= i < j < |log| && !log[i].reading.Gone? && !log[j].reading.Gone? :: log[i].now <= log[j].now
  }

  // ----- the past, read off the glances alone -----

  /** The time of the last confirmed sighting, unless something blanked it since. */
  function Confirmed(log: seq<Glance>): Option<Time> {
    if |log| == 0 then None
    else
      match Last(log).reading
      case One(_) => Some(Last(log).now)
      case Miss(_, _) => Confirmed(Front(log))
      case _ => None
  }

  datatype Seen = Seen(sample: Sample, trackId: nat)

  /** Whether a sighting continues the trail before it. */
  predicate Joins(before: seq<Seen>, seen: Seen) {
    |before| > 0 && Last(before).trackId == seen.trackId && seen.sample.at - Last(before).sample.at <= 3_000_000_000
  }

  function Joined(before: seq<Seen>, seen: Seen): seq<Seen> { if Joins(before, seen) then before + [seen] else [seen] }

  predicate Fresh(c: Option<Time>, now: Time) { c.Some? && now - c.value <= 3_000_000_000 }

  /** The unbroken series of confirmed sightings of one track that reaches up to the last glance:
      neighbours at most three seconds apart, misses between them at most three seconds long. */
  function Trail(log: seq<Glance>): seq<Seen> {
    if |log| == 0 then []
    else
      var now := Last(log).now;
      match Last(log).reading
      case One(cat) => Joined(Trail(Front(log)), Seen(Sample(now, cat.box), cat.trackId))
      case Miss(_, _) => if Fresh(Confirmed(Front(log)), now) then Trail(Front(log)) else []
      case _ => []
  }

  /** Since when the sightings have all been moving, if the last one is. */
  function MovingStart(senses: Senses, trail: seq<Seen>): Option<Time> {
    if |trail| <= 1 || !senses.moves(trail[|trail| - 2].sample, Last(trail).sample) then None
    else
      var before := MovingStart(senses, Front(trail));
      if before.Some? then before else Some(Last(trail).sample.at)
  }

  /** The deque the code keeps, as it is trimmed at each sighting. */
  function Window(trail: seq<Seen>): seq<Sample> {
    if |trail| == 0 then []
    else DropOld(Window(Front(trail)) + [Last(trail).sample], Last(trail).sample.at)
  }

  /** A trail is one track with close neighbours, and ends at the last confirmed sighting. */
  lemma {:induction false} TrailShape(log: seq<Glance>)
    ensures var trail := Trail(log);
            && (forall i, j | 0 <= i < j < |trail| && j == i + 1 ::
                  trail[i].trackId == trail[j].trackId && trail[j].sample.at - trail[i].sample.at <= 3_000_000_000)
            && (|trail| > 0 ==> Confirmed(log) == Some(Last(trail).sample.at))
  {
    if |log| > 0 { TrailShape(Front(log)); }
  }

  // ----- the state of the heuristic, explained -----

  /** The windows and timers are functions of the trail. */
  ghost predicate Follows(senses: Senses, trail: seq<Seen>, confirmed: Option<Time>, s: Beliefs) {
    && s.lastConfirmed == confirmed
    && s.samples == Window(trail)
    && s.movingSince == MovingStart(senses, trail)
    && s.trackId == (if |trail| > 0 then Last(trail).trackId else 0)
  }

  /** Which states go with a remembered sighting. */
  ghost predicate Fits(s: Beliefs, now: Time) {
    && s.state in STATES
    && (s.lastConfirmed.Some? ==> s.state != Offline)
    && (s.lastConfirmed.Some? && s.state == OutOfView ==> now - s.lastConfirmed.value > 8_000_000_000)
  }

  lemma {:induction false} WindowEnd(trail: seq<Seen>)
    requires |trail| > 0
    ensures |Window(trail)| > 0 && Last(Window(trail)) == Last(trail).sample
  {
  }

  lemma {:induction false} KeptExplained(s: Beliefs, before: seq<Seen>, cat: T.Snapshot, now: Time)
    requires s.samples == Window(before) && (|before| > 0 ==> s.trackId == Last(before).trackId)
    ensures var seen := Seen(Sample(now, cat.box), cat.trackId);
            && Kept(s, cat, now) == (if Joins(before, seen) then s.samples else [])
            && (Joins(before, seen) ==> |s.samples| > 0 && Last(s.samples) == Last(before).sample)
  {
    if |before| > 0 { WindowEnd(before); }
  }

  lemma {:induction false} JoinedWindow(s: Beliefs, before: seq<Seen>, cat: T.Snapshot, now: Time)
    requires s.samples == Window(before) && (|before| > 0 ==> s.trackId == Last(before).trackId)
    ensures Window(Joined(before, Seen(Sample(now, cat.box), cat.trackId))) ==
            DropOld(Kept(s, cat, now) + [Sample(now, cat.box)], now)
  {
    var seen := Seen(Sample(now, cat.box), cat.trackId);
    KeptExplained(s, before, cat, now);
    assert Front(Joined(before, seen)) == if Joins(before, seen) then before else [];
    assert Window([]) == [];
  }

  lemma {:induction false} JoinedMoving(senses: Senses, s: Beliefs, before: seq<Seen>, cat: T.Snapshot, now: Time)
    requires s.samples == Window(before) && (|before| > 0 ==> s.trackId == Last(before).trackId)
    requires s.movingSince == MovingStart(senses, before)
    ensures MovingStart(senses, Joined(before, Seen(Sample(now, cat.box), cat.trackId))) ==
            MovingFrom(senses, s, cat, now)
  {
    var seen := Seen(Sample(now, cat.box), cat.trackId);
    var trail := Joined(before, seen);
    KeptExplained(s, before, cat, now);
    if Joins(before, seen) {
      assert Front(trail) == before && trail[|trail| - 2] == Last(before);
    }
  }

  lemma {:induction false} SightingFollows(senses: Senses, before: seq<Seen>, confirmed: Option<Time>, s: Beliefs,
                                           cat: T.Snapshot, now: Time)
    requires Follows(senses, before, confirmed, s)
    ensures var s' := Shown(JudgeSighting(senses, s, cat, now), now);
            && Follows(senses, Joined(before, Seen(Sample(now, cat.box), cat.trackId)), Some(now), s')
            && Fits(s', now)
  {
    JoinedWindow(s, before, cat, now);
    JoinedMoving(senses, s, before, cat, now);
  }

  lemma {:induction false} MissFollows(senses: Senses, before: seq<Seen>, confirmed: Option<Time>, s: Beliefs,
                                       earlier: Time, catCount: nat, presence: State, now: Time)
    requires Follows(senses, before, confirmed, s) && Fits(s, earlier)
    requires confirmed.None? ==> before == []
    requires confirmed.Some? ==> earlier <= now
    ensures var s' := Shown(JudgeMiss(s, catCount, presence, now), now);
            && Follows(senses, if Fresh(confirmed, now) then before else [], confirmed, s')
            && Fits(s', now)
  {
  }

  /** At all times the beliefs are what the trail of sightings says. */
  lemma {:induction false} BeliefsExplained(senses: Senses, log: seq<Glance>)
    requires InOrder(log)
    ensures Follows(senses, Trail(log), Confirmed(log), After(senses, log))
    ensures |log| > 0 ==> Fits(After(senses, log), Last(log).now)
  {
    if |log| > 0 {
      var front, g := Front(log), Last(log);
      var s := After(senses, front);
      BeliefsExplained(senses, front);
      TrailShape(front);
      match g.reading
      case One(cat) => SightingFollows(senses, Trail(front), Confirmed(front), s, cat, g.now);
      case Miss(catCount, presence) =>
        assert Confirmed(front).Some? ==> |front| > 0 && !Last(front).reading.Gone?;
        MissFollows(senses, Trail(front), Confirmed(front), s, if |front| > 0 then Last(front).now else g.now,
                    catCount, presence, g.now);
      case _ =>
    }
  }
}
