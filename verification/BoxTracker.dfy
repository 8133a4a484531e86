/** The tracker itself, which updates its tracks in place. */
module BoxTracker {
  import opened Common
  import opened Geometry
  import opened Matching
  import opened Tracking
  import opened TrackerRuns

  datatype ConfigError = InvalidConfig

  class BoxTracker {
    const config: Config
    var tracks: seq<Track>
    var nextId: nat
    var lastUpdate: Time
    var started: bool
    /** Every call so far that did not run out of room. */
    ghost var history: seq<Op>

    ghost function State(): TrackerState
      reads this
    {
      TrackerState(tracks, nextId, lastUpdate, started)
    }

    ghost predicate Valid()
      reads this
    {
      forall n | Door(n) :: config.Valid() && After(config, history) == Some(State())
    }

    constructor (config: Config)
      requires config.Valid()
      ensures Valid() && this.config == config && history == [] && State() == FRESH
    {
      this.config := config;
      tracks, nextId, lastUpdate, started := [], 1, 0, false;
      history := [];
    }

    /** A tracker for any configuration a caller may ask for; an invalid one is refused. */
    static method Create(config: Config) returns (r: Result<BoxTracker, ConfigError>)
      ensures r.Success? <==>
                && config.minimumIou > 0.0 && config.minimumIou <= 1.0
                && config.maximumCenterDistance > 0.0 && config.maximumCenterDistance <= 1.0
                && config.lostAfter > 0 && config.confirmationHits >= 1
      ensures r.Success? ==>
                && fresh(r.value) && r.value.Valid() && r.value.config == config
                && r.value.history == [] && r.value.State() == FRESH
    {
      if config.minimumIou <= 0.0 || config.minimumIou > 1.0 || config.maximumCenterDistance <= 0.0 ||
         config.maximumCenterDistance > 1.0 || config.lostAfter <= 0 || config.confirmationHits == 0 {
        return Failure(InvalidConfig);
      }
      var tracker := new BoxTracker(config);
      r := Success(tracker);
    }

    method Reset()
      requires Valid()
      modifies this
      ensures Valid() && history == old(history) + [Restart]
      ensures State() == Tracking.Reset(old(State()))
    {
      assert Door(0);
      AfterSnoc(config, history, Restart);
      tracks := [];
      started := false;
      history := history + [Restart];
    }

    method Update(detections: seq<Detection>, received: Time) returns (r: Result<seq<Snapshot>, Refusal>)
      requires Valid()
      modifies this
      ensures Sound(config, old(State()))
      ensures var (s, why) := Tracking.Update(config, old(State()), detections, received);
              && State() == s
              && r == (if why.None? then Success(Snapshots(s.tracks)) else Failure(why.value))
      ensures r != Failure(CapacityExhausted) ==> Valid() && history == old(history) + [Frame(detections, received)]
    {
      ghost var before := State();
      assert Door(0);
      AfterSnoc(config, history, Frame(detections, received));
      var refused := Check(detections, received);
      if refused.Some? {
        history := history + [Frame(detections, received)];
        return Failure(refused.value);
      }
      LiveReady(config, before, detections, received);
      ghost var live := config.Live(tracks, received);
      var ok := Advance(detections, received, live, Chosen(config, live, detections, received));
      if !ok {
        return Failure(CapacityExhausted);
      }
      history := history + [Frame(detections, received)];
      var result: seq<Snapshot> := [];
      for t := 0 to |tracks|
        invariant result == Snapshots(tracks[..t])
      {
        assert Front(tracks[..t + 1]) == tracks[..t];
        result := result + [tracks[t].snapshot];
      }
      assert tracks[..|tracks|] == tracks;
      r := Success(result);
    }

    /** The arguments are checked before anything changes. */
    method Check(detections: seq<Detection>, received: Time) returns (refused: Option<Refusal>)
      ensures refused == Refused(State(), detections, received)
    {
      if |detections| > MAXIMUM_TARGETS {
        return Some(TooManyDetections);
      }
      for i := 0 to |detections|
        invariant forall j | 0 <= j < i :: ValidDetection(detections[j])
      {
        if !ValidDetection(detections[i]) {
          assert detections[i] in detections;
          return Some(InvalidDetection);
        }
      }
      if started && received <= lastUpdate {
        return Some(NotLater);
      }
      refused := None;
    }

    /** The update proper. */
    method Advance(detections: seq<Detection>, received: Time, ghost live: seq<Track>, ghost chosen: seq<Candidate>)
      returns (ok: bool)
      requires live == config.Live(tracks, received)
      requires Measurable(live, detections) && SeenBefore(live, received)
      requires chosen == Chosen(config, live, detections, received) && Pairs(chosen, |live|, |detections|)
      modifies this`tracks, this`nextId, this`lastUpdate, this`started
      ensures Proceed(config, old(State()), live, chosen, detections, received) ==
              (State(), if ok then None else Some(CapacityExhausted))
    {
      tracks := config.Live(tracks, received);
      var candidates := Collect(detections, received);
      var matchedTracks, matchedDetections := Associate(detections, received, candidates, chosen);
      MarkLost(live, detections, received, chosen, matchedTracks);
      ok := AddNew(detections, received, chosen, matchedDetections);
      if ok {
        lastUpdate := received;
        started := true;
      }
    }

    /** All gated pairs, collected track by track and put in order. */
    method Collect(detections: seq<Detection>, received: Time) returns (candidates: seq<Candidate>)
      requires Measurable(tracks, detections)
      ensures Greedy(candidates) == Chosen(config, tracks, detections, received)
      ensures forall i | 0 <= i < |candidates| ::
                candidates[i].track < |tracks| && candidates[i].detection < |detections|
    {
      var pairs := CollectPairs(detections, received);
      candidates := ByScore(pairs);
      CandidatesInBounds(config, tracks, detections, received, pairs);
    }

    method CollectPairs(detections: seq<Detection>, received: Time) returns (candidates: seq<Candidate>)
      requires Measurable(tracks, detections)
      ensures candidates == CandidatesOf(config, tracks, detections, received, |tracks|)
    {
      candidates := [];
      for t := 0 to |tracks|
        invariant candidates == CandidatesOf(config, tracks, detections, received, t)
      {
        ghost var start := candidates;
        for d := 0 to |detections|
          invariant candidates == start + RowOf(config, tracks, detections, received, t, d)
        {
          var score := config.Score(tracks[t], detections[d], received);
          if score.Some? {
            candidates := candidates + [Candidate(t, d, score.value)];
          }
        }
      }
    }

    /** Walks the ordered candidates, taking each one whose track and detection are both free. */
    method Associate(detections: seq<Detection>, received: Time, candidates: seq<Candidate>,
                     ghost chosen: seq<Candidate>)
      returns (matchedTracks: seq<bool>, matchedDetections: seq<bool>)
      requires SeenBefore(tracks, received)
      requires forall i | 0 <= i < |candidates| ::
                 candidates[i].track < |tracks| && candidates[i].detection < |detections|
      requires chosen == Greedy(candidates)
      modifies this`tracks
      ensures Pairs(chosen, |tracks|, |detections|)
      ensures Walked(config, old(tracks), tracks, detections, chosen, matchedTracks, matchedDetections, received)
    {
      matchedTracks := seq(|tracks|, t => false);
      matchedDetections := seq(|detections|, d => false);
      ghost var taken: seq<Candidate> := [];
      var i := 0;
      while i < |candidates|
        invariant 0 <= i <= |candidates|
        invariant taken == Greedy(candidates[..i]) && Pairs(taken, |tracks|, |detections|)
        invariant Walked(config, old(tracks), tracks, detections, taken, matchedTracks, matchedDetections, received)
      {
        var c := candidates[i];
        assert Front(candidates[..i + 1]) == candidates[..i];
        FreeWhenUnmatched(taken, c);
        if !matchedTracks[c.track] && !matchedDetections[c.detection] {
          WalkedNext(config, old(tracks), tracks, detections, taken, c, matchedTracks, matchedDetections, received);
          tracks := tracks[c.track := config.Matched(tracks[c.track], detections[c.detection], received)];
          matchedTracks := matchedTracks[c.track := true];
          matchedDetections := matchedDetections[c.detection := true];
          taken := taken + [c];
        }
        i := i + 1;
      }
      assert candidates[..i] == candidates;
    }

    method MarkLost(ghost live: seq<Track>, ghost detections: seq<Detection>, ghost received: Time,
                    ghost chosen: seq<Candidate>, matchedTracks: seq<bool>)
      requires SeenBefore(live, received) && Pairs(chosen, |live|, |detections|)
      requires |tracks| == |live| == |matchedTracks|
      requires forall t | 0 <= t < |tracks| ::
                 && (matchedTracks[t] <==> DetectionOf(chosen, t).Some?)
                 && tracks[t] == Taken(config, live[t], detections, DetectionOf(chosen, t), received)
      modifies this`tracks
      ensures tracks == Settled(config, live, detections, chosen, received, |live|)
    {
      ghost var before := tracks;
      var t := 0;
      while t < |tracks|
        invariant 0 <= t <= |tracks| == |live|
        invariant forall u | 0 <= u < t ::
                    tracks[u] == SettledOne(config, live[u], detections, DetectionOf(chosen, u), received)
        invariant forall u | t <= u < |tracks| :: tracks[u] == before[u]
      {
        if matchedTracks[t] {
          ghost var i := PairOfTrack(chosen, t);
        } else {
          tracks := tracks[t := Missed(tracks[t])];
        }
        t := t + 1;
      }
    }

    /** New tracks for the unmatched detections; stops with false when there is no room. */
    method AddNew(detections: seq<Detection>, received: Time, ghost chosen: seq<Candidate>,
                  matchedDetections: seq<bool>)
      returns (ok: bool)
      requires |matchedDetections| == |detections|
      requires forall d | 0 <= d < |detections| :: matchedDetections[d] <==> TrackOf(chosen, d).Some?
      modifies this`tracks, this`nextId
      ensures Spawn(config, old(tracks), old(nextId), detections, chosen, received, |detections|) ==
              Spawned(tracks, nextId, ok)
    {
      var d := 0;
      while d < |detections|
        invariant 0 <= d <= |detections|
        invariant Spawn(config, old(tracks), old(nextId), detections, chosen, received, d) ==
                  Spawned(tracks, nextId, true)
      {
        if !matchedDetections[d] {
          if |tracks| >= MAXIMUM_TARGETS || nextId == MAXIMUM_ID {
            SpawnStuck(config, old(tracks), old(nextId), detections, chosen, received, d + 1, |detections|);
            return false;
          }
          tracks := tracks + [config.Born(nextId, detections[d], received)];
          nextId := nextId + 1;
        }
        d := d + 1;
      }
      ok := true;
    }
  }

  lemma {:induction false} ValidIsSound(tracker: BoxTracker)
    requires tracker.Valid()
    ensures Sound(tracker.config, tracker.State())
  {
    assert Door(0);
  }

  lemma {:induction false} SpawnStuck(config: Config, tracks: seq<Track>, nextId: nat, detections: seq<Detection>,
                                      chosen: seq<Candidate>, received: Time, d: nat, e: nat)
    requires d <= e <= |detections| && !Spawn(config, tracks, nextId, detections, chosen, received, d).ok
    ensures Spawn(config, tracks, nextId, detections, chosen, received, e) ==
            Spawn(config, tracks, nextId, detections, chosen, received, d)
  {
    if d < e { SpawnStuck(config, tracks, nextId, detections, chosen, received, d, e - 1); }
  }

  /** A track before the lost ones are marked. */
  function Taken(config: Config, track: Track, detections: seq<Detection>, d: Option<nat>, received: Time): Track
    requires track.snapshot.lastSeen < received
  {
    if d.Some? && d.value < |detections| then config.Matched(track, detections[d.value], received) else track
  }

  /** Where the walk over the candidates stands: the pairs taken so far are marked and applied. */
  ghost predicate Walked(config: Config, before: seq<Track>, tracks: seq<Track>, detections: seq<Detection>,
                         taken: seq<Candidate>, matchedTracks: seq<bool>, matchedDetections: seq<bool>, received: Time)
    requires SeenBefore(before, received)
  {
    && |tracks| == |before| == |matchedTracks| && |matchedDetections| == |detections|
    && (forall t | 0 <= t < |tracks| ::
          && (matchedTracks[t] <==> DetectionOf(taken, t).Some?)
          && tracks[t] == Taken(config, before[t], detections, DetectionOf(taken, t), received))
    && (forall d | 0 <= d < |detections| :: matchedDetections[d] <==> TrackOf(taken, d).Some?)
  }

  lemma {:induction false} WalkedNext(config: Config, before: seq<Track>, tracks: seq<Track>,
                                      detections: seq<Detection>,
                                      taken: seq<Candidate>, c: Candidate, matchedTracks: seq<bool>,
                                      matchedDetections: seq<bool>, received: Time)
    requires SeenBefore(before, received) && c.track < |tracks| && c.detection < |detections|
    requires Walked(config, before, tracks, detections, taken, matchedTracks, matchedDetections, received)
    requires !matchedTracks[c.track]
    ensures tracks[c.track].snapshot.lastSeen < received
    ensures Walked(config, before, tracks[c.track := config.Matched(tracks[c.track], detections[c.detection], received)],
                   detections, taken + [c], matchedTracks[c.track := true], matchedDetections[c.detection := true], received)
  {
    NextTaken(taken, c);
  }

  lemma {:induction false} NextTaken(taken: seq<Candidate>, c: Candidate)
    ensures forall t: nat :: DetectionOf(taken + [c], t) == if c.track == t then Some(c.detection) else DetectionOf(taken, t)
    ensures forall d: nat :: TrackOf(taken + [c], d) == if c.detection == d then Some(c.track) else TrackOf(taken, d)
  {
    assert Front(taken + [c]) == taken;
  }

  lemma {:induction false} FreeWhenUnmatched(chosen: seq<Candidate>, c: Candidate)
    ensures Free(chosen, c) <==> DetectionOf(chosen, c.track).None? && TrackOf(chosen, c.detection).None?
  {
    if !Free(chosen, c) {
      var k :| k in chosen && Clash(k, c);
      var i :| 0 <= i < |chosen| && chosen[i] == k;
      PartnersFound(chosen, i);
    }
    if DetectionOf(chosen, c.track).Some? {
      var i := PairOfTrack(chosen, c.track);
      assert chosen[i] in chosen;
    }
    if TrackOf(chosen, c.detection).Some? {
      var i := PairOfDetection(chosen, c.detection);
      assert chosen[i] in chosen;
    }
  }

  lemma {:induction false} CandidatesInBounds(config: Config, live: seq<Track>, detections: seq<Detection>,
                                              received: Time,
                           pairs: seq<Candidate>)
    requires Measurable(live, detections) && pairs == CandidatesOf(config, live, detections, received, |live|)
    ensures forall i | 0 <= i < |ByScore(pairs)| ::
              ByScore(pairs)[i].track < |live| && ByScore(pairs)[i].detection < |detections|
  {
    CandidatesExact(config, live, detections, received, |live|);
    ByScoreSorts(pairs);
    forall i | 0 <= i < |ByScore(pairs)| ensures ByScore(pairs)[i] in pairs {
      assert ByScore(pairs)[i] in Elements(ByScore(pairs));
    }
  }
}
