/** What the tracker promises: detections and observed tracks correspond one to one, boxes are
    always measured, ids are never confused or reused. */
module TrackerLaws {
  import opened Common
  import opened Geometry
  import opened Matching
  import opened Tracking

  // ----- quality of the association -----

  /** No candidate can be added to the association, and no one-to-one association within the gates
      has more than twice as many pairs. */
  lemma {:induction false} AssociationQuality(config: Config, live: seq<Track>, detections: seq<Detection>,
                                              received: Time,
                           other: set<Candidate>)
    requires Measurable(live, detections)
    requires other <= Gated(config, live, detections, received) && OneToOne(other)
    ensures var m := Elements(Chosen(config, live, detections, received));
            && (forall c | c in Gated(config, live, detections, received) && c !in m :: !OneToOne(m + {c}))
            && |other| <= 2 * |m|
  {
    var m := Elements(Chosen(config, live, detections, received));
    ChosenIsTheStableOne(config, live, detections, received, m);
    HalfOfAnyMatching(m, Gated(config, live, detections, received), other);
  }

  ghost predicate Inverse(p: seq<nat>, q: seq<nat>) {
    && |p| == |q|
    && (forall d | 0 <= d < |p| :: p[d] < |q| && q[p[d]] == d)
    && (forall d | 0 <= d < |q| :: q[d] < |p| && p[q[d]] == d)
  }

  /** The same frame with its detections listed in another order. */
  ghost predicate Shuffled(detections: seq<Detection>, shuffled: seq<Detection>, p: seq<nat>, q: seq<nat>) {
    && Inverse(p, q) && |detections| == |shuffled| == |p|
    && forall d | 0 <= d < |p| :: shuffled[p[d]] == detections[d]
  }

  lemma {:induction false} GatedMoves(config: Config, live: seq<Track>, detections: seq<Detection>,
                                      shuffled: seq<Detection>,
                   received: Time, p: seq<nat>, q: seq<nat>)
    requires Measurable(live, detections) && Measurable(live, shuffled) && Shuffled(detections, shuffled, p, q)
    ensures forall c | c in Gated(config, live, detections, received) :: c.detection < |p|
    ensures Gated(config, live, shuffled, received) == Moved(Gated(config, live, detections, received), p)
  {
    var all, all' := Gated(config, live, detections, received), Gated(config, live, shuffled, received);
    CandidatesExact(config, live, detections, received, |live|);
    CandidatesExact(config, live, shuffled, received, |live|);
    forall c' | c' in all' ensures c' in Moved(all, p) {
      var c := c'.(detection := q[c'.detection]);
      assert p[q[c'.detection]] == c'.detection;
      assert c in all && c' == c.(detection := p[c.detection]);
    }
    forall c | c in all ensures c.(detection := p[c.detection]) in all' {}
  }

  /** When no two candidates score the same, the order of the detections does not matter: every
      surviving track ends up with the same measurement. */
  lemma {:induction false} OrderOfDetectionsIrrelevant(config: Config, live: seq<Track>, detections: seq<Detection>,
                                    shuffled: seq<Detection>, received: Time, p: seq<nat>, q: seq<nat>)
    requires Measurable(live, detections) && Measurable(live, shuffled) && SeenBefore(live, received)
    requires Shuffled(detections, shuffled, p, q)
    requires DistinctScores(Gated(config, live, detections, received))
    requires Pairs(Chosen(config, live, detections, received), |live|, |detections|)
    requires Pairs(Chosen(config, live, shuffled, received), |live|, |shuffled|)
    ensures Settled(config, live, detections, Chosen(config, live, detections, received), received, |live|) ==
            Settled(config, live, shuffled, Chosen(config, live, shuffled, received), received, |live|)
  {
    var chosen, chosen' := Chosen(config, live, detections, received), Chosen(config, live, shuffled, received);
    ChoiceMoves(config, live, detections, shuffled, received, p, q);
    SameSettled(config, live, detections, shuffled, chosen, chosen', received, p);
  }

  lemma {:induction false} ChoiceMoves(config: Config, live: seq<Track>, detections: seq<Detection>,
                                       shuffled: seq<Detection>,
                    received: Time, p: seq<nat>, q: seq<nat>)
    requires Measurable(live, detections) && Measurable(live, shuffled) && Shuffled(detections, shuffled, p, q)
    requires DistinctScores(Gated(config, live, detections, received))
    ensures forall c | c in Elements(Chosen(config, live, detections, received)) :: c.detection < |p|
    ensures Elements(Chosen(config, live, shuffled, received)) ==
            Moved(Elements(Chosen(config, live, detections, received)), p)
  {
    var m, all := Elements(Chosen(config, live, detections, received)), Gated(config, live, detections, received);
    GatedMoves(config, live, detections, shuffled, received, p, q);
    ChosenIsTheStableOne(config, live, detections, received, m);
    forall d, e | 0 <= d < e < |p| ensures p[d] != p[e] { assert q[p[d]] == d && q[p[e]] == e; }
    MovedStable(m, all, p);
    ChosenIsTheStableOne(config, live, shuffled, received, Moved(m, p));
  }

  lemma {:induction false} SameSettled(config: Config, live: seq<Track>, detections: seq<Detection>,
                                       shuffled: seq<Detection>,
                    chosen: seq<Candidate>, chosen': seq<Candidate>, received: Time, p: seq<nat>)
    requires SeenBefore(live, received) && |detections| == |shuffled| == |p|
    requires forall d | 0 <= d < |p| :: p[d] < |p| && shuffled[p[d]] == detections[d]
    requires Pairs(chosen, |live|, |detections|) && Pairs(chosen', |live|, |shuffled|)
    requires forall c | c in Elements(chosen) :: c.detection < |p|
    requires Elements(chosen') == Moved(Elements(chosen), p)
    ensures Settled(config, live, detections, chosen, received, |live|) ==
            Settled(config, live, shuffled, chosen', received, |live|)
  {
    forall t | 0 <= t < |live|
      ensures SettledOne(config, live[t], detections, DetectionOf(chosen, t), received) ==
              SettledOne(config, live[t], shuffled, DetectionOf(chosen', t), received)
    {
      SamePartner(chosen, chosen', |live|, |detections|, p, t);
    }
  }

  lemma {:induction false} SamePartner(chosen: seq<Candidate>, chosen': seq<Candidate>, tracks: nat, detections: nat,
                                       p: seq<nat>, t: nat)
    requires Pairs(chosen, tracks, detections) && Pairs(chosen', tracks, detections) && |p| == detections
    requires forall c | c in Elements(chosen) :: c.detection < |p|
    requires Elements(chosen') == Moved(Elements(chosen), p)
    ensures DetectionOf(chosen', t).Some? <==> DetectionOf(chosen, t).Some?
    ensures DetectionOf(chosen, t).Some? ==>
              && DetectionOf(chosen, t).value < |p|
              && DetectionOf(chosen', t) == Some(p[DetectionOf(chosen, t).value])
  {
    if DetectionOf(chosen, t).Some? {
      var i := PairOfTrack(chosen, t);
      var c := chosen[i];
      assert c in Elements(chosen);
      var c' := c.(detection := p[c.detection]);
      assert c' in Elements(chosen');
      var j :| 0 <= j < |chosen'| && chosen'[j] == c';
      PartnersFound(chosen', j);
      var k := PairOfTrack(chosen', t);
      assert j == k;
    }
    if DetectionOf(chosen', t).Some? {
      var i := PairOfTrack(chosen', t);
      assert chosen'[i] in Elements(chosen');
      var c :| c in Elements(chosen) && chosen'[i] == c.(detection := p[c.detection]);
      var k :| 0 <= k < |chosen| && chosen[k] == c;
      PartnersFound(chosen, k);
    }
  }

  // ----- one successful update -----

  /** The place of the track that carries detection d. */
  function Owner(live: seq<Track>, chosen: seq<Candidate>, d: nat): nat {
    match TrackOf(chosen, d)
    case Some(t) => t
    case None => |live| + Unmatched(chosen, d)
  }

  predicate Shows(s: Snapshot, d: Detection, received: Time) {
    s.observed && s.classId == d.classId && s.box == d.box && s.confidence == d.confidence && s.lastSeen == received
  }

  lemma {:induction false} OwnerShows(config: Config, live: seq<Track>, nextId: nat, detections: seq<Detection>,
                   chosen: seq<Candidate>, received: Time, tracks: seq<Track>, d: nat)
    requires Shape(config, live, nextId, detections, chosen, received, tracks) && d < |detections|
    ensures Owner(live, chosen, d) < |tracks| && Shows(tracks[Owner(live, chosen, d)].snapshot, detections[d], received)
  {
    var detection := detections[d];
    match TrackOf(chosen, d)
    case Some(t) =>
      PairsInverse(chosen, |live|, |detections|, t, d);
      assert SurvivorShape(config, live[t], detections, DetectionOf(chosen, t), received, tracks[t]);
    case None =>
  }

  lemma {:induction false} OwnersDiffer(live: seq<Track>, chosen: seq<Candidate>, detections: nat, d: nat, e: nat)
    requires Pairs(chosen, |live|, detections) && d < e < detections
    ensures Owner(live, chosen, d) != Owner(live, chosen, e)
  {
    if TrackOf(chosen, d).Some? { PairsInverse(chosen, |live|, detections, TrackOf(chosen, d).value, d); }
    if TrackOf(chosen, e).Some? { PairsInverse(chosen, |live|, detections, TrackOf(chosen, e).value, e); }
    if TrackOf(chosen, d).None? && TrackOf(chosen, e).None? { UnmatchedBefore(chosen, d, e); }
  }

  lemma {:induction false} ObservedHasOwner(config: Config, live: seq<Track>, nextId: nat, detections: seq<Detection>,
                         chosen: seq<Candidate>, received: Time, tracks: seq<Track>, k: nat) returns (d: nat)
    requires Shape(config, live, nextId, detections, chosen, received, tracks)
    requires k < |tracks| && tracks[k].snapshot.observed
    ensures d < |detections| && Owner(live, chosen, d) == k
  {
    if k < |live| {
      assert SurvivorShape(config, live[k], detections, DetectionOf(chosen, k), received, tracks[k]);
      d := DetectionOf(chosen, k).value;
      PairsInverse(chosen, |live|, |detections|, k, d);
    } else {
      d := UnmatchedAt(chosen, |detections|, k - |live|);
    }
  }

  /** The detections and the observed tracks correspond one to one, with equal class, box and confidence. */
  ghost predicate Corresponds(owner: seq<nat>, detections: seq<Detection>, tracks: seq<Track>, received: Time) {
    && |owner| == |detections|
    && (forall d | 0 <= d < |owner| :: owner[d] < |tracks| && Shows(tracks[owner[d]].snapshot, detections[d], received))
    && (forall d, e | 0 <= d < e < |owner| :: owner[d] != owner[e])
    && (forall k | 0 <= k < |tracks| && tracks[k].snapshot.observed :: k in owner)
  }

  lemma {:induction false} ShapeCorresponds(config: Config, live: seq<Track>, nextId: nat, detections: seq<Detection>,
                         chosen: seq<Candidate>, received: Time, tracks: seq<Track>) returns (owner: seq<nat>)
    requires Shape(config, live, nextId, detections, chosen, received, tracks)
    ensures Corresponds(owner, detections, tracks, received)
  {
    owner := seq(|detections|, d requires 0 <= d < |detections| => Owner(live, chosen, d));
    forall d | 0 <= d < |owner| ensures owner[d] < |tracks| && Shows(tracks[owner[d]].snapshot, detections[d], received) {
      OwnerShows(config, live, nextId, detections, chosen, received, tracks, d);
    }
    forall d, e | 0 <= d < e < |owner| ensures owner[d] != owner[e] {
      OwnersDiffer(live, chosen, |detections|, d, e);
    }
    forall k | 0 <= k < |tracks| && tracks[k].snapshot.observed ensures k in owner {
      var d := ObservedHasOwner(config, live, nextId, detections, chosen, received, tracks, k);
      assert owner[d] == k;
    }
  }

  ghost predicate Accepted(config: Config, s: TrackerState, detections: seq<Detection>, received: Time) {
    Sound(config, s) && Update(config, s, detections, received).1.None?
  }

  /** What one successful update does, without the order of its steps. */
  lemma {:induction false} UpdateShape(config: Config, s: TrackerState, detections: seq<Detection>, received: Time)
    returns (live: seq<Track>, chosen: seq<Candidate>)
    requires Accepted(config, s, detections, received)
    ensures AllValid(detections) && (s.started ==> s.lastUpdate < received)
    ensures live == config.Live(s.tracks, received) && Measurable(live, detections)
    ensures chosen == Chosen(config, live, detections, received)
    ensures var s' := Update(config, s, detections, received).0;
            && Shape(config, live, s.nextId, detections, chosen, received, s'.tracks)
            && s'.nextId == s.nextId + Unmatched(chosen, |detections|) <= MAXIMUM_ID && |s'.tracks| <= MAXIMUM_TARGETS
            && s'.lastUpdate == received && s'.started
  {
    live := config.Live(s.tracks, received);
    LiveReady(config, s, detections, received);
    chosen := Chosen(config, live, detections, received);
    SpawnShape(config, live, s.nextId, detections, chosen, received);
    SpawnRoom(config, Settled(config, live, detections, chosen, received, |live|), s.nextId, detections, chosen,
              received, |detections|);
  }

  /** After every successful update the detections and the observed tracks correspond one to one. */
  lemma {:induction false} DetectionsAreObservedTracks(config: Config, s: TrackerState, detections: seq<Detection>,
                                                       received: Time)
    returns (owner: seq<nat>)
    requires Accepted(config, s, detections, received)
    ensures Corresponds(owner, detections, Update(config, s, detections, received).0.tracks, received)
  {
    var live, chosen := UpdateShape(config, s, detections, received);
    owner := ShapeCorresponds(config, live, s.nextId, detections, chosen, received,
                              Update(config, s, detections, received).0.tracks);
  }

  /** An update that is not refused beforehand fails exactly when the unmatched detections do not
      fit beside the surviving tracks, or the ids run out. */
  lemma {:induction false} CapacityExact(config: Config, s: TrackerState, detections: seq<Detection>, received: Time)
    requires Sound(config, s) && Refused(s, detections, received).None?
    ensures var live := config.Live(s.tracks, received);
            && Measurable(live, detections)
            && var n := Unmatched(Chosen(config, live, detections, received), |detections|);
               Update(config, s, detections, received).1 ==
               if |live| + n <= MAXIMUM_TARGETS && s.nextId + n <= MAXIMUM_ID then None else Some(CapacityExhausted)
  {
    var live := config.Live(s.tracks, received);
    LiveReady(config, s, detections, received);
    var chosen := Chosen(config, live, detections, received);
    SpawnRoom(config, Settled(config, live, detections, chosen, received, |live|), s.nextId, detections, chosen,
              received, |detections|);
  }

  /** The detections among the first n that some chosen pair has. */
  function MatchedBelow(chosen: seq<Candidate>, n: nat): set<nat> { set d: nat | d < n && TrackOf(chosen, d).Some? }

  lemma {:induction false} UnmatchedCount(chosen: seq<Candidate>, n: nat)
    ensures |MatchedBelow(chosen, n)| + Unmatched(chosen, n) == n
  {
    if n > 0 {
      UnmatchedCount(chosen, n - 1);
      assert MatchedBelow(chosen, n) ==
             MatchedBelow(chosen, n - 1) + if TrackOf(chosen, n - 1).Some? then {n - 1} else {};
    } else {
      assert MatchedBelow(chosen, 0) == {};
    }
  }

  /** Every chosen pair matches one track and one detection. */
  lemma {:induction false} UnmatchedByTracks(chosen: seq<Candidate>, tracks: nat, detections: nat)
    requires Pairs(chosen, tracks, detections)
    ensures Unmatched(chosen, detections) == detections - |Tracks(Elements(chosen))|
  {
    var m := Elements(chosen);
    forall a, b | a in m && b in m && a != b ensures !Clash(a, b) {
      var i :| 0 <= i < |chosen| && chosen[i] == a;
      var j :| 0 <= j < |chosen| && chosen[j] == b;
      assert i < j ==> !Clash(chosen[i], chosen[j]);
      assert j < i ==> !Clash(chosen[j], chosen[i]);
    }
    JustAsMany(m);
    UnmatchedCount(chosen, detections);
    forall d ensures d in MatchedBelow(chosen, detections) <==> d in Detections(m) {
      if d in MatchedBelow(chosen, detections) {
        var i := PairOfDetection(chosen, d);
        assert chosen[i] in m;
      }
      if d in Detections(m) {
        var c :| c in m && c.detection == d;
        var i :| 0 <= i < |chosen| && chosen[i] == c;
        PartnersFound(chosen, i);
      }
    }
    assert MatchedBelow(chosen, detections) == Detections(m);
  }

  /** Neither the refusals nor the room depend on the order of the detections. */
  lemma {:induction false} ShuffledAccepted(config: Config, s: TrackerState, detections: seq<Detection>,
                                            shuffled: seq<Detection>, received: Time, p: seq<nat>, q: seq<nat>)
    requires Accepted(config, s, detections, received) && Shuffled(detections, shuffled, p, q)
    requires var live := config.Live(s.tracks, received);
             Measurable(live, detections) && DistinctScores(Gated(config, live, detections, received))
    ensures Accepted(config, s, shuffled, received)
  {
    ShuffledNotRefused(s, detections, shuffled, received, p, q);
    var live := config.Live(s.tracks, received);
    CapacityExact(config, s, detections, received);
    CapacityExact(config, s, shuffled, received);
    LiveReady(config, s, detections, received);
    LiveReady(config, s, shuffled, received);
    ChoiceMoves(config, live, detections, shuffled, received, p, q);
    var chosen, chosen' := Chosen(config, live, detections, received), Chosen(config, live, shuffled, received);
    MovedTracks(Elements(chosen), p);
    UnmatchedByTracks(chosen, |live|, |detections|);
    UnmatchedByTracks(chosen', |live|, |shuffled|);
  }

  lemma {:induction false} MovedTracks(m: set<Candidate>, p: seq<nat>)
    requires forall c | c in m :: c.detection < |p|
    ensures Tracks(Moved(m, p)) == Tracks(m)
  {
    forall c | c in m ensures c.track in Tracks(Moved(m, p)) {
      assert c.(detection := p[c.detection]) in Moved(m, p);
    }
  }

  lemma {:induction false} ShuffledNotRefused(s: TrackerState, detections: seq<Detection>, shuffled: seq<Detection>,
                                              received: Time, p: seq<nat>, q: seq<nat>)
    requires Shuffled(detections, shuffled, p, q) && Refused(s, detections, received).None?
    ensures Refused(s, shuffled, received).None?
  {
    forall d | d in shuffled ensures ValidDetection(d) {
      var e :| 0 <= e < |shuffled| && shuffled[e] == d;
      assert p[q[e]] == e && shuffled[p[q[e]]] == detections[q[e]];
      assert detections[q[e]] in detections;
    }
  }

  /** Two updates with the same detections in a different order leave the same surviving tracks, when
      no two candidates score the same; if one is accepted, so is the other. */
  lemma {:induction false} ShuffledFramesAgree(config: Config, s: TrackerState, detections: seq<Detection>,
                                               shuffled: seq<Detection>, received: Time, p: seq<nat>, q: seq<nat>)
    requires Accepted(config, s, detections, received) && Shuffled(detections, shuffled, p, q)
    requires var live := config.Live(s.tracks, received);
             Measurable(live, detections) && DistinctScores(Gated(config, live, detections, received))
    ensures Accepted(config, s, shuffled, received)
    ensures var a, b := Update(config, s, detections, received).0.tracks, Update(config, s, shuffled, received).0.tracks;
            var n := |config.Live(s.tracks, received)|;
            n <= |a| && n <= |b| && a[..n] == b[..n]
  {
    ShuffledAccepted(config, s, detections, shuffled, received, p, q);
    var live, chosen := UpdateShape(config, s, detections, received);
    var live', chosen' := UpdateShape(config, s, shuffled, received);
    OrderOfDetectionsIrrelevant(config, live, detections, shuffled, received, p, q);
    SurvivorsSettled(config, live, s.nextId, detections, chosen, received, Update(config, s, detections, received).0.tracks);
    SurvivorsSettled(config, live, s.nextId, shuffled, chosen', received, Update(config, s, shuffled, received).0.tracks);
  }

  lemma {:induction false} SurvivorsSettled(config: Config, live: seq<Track>, nextId: nat, detections: seq<Detection>,
                                            chosen: seq<Candidate>, received: Time, tracks: seq<Track>)
    requires Shape(config, live, nextId, detections, chosen, received, tracks)
    ensures |live| <= |tracks| && tracks[..|live|] == Settled(config, live, detections, chosen, received, |live|)
  {
    forall t | 0 <= t < |live| ensures tracks[t] == SettledOne(config, live[t], detections, DetectionOf(chosen, t), received) {
      assert SurvivorShape(config, live[t], detections, DetectionOf(chosen, t), received, tracks[t]);
    }
  }

  // ----- identity -----

  /** The same animal or person, before and after an update: same id, same class, and either seen
      again and counted, after more than nothing and less than lostAfter, or not seen and unchanged. */
  predicate SameTarget(config: Config, a: Track, b: Track, received: Time) {
    && a.snapshot.trackId == b.snapshot.trackId && a.snapshot.classId == b.snapshot.classId
    && 0 < received - a.snapshot.lastSeen < config.lostAfter
    && (if b.snapshot.observed then b.snapshot.lastSeen == received && b.hits == a.hits + 1
        else && b.hits == a.hits && b.velocityX == a.velocityX && b.velocityY == a.velocityY
             && b.snapshot.lastSeen == a.snapshot.lastSeen && b.snapshot.box == a.snapshot.box
             && b.snapshot.confidence == a.snapshot.confidence)
  }

  lemma {:induction false} SurvivorSame(config: Config, s: TrackerState, s': TrackerState, detections: seq<Detection>,
                                        received: Time,
                     a: Track, d: Option<nat>, b: Track)
    requires TrackSound(config, s, a) && !config.Expired(a, received) && s.lastUpdate < received && config.Valid()
    requires AllValid(detections) && SurvivorShape(config, a, detections, d, received, b)
    requires s'.started && s'.lastUpdate == received && s.nextId <= s'.nextId
    ensures TrackSound(config, s', b) && SameTarget(config, a, b, received)
  {
    if d.Some? { assert detections[d.value] in detections; }
  }

  lemma {:induction false} NewbornSound(config: Config, s': TrackerState, id: nat, detection: Detection, received: Time)
    requires config.Valid() && ValidDetection(detection) && 1 <= id < s'.nextId
    requires s'.started && s'.lastUpdate == received
    ensures TrackSound(config, s', config.Born(id, detection, received))
    ensures Fresh(config.Born(id, detection, received))
  {
  }

  /** A new track has been seen once and is not known to move. */
  predicate Fresh(t: Track) { t.snapshot.observed && t.hits == 1 && t.velocityX == t.velocityY == 0.0 }

  /** Every track after a successful update continues one track from before or has a fresh id. */
  ghost predicate Origin(config: Config, s: TrackerState, s': TrackerState, received: Time, live: seq<Track>, k: nat)
    requires k < |s'.tracks|
  {
    && TrackSound(config, s', s'.tracks[k])
    && (if k < |live| then live[k] in s.tracks && SameTarget(config, live[k], s'.tracks[k], received)
        else s'.tracks[k].snapshot.trackId == s.nextId + (k - |live|) && Fresh(s'.tracks[k]))
  }

  lemma {:induction false} ShapeOrigin(config: Config, s: TrackerState, s': TrackerState, detections: seq<Detection>,
                                       received: Time,
                    chosen: seq<Candidate>, k: nat)
    requires config.Valid() && 1 <= s.nextId && AllValid(detections)
    requires forall t | t in s.tracks :: TrackSound(config, s, t) && s.lastUpdate < received
    requires var live := config.Live(s.tracks, received);
             Shape(config, live, s.nextId, detections, chosen, received, s'.tracks)
    requires s'.started && s'.lastUpdate == received && s'.nextId == s.nextId + Unmatched(chosen, |detections|)
    requires k < |s'.tracks|
    ensures Origin(config, s, s', received, config.Live(s.tracks, received), k)
  {
    var live := config.Live(s.tracks, received);
    LiveSubset(config, s.tracks, received);
    if k < |live| {
      assert live[k] in s.tracks;
      SurvivorSame(config, s, s', detections, received, live[k], DetectionOf(chosen, k), s'.tracks[k]);
    } else {
      var d := NewbornAt(config, live, s.nextId, detections, chosen, received, s'.tracks, k);
      assert detections[d] in detections;
      NewbornSound(config, s', s.nextId + (k - |live|), detections[d], received);
    }
  }

  lemma {:induction false} NewbornAt(config: Config, live: seq<Track>, nextId: nat, detections: seq<Detection>,
                                     chosen: seq<Candidate>,
                  received: Time, tracks: seq<Track>, k: nat) returns (d: nat)
    requires Shape(config, live, nextId, detections, chosen, received, tracks) && |live| <= k < |tracks|
    ensures d < |detections| && tracks[k] == config.Born(nextId + (k - |live|), detections[d], received)
    ensures k - |live| < Unmatched(chosen, |detections|)
  {
    d := UnmatchedAt(chosen, |detections|, k - |live|);
    var detection := detections[d];
  }

  lemma {:induction false} TrackOrigin(config: Config, s: TrackerState, detections: seq<Detection>, received: Time,
                                       k: nat)
    requires Accepted(config, s, detections, received) && k < |Update(config, s, detections, received).0.tracks|
    ensures Origin(config, s, Update(config, s, detections, received).0, received, config.Live(s.tracks, received), k)
  {
    var live, chosen := UpdateShape(config, s, detections, received);
    ShapeOrigin(config, s, Update(config, s, detections, received).0, detections, received, chosen, k);
  }

  /** Every successful update keeps the tracker sound. */
  lemma {:induction false} UpdateKeepsSound(config: Config, s: TrackerState, detections: seq<Detection>, received: Time)
    requires Accepted(config, s, detections, received)
    ensures Sound(config, Update(config, s, detections, received).0)
  {
    var s' := Update(config, s, detections, received).0;
    var live, chosen := UpdateShape(config, s, detections, received);
    LiveSubset(config, s.tracks, received);
    forall t | t in s'.tracks ensures TrackSound(config, s', t) {
      var k :| 0 <= k < |s'.tracks| && s'.tracks[k] == t;
      TrackOrigin(config, s, detections, received, k);
    }
    forall i, j | 0 <= i < j < |s'.tracks|
      ensures s'.tracks[i].snapshot.trackId < s'.tracks[j].snapshot.trackId
    {
      TrackOrigin(config, s, detections, received, i);
      TrackOrigin(config, s, detections, received, j);
    }
  }

  /** The only refusals are those known before anything changes, and running out of room. */
  lemma {:induction false} UpdateRefusals(config: Config, s: TrackerState, detections: seq<Detection>, received: Time)
    requires Sound(config, s)
    ensures var why := Update(config, s, detections, received).1;
            why.None? || why == Refused(s, detections, received) || why == Some(CapacityExhausted)
  {
    if Refused(s, detections, received).None? { CapacityExact(config, s, detections, received); }
  }

  /** Exactly when and why an update is refused: more than 256 detections, an unusable one, a time not
      after the last update, or more targets than 256 or ids than 64 bits have room for. */
  lemma {:induction false} RefusalsExact(config: Config, s: TrackerState, detections: seq<Detection>, received: Time)
    requires Sound(config, s)
    ensures var why := Update(config, s, detections, received).1;
            && (why == Some(TooManyDetections) <==> |detections| > 256)
            && (why == Some(InvalidDetection) <==> |detections| <= 256 && exists d :: d in detections && Unusable(d))
            && (why == Some(NotLater) <==>
                  |detections| <= 256 && (forall d | d in detections :: !Unusable(d)) && s.started && received <= s.lastUpdate)
            && (why == Some(CapacityExhausted) ==>
                  |detections| <= 256 && (forall d | d in detections :: !Unusable(d)) && (!s.started || s.lastUpdate < received))
  {
    forall d | d in detections ensures ValidDetection(d) <==> !Unusable(d) { ValidOrUnusable(d); }
    UpdateRefusals(config, s, detections, received);
  }

  /** There is room exactly while 256 targets and the ids below the largest 64-bit number suffice. */
  lemma {:induction false} RoomExact(config: Config, s: TrackerState, detections: seq<Detection>, received: Time)
    requires Sound(config, s) && Refused(s, detections, received).None?
    ensures var live := config.Live(s.tracks, received);
            && Measurable(live, detections)
            && var newborn := |detections| - |Tracks(Elements(Chosen(config, live, detections, received)))|;
               Update(config, s, detections, received).1.None? <==>
               |live| + newborn <= 256 && s.nextId + newborn <= 18_446_744_073_709_551_615
  {
    var live := config.Live(s.tracks, received);
    CapacityExact(config, s, detections, received);
    LiveReady(config, s, detections, received);
    UnmatchedByTracks(Chosen(config, live, detections, received), |live|, |detections|);
  }

  /** A rejected pair loses its track or its detection to a chosen pair of a higher score, or of the same
      score and an earlier place. */
  lemma {:induction false} RejectedLoses(config: Config, live: seq<Track>, detections: seq<Detection>, received: Time,
                                         c: Candidate)
    requires Measurable(live, detections) && c in Gated(config, live, detections, received)
    requires c !in Elements(Chosen(config, live, detections, received))
    ensures exists k :: k in Chosen(config, live, detections, received) &&
                        (k.track == c.track || k.detection == c.detection) &&
                        (k.score > c.score || (k.score == c.score &&
                          (k.track < c.track || (k.track == c.track && k.detection < c.detection))))
  {
    var m := Elements(Chosen(config, live, detections, received));
    ChosenIsTheStableOne(config, live, detections, received, m);
    var k :| k in m && Clash(k, c) && Before(k, c);
    assert k in Chosen(config, live, detections, received);
  }

  /** A track is still carried after an update exactly if it was seen less than lostAfter ago. */
  lemma {:induction false} SurvivalExact(config: Config, s: TrackerState, detections: seq<Detection>, received: Time,
                                         a: Track)
    requires Accepted(config, s, detections, received) && a in s.tracks
    ensures (exists b :: b in Update(config, s, detections, received).0.tracks &&
                         b.snapshot.trackId == a.snapshot.trackId) <==>
            received - a.snapshot.lastSeen < config.lostAfter
  {
    var live, chosen := UpdateShape(config, s, detections, received);
    LiveSubset(config, s.tracks, received);
    assert TrackSound(config, s, a);
    if received - a.snapshot.lastSeen < config.lostAfter {
      var k :| 0 <= k < |live| && live[k] == a;
      TrackOrigin(config, s, detections, received, k);
      assert Update(config, s, detections, received).0.tracks[k] in Update(config, s, detections, received).0.tracks;
    } else {
      forall b | b in Update(config, s, detections, received).0.tracks ensures b.snapshot.trackId != a.snapshot.trackId {
        ExpiredGone(config, s, detections, received, a, b);
      }
    }
  }

  lemma {:induction false} ExpiredGone(config: Config, s: TrackerState, detections: seq<Detection>, received: Time,
                                       a: Track, b: Track)
    requires Accepted(config, s, detections, received) && a in s.tracks && config.Expired(a, received)
    requires b in Update(config, s, detections, received).0.tracks
    ensures b.snapshot.trackId != a.snapshot.trackId
  {
    var tracks, live := Update(config, s, detections, received).0.tracks, config.Live(s.tracks, received);
    var k :| 0 <= k < |tracks| && tracks[k] == b;
    TrackOrigin(config, s, detections, received, k);
    LiveSubset(config, s.tracks, received);
    assert TrackSound(config, s, a);
    OnlyOne(s.tracks, a);
    assert k < |live| ==> live[k] in s.tracks && live[k] != a;
  }

  lemma {:induction false} OnlyOne(tracks: seq<Track>, a: Track)
    requires forall i, j | 0 <= i < j < |tracks| :: tracks[i].snapshot.trackId < tracks[j].snapshot.trackId
    requires a in tracks
    ensures forall b | b in tracks && b.snapshot.trackId == a.snapshot.trackId :: b == a
  {
    forall b | b in tracks && b.snapshot.trackId == a.snapshot.trackId ensures b == a { SameId(tracks, b, a); }
  }

  /** Ids tell tracks apart. */
  lemma {:induction false} SameId(tracks: seq<Track>, a: Track, b: Track)
    requires forall i, j | 0 <= i < j < |tracks| :: tracks[i].snapshot.trackId < tracks[j].snapshot.trackId
    requires a in tracks && b in tracks && a.snapshot.trackId == b.snapshot.trackId
    ensures a == b
  {
    var i :| 0 <= i < |tracks| && tracks[i] == a;
    var j :| 0 <= j < |tracks| && tracks[j] == b;
    assert i == j;
  }
}
