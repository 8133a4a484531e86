/** What the monitor objects to and what its counters count, poll by poll. */
module MonitorLaws {
  import opened Common
  import opened Contexts
  import opened Monitor

  /** A context is objected to exactly if its pet state is none of the five, a measure is out of range, the
      camera is offline but not the pet, or several cats are shown with an activity. */
  lemma {:induction false} ObjectionsExact(c: Context)
    ensures Objections(c).None? <==>
            && (c.petState.Active? || c.petState.Resting? || c.petState.OutOfView? || c.petState.Offline? || c.petState.Unknown?)
            && c.inferenceMs >= 0.0 && c.petConfidence >= 0.0 && c.petConfidence <= 1.0
            && (c.health.HealthOffline? ==> c.petState.Offline?)
            && (c.catCount >= 2 ==> !c.petState.Active? && !c.petState.Resting?)
    ensures Objections(c) == Some(InvalidPetState) <==> c.petState.Visible? || c.petState.Other?
    ensures Objections(c) == Some(OnlinePetOfOfflineCamera) ==> c.health.HealthOffline? && !c.petState.Offline?
    ensures Objections(c) == Some(ActivityOfSeveralCats) ==> c.catCount >= 2 && (c.petState.Active? || c.petState.Resting?)
  {
  }

  // ----- the tallies, counted poll by poll -----

  /** Poll k shows a lower sequence number than the poll before it. */
  predicate FallsBack(polls: seq<Poll>, k: nat)
    requires k < |polls|
  {
    k > 0 && polls[k].context.sequence < polls[k - 1].context.sequence
  }

  /** An online poll that is too old, or dated in the future. */
  predicate IsStale(p: Poll) { p.context.health == Online && (p.freshness < 0.0 || p.freshness > 5.0) }

  ghost function ResetPlaces(polls: seq<Poll>): set<nat> { set k: nat | k < |polls| && FallsBack(polls, k) }

  ghost function StalePlaces(polls: seq<Poll>): set<nat> { set k: nat | k < |polls| && IsStale(polls[k]) }

  ghost function StatePlaces(polls: seq<Poll>, state: State): set<nat> {
    set k: nat | k < |polls| && polls[k].context.petState == state
  }

  /** Poll k is recent and online and shows another numbered inference than the poll before it. */
  predicate Infers(polls: seq<Poll>, k: nat)
    requires k < |polls|
  {
    && polls[k].context.health == Online && 0.0 <= polls[k].freshness <= 5.0 && polls[k].context.sequence != 0
    && (k == 0 || polls[k - 1].context.sequence != polls[k].context.sequence)
  }

  lemma {:induction false} ResetPlacesNext(polls: seq<Poll>)
    requires |polls| > 0
    ensures ResetPlaces(polls) == ResetPlaces(Front(polls)) + if FallsBack(polls, |polls| - 1) then {|polls| - 1} else {}
  {
    var n, front := |polls| - 1, Front(polls);
    forall k: nat | k < n ensures FallsBack(front, k) <==> FallsBack(polls, k) {}
  }

  /** The sequence number is counted as reset once for every poll that falls back. */
  lemma {:induction false} ResetsExact(polls: seq<Poll>)
    ensures Resets(polls) == |ResetPlaces(polls)|
    decreases |polls|
  {
    if |polls| > 0 {
      ResetsExact(Front(polls));
      ResetPlacesNext(polls);
      OneMore(ResetPlaces(Front(polls)), |polls| - 1);
    }
  }

  /** Places below n, and n. */
  lemma {:induction false} OneMore(places: set<nat>, n: nat)
    ensures n !in places ==> |places + {n}| == |places| + 1
    ensures |places + {}| == |places|
  {
    assert places + {} == places;
  }

  lemma {:induction false} StalePlacesNext(polls: seq<Poll>)
    requires |polls| > 0
    ensures StalePlaces(polls) == StalePlaces(Front(polls)) + if IsStale(Last(polls)) then {|polls| - 1} else {}
  {
    var n, front := |polls| - 1, Front(polls);
    forall k: nat | k < n ensures front[k] == polls[k] {}
  }

  /** Stale polls are counted once each. */
  lemma {:induction false} StaleExact(polls: seq<Poll>)
    ensures StaleOnline(polls) == |StalePlaces(polls)|
    decreases |polls|
  {
    if |polls| > 0 {
      StaleExact(Front(polls));
      StalePlacesNext(polls);
      OneMore(StalePlaces(Front(polls)), |polls| - 1);
    }
  }

  lemma {:induction false} StatePlacesNext(polls: seq<Poll>, state: State)
    requires |polls| > 0
    ensures StatePlaces(polls, state) ==
            StatePlaces(Front(polls), state) + if Last(polls).context.petState == state then {|polls| - 1} else {}
  {
    var n, front := |polls| - 1, Front(polls);
    forall k: nat | k < n ensures front[k] == polls[k] {}
  }

  /** Every state is counted once for every poll that shows it. */
  lemma {:induction false} StatesExact(polls: seq<Poll>, state: State)
    ensures StatesOf(polls)[state] == |StatePlaces(polls, state)|
    decreases |polls|
  {
    if |polls| > 0 {
      StatesExact(Front(polls), state);
      StatePlacesNext(polls, state);
      assert StatesOf(polls) == StatesOf(Front(polls)) + multiset{Last(polls).context.petState};
      assert multiset{Last(polls).context.petState}[state] == if Last(polls).context.petState == state then 1 else 0;
    }
  }

  /** Every latency is kept in its place. */
  lemma {:induction false} LatenciesExact(polls: seq<Poll>)
    ensures |LatenciesOf(polls)| == |polls| && forall k | 0 <= k < |polls| :: LatenciesOf(polls)[k] == polls[k].latency
    decreases |polls|
  {
    if |polls| > 0 { LatenciesExact(Front(polls)); }
  }

  /** The places of the polls that show a new inference, in their order, and their inference times. */
  ghost predicate InferencePlaces(polls: seq<Poll>, places: seq<nat>) {
    && (forall k :: k in places <==> 0 <= k < |polls| && Infers(polls, k))
    && (forall i, j | 0 <= i < j < |places| :: places[i] < places[j])
    && |InferencesOf(polls)| == |places|
    && forall i | 0 <= i < |places| :: places[i] < |polls| && InferencesOf(polls)[i] == polls[places[i]].context.inferenceMs
  }

  /** The inference times are those of the polls that show a new inference, in their order. */
  lemma {:induction false} InferencesExact(polls: seq<Poll>) returns (places: seq<nat>)
    ensures InferencePlaces(polls, places)
    decreases |polls|
  {
    places := [];
    if |polls| > 0 {
      var before := InferencesExact(Front(polls));
      places := InferencesNext(polls, before);
    }
  }

  lemma {:induction false} InferencesNext(polls: seq<Poll>, before: seq<nat>) returns (places: seq<nat>)
    requires |polls| > 0 && InferencePlaces(Front(polls), before)
    ensures InferencePlaces(polls, places)
  {
    var n, front := |polls| - 1, Front(polls);
    forall k: nat | k < n ensures Infers(front, k) <==> Infers(polls, k) {}
    forall i | 0 <= i < |before| ensures before[i] < n { assert before[i] in before; }
    assert NewInference(polls) <==> Infers(polls, n);
    places := before + if Infers(polls, n) then [n] else [];
    forall k ensures k in places <==> 0 <= k < |polls| && Infers(polls, k) {
      assert k in places <==> k in before || (k == n && Infers(polls, n));
    }
  }

  /** The rise of the dropped counter adds up along the polls. */
  lemma {:induction false} DroppedAdds(polls: seq<Poll>, k: nat)
    requires k < |polls|
    ensures Dropped(polls) == Dropped(polls[..k + 1]) + Dropped(polls[k..])
    decreases |polls|
  {
    if k < |polls| - 1 {
      assert Front(polls)[..k + 1] == polls[..k + 1] && Front(polls)[k..] == Front(polls[k..]);
      DroppedAdds(Front(polls), k);
    } else {
      assert polls[..k + 1] == polls;
    }
  }

  /** Between two polls it is the difference when the counter rises, and nothing when it does not. */
  lemma {:induction false} DroppedExact(a: Poll, b: Poll)
    ensures a.context.dropped <= b.context.dropped ==> Dropped([a, b]) == b.context.dropped - a.context.dropped
    ensures a.context.dropped >= b.context.dropped ==> Dropped([a, b]) == 0
    ensures Dropped([a]) == 0
  {
    assert Front([a, b]) == [a];
  }
}
