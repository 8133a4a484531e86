/** The acceptance monitor over published contexts. */
module Monitor {
  import opened Common
  import opened Contexts

  /** A polled context, its age in seconds and how long the poll took. */
  datatype Poll = Poll(context: Context, freshness: real, latency: real)
  {
    predicate Recent() { 0.0 <= freshness <= 5.0 }
    predicate OnlineNow() { context.health == Online && Recent() }
    predicate OfflineNow() { context.health == HealthOffline }
  }

  datatype Objection = InvalidPetState | InvalidMeasure | OnlinePetOfOfflineCamera | ActivityOfSeveralCats

  /** What is required of every published context. */
  function Objections(c: Context): Option<Objection> {
    if c.petState !in STATES then Some(InvalidPetState)
    else if c.inferenceMs < 0.0 || !(0.0 <= c.petConfidence <= 1.0) then Some(InvalidMeasure)
    else if c.health == HealthOffline && c.petState != Offline then Some(OnlinePetOfOfflineCamera)
    else if c.catCount > 1 && (c.petState == Active || c.petState == Resting) then Some(ActivityOfSeveralCats)
    else None
  }

  /** A recent online poll, later an offline one, later a recent online one again. */
  ghost predicate Recovered(polls: seq<Poll>) {
    exists i, j, k ::
      && 0 <= i < j < k < |polls|
      && polls[i].context.health == Online && 0.0 <= polls[i].freshness <= 5.0
      && polls[j].context.health == HealthOffline
      && polls[k].context.health == Online && 0.0 <= polls[k].freshness <= 5.0
  }

  /** How far a recovery has come: 1 once online, 2 once offline after that. */
  function Stage(polls: seq<Poll>): nat {
    if |polls| == 0 then 0
    else
      var stage := Stage(Front(polls));
      if Last(polls).OnlineNow() && stage == 0 then 1
      else if Last(polls).OfflineNow() && stage == 1 then 2
      else stage
  }

  predicate Completed(polls: seq<Poll>) {
    |polls| > 0 && (Completed(Front(polls)) || (Stage(Front(polls)) == 2 && Last(polls).OnlineNow()))
  }

  /** How often the sequence number went back. */
  function Resets(polls: seq<Poll>): nat {
    if |polls| <= 1 then 0
    else Resets(Front(polls)) +
         if Last(polls).context.sequence < Last(Front(polls)).context.sequence then 1 else 0
  }

  /** How far the counter of dropped frames rose, falls apart. */
  function Dropped(polls: seq<Poll>): nat {
    if |polls| <= 1 then 0
    else Dropped(Front(polls)) + Max(0, Last(polls).context.dropped - Last(Front(polls)).context.dropped)
  }

  /** How often each pet state was polled. */
  function StatesOf(polls: seq<Poll>): multiset<State> {
    if |polls| == 0 then multiset{} else StatesOf(Front(polls)) + multiset{Last(polls).context.petState}
  }

  function ModesOf(polls: seq<Poll>): set<Mode> { set p | p in polls :: p.context.mode }

  function LatenciesOf(polls: seq<Poll>): seq<real> {
    if |polls| == 0 then [] else LatenciesOf(Front(polls)) + [Last(polls).latency]
  }

  /** Online polls that are too old, or dated in the future. */
  function StaleOnline(polls: seq<Poll>): nat {
    if |polls| == 0 then 0
    else StaleOnline(Front(polls)) + if Last(polls).context.health == Online && !Last(polls).Recent() then 1 else 0
  }

  /** Whether the last poll shows another inference than the one before it. */
  predicate NewInference(polls: seq<Poll>)
    requires |polls| > 0
  {
    && Last(polls).context.sequence > 0 && Last(polls).OnlineNow()
    && (|polls| > 1 ==> Last(polls).context.sequence != Last(Front(polls)).context.sequence)
  }

  /** The inference times, one for each new inference. */
  function InferencesOf(polls: seq<Poll>): seq<real> {
    if |polls| == 0 then []
    else InferencesOf(Front(polls)) + if NewInference(polls) then [Last(polls).context.inferenceMs] else []
  }

  /** Polling the same snapshot again and again measures one inference at most. */
  lemma {:induction false} RepeatedPollsMeasureOnce(polls: seq<Poll>, i: nat)
    requires i < |polls| && forall j | i <= j < |polls| :: polls[j].context.sequence == polls[i].context.sequence
    ensures |InferencesOf(polls)| <= |InferencesOf(polls[..i])| + 1
    ensures i > 0 && polls[i - 1].context.sequence == polls[i].context.sequence ==>
              InferencesOf(polls) == InferencesOf(polls[..i])
    decreases |polls|
  {
    if i < |polls| - 1 {
      assert Front(polls)[..i] == polls[..i];
      RepeatedPollsMeasureOnce(Front(polls), i);
    } else {
      assert Front(polls) == polls[..i];
    }
  }

  class Monitor {
    var states: multiset<State>
    var modes: set<Mode>
    var latencies: seq<real>
    var inferences: seq<real>
    var staleOnline: nat
    var samples: nat
    var lastSequence: Option<nat>
    var lastDropped: Option<nat>
    var droppedIncrease: nat
    var sequenceResets: nat
    var recoveryStage: nat
    var recovered: bool
    /** Every poll that was not objected to. */
    ghost var polls: seq<Poll>

    ghost predicate Valid()
      reads this
    {
      Measured(polls) && Compared(polls) && Staged(polls)
    }

    ghost predicate Measured(polls: seq<Poll>)
      reads this
    {
      && samples == |polls| && states == StatesOf(polls) && modes == ModesOf(polls)
      && latencies == LatenciesOf(polls) && inferences == InferencesOf(polls)
    }

    ghost predicate Compared(polls: seq<Poll>)
      reads this
    {
      && lastSequence == (if |polls| == 0 then None else Some(Last(polls).context.sequence))
      && lastDropped == (if |polls| == 0 then None else Some(Last(polls).context.dropped))
      && droppedIncrease == Dropped(polls) && sequenceResets == Resets(polls)
    }

    ghost predicate Staged(polls: seq<Poll>)
      reads this
    {
      staleOnline == StaleOnline(polls) && recoveryStage == Stage(polls) && (recovered <==> Completed(polls))
    }

    constructor ()
      ensures Valid() && polls == []
    {
      states, modes, latencies, inferences, staleOnline := multiset{}, {}, [], [], 0;
      samples, lastSequence, lastDropped := 0, None, None;
      droppedIncrease, sequenceResets, recoveryStage, recovered := 0, 0, 0, false;
      polls := [];
    }

    /** One poll, unless it is objected to. */
    method Observe(poll: Poll) returns (objection: Option<Objection>)
      requires Valid()
      modifies this
      ensures Valid() && objection == Objections(poll.context)
      ensures polls == if objection.None? then old(polls) + [poll] else old(polls)
    {
      objection := Objections(poll.context);
      if objection.Some? {
        return;
      }
      Measure(poll);
      Compare(poll);
      Advance(poll);
      polls := polls + [poll];
    }

    /** Counters and measurements; a snapshot polled again is not a new inference. */
    method Measure(poll: Poll)
      requires Measured(polls) && Compared(polls)
      modifies `samples, `modes, `states, `latencies, `inferences
      ensures Measured(polls + [poll])
    {
      assert Front(polls + [poll]) == polls;
      ModesNext(polls, poll);
      samples := samples + 1;
      modes := modes + {poll.context.mode};
      states := states + multiset{poll.context.petState};
      latencies := latencies + [poll.latency];
      if poll.context.sequence > 0 && lastSequence != Some(poll.context.sequence) && poll.OnlineNow() {
        inferences := inferences + [poll.context.inferenceMs];
      }
    }

    /** The counters of the camera, compared with the poll before. */
    method Compare(poll: Poll)
      requires Compared(polls)
      modifies `lastSequence, `lastDropped, `droppedIncrease, `sequenceResets
      ensures Compared(polls + [poll])
    {
      assert Front(polls + [poll]) == polls;
      if lastSequence.Some? && poll.context.sequence < lastSequence.value {
        sequenceResets := sequenceResets + 1;
      }
      if lastDropped.Some? {
        droppedIncrease := droppedIncrease + Max(0, poll.context.dropped - lastDropped.value);
      }
      lastSequence, lastDropped := Some(poll.context.sequence), Some(poll.context.dropped);
    }

    /** The stages of a recovery. */
    method Advance(poll: Poll)
      requires Staged(polls)
      modifies `staleOnline, `recoveryStage, `recovered
      ensures Staged(polls + [poll])
    {
      assert Front(polls + [poll]) == polls;
      if poll.context.health == Online {
        if !poll.Recent() {
          staleOnline := staleOnline + 1;
        } else if recoveryStage == 2 {
          recovered := true;
        } else if recoveryStage == 0 {
          recoveryStage := 1;
        }
      } else if poll.context.health == HealthOffline && recoveryStage == 1 {
        recoveryStage := 2;
      }
    }

    /** Recovery is reported exactly when the polls went from recent and online through offline to
        recent and online again. */
    method RecoveryObserved() returns (observed: bool)
      requires Valid()
      ensures observed <==> Recovered(polls)
    {
      RecoveryExact(polls);
      observed := recovered;
    }
  }

  lemma {:induction false} ModesNext(polls: seq<Poll>, poll: Poll)
    ensures ModesOf(polls + [poll]) == ModesOf(polls) + {poll.context.mode}
  {
    forall m | m in ModesOf(polls) ensures m in ModesOf(polls + [poll]) {
      var p :| p in polls && p.context.mode == m;
      assert p in polls + [poll];
    }
    assert poll in polls + [poll];
  }

  lemma {:induction false} StageWitness(polls: seq<Poll>) returns (i: nat, j: nat)
    requires Stage(polls) > 0
    ensures i < |polls| && polls[i].OnlineNow() && Stage(polls) <= 2
    ensures Stage(polls) == 2 ==> i < j < |polls| && polls[j].OfflineNow()
  {
    var n := |polls| - 1;
    if Stage(Front(polls)) == 0 {
      i, j := n, n;
    } else {
      i, j := StageWitness(Front(polls));
      if Stage(Front(polls)) != Stage(polls) { j := n; }
    }
  }

  lemma {:induction false} StageReached(polls: seq<Poll>, i: nat, j: nat)
    requires i <= j < |polls| && polls[i].OnlineNow() && (i < j ==> polls[j].OfflineNow())
    ensures Stage(polls) > 0 && (i < j ==> Stage(polls) == 2)
  {
    if j < |polls| - 1 {
      StageReached(Front(polls), i, j);
      if Stage(polls) == 2 { var h, k := StageWitness(polls); }
    } else if i < j {
      StageReached(Front(polls), i, i);
      var h, k := StageWitness(Front(polls));
    }
  }

  lemma {:induction false} CompletedBy(polls: seq<Poll>, i: nat, j: nat, k: nat)
    requires i < j < k < |polls| && polls[i].OnlineNow() && polls[j].OfflineNow() && polls[k].OnlineNow()
    ensures Completed(polls)
  {
    if k < |polls| - 1 { CompletedBy(Front(polls), i, j, k); } else { StageReached(Front(polls), i, j); }
  }

  lemma {:induction false} CompletedWitness(polls: seq<Poll>) returns (i: nat, j: nat, k: nat)
    requires Completed(polls)
    ensures i < j < k < |polls| && polls[i].OnlineNow() && polls[j].OfflineNow() && polls[k].OnlineNow()
  {
    if Completed(Front(polls)) {
      i, j, k := CompletedWitness(Front(polls));
    } else {
      i, j := StageWitness(Front(polls));
      k := |polls| - 1;
    }
  }

  /** The staged check finds a recovery exactly when there is one. */
  lemma {:induction false} RecoveryExact(polls: seq<Poll>)
    ensures Completed(polls) <==> Recovered(polls)
  {
    if Completed(polls) { var i, j, k := CompletedWitness(polls); }
    if Recovered(polls) {
      var i, j, k :| && 0 <= i < j < k < |polls|
                     && polls[i].context.health == Online && 0.0 <= polls[i].freshness <= 5.0
                     && polls[j].context.health == HealthOffline
                     && polls[k].context.health == Online && 0.0 <= polls[k].freshness <= 5.0;
      CompletedBy(polls, i, j, k);
    }
  }
}
