/** Debounced presence: visible after one second, out of view after five, offline at once. */
module Presence {
  import opened Common

  /** What one update reports, and when. */
  datatype Look = Look(seen: bool, online: bool, now: Time)
  {
    function Desired(): State { if !online then Offline else if seen then Visible else OutOfView }
  }

  function Delay(desired: State): Time {
    if desired == Offline then 0 else if desired == Visible then SECOND else 5 * SECOND
  }

  datatype Debounce = Debounce(state: State, pending: Option<State>, since: Time)

  const UNSEEN := Debounce(Unknown, None, 0)

  function Step(p: Debounce, look: Look): Debounce {
    var desired := look.Desired();
    if desired == p.state then p.(pending := None)
    else
      var since := if p.pending == Some(desired) then p.since else look.now;
      if look.now - since < Delay(desired) then Debounce(p.state, Some(desired), since)
      else Debounce(desired, None, since)
  }

  function After(log: seq<Look>): Debounce {
    if |log| == 0 then UNSEEN else Step(After(Front(log)), Last(log))
  }

  /** Where the unbroken stretch of looks that agree with the last one begins. */
  function StretchStart(log: seq<Look>): (start: nat)
    requires |log| > 0
    ensures start < |log|
  {
    if |log| > 1 && Last(Front(log)).Desired() == Last(log).Desired() then StretchStart(Front(log)) else |log| - 1
  }

  /** The looks a and b report the same. */
  predicate Agree(a: Look, b: Look) { a.online == b.online && (a.online ==> a.seen == b.seen) }

  /** The stretch is made of looks that report what the last one does, and the look before it does not. */
  lemma {:induction false} StretchAgrees(log: seq<Look>)
    requires |log| > 0
    ensures forall k | StretchStart(log) <= k < |log| :: Agree(log[k], Last(log))
    ensures StretchStart(log) > 0 ==> !Agree(log[StretchStart(log) - 1], Last(log))
    decreases |log|
  {
    if |log| > 1 && Last(Front(log)).Desired() == Last(log).Desired() { StretchAgrees(Front(log)); }
  }

  /** Nothing pending means the state agrees with the last look; otherwise the last look is pending
      since its stretch began. */
  lemma {:induction false} PendingMeans(log: seq<Look>)
    requires |log| > 0
    ensures var p := After(log);
            if p.pending.None? then p.state == Last(log).Desired()
            else p.pending == Some(Last(log).Desired()) && p.state != Last(log).Desired() &&
                 p.since == log[StretchStart(log)].now
  {
    if |log| > 1 { PendingMeans(Front(log)); }
  }

  /** The state changes with a look exactly when it closes an unbroken stretch of looks that all report
      another state than the one shown: offline at once, the target visible for one second, or out of
      view for five. It changes to what they report. */
  lemma {:induction false} TransitionExact(log: seq<Look>)
    requires |log| > 0
    ensures var before, after, look := After(Front(log)).state, After(log).state, Last(log);
            var reported := if !look.online then Offline else if look.seen then Visible else OutOfView;
            var wait := if !look.online then 0 else if look.seen then 1_000_000_000 else 5_000_000_000;
            && (after != before <==> reported != before && look.now - log[StretchStart(log)].now >= wait)
            && (after != before ==> after == reported)
  {
    if |log| > 1 {
      PendingMeans(Front(log));
      assert Front(log)[StretchStart(Front(log))] == log[StretchStart(Front(log))];
    }
  }

  /** The looks from start to n report the state, for as long as it takes to be shown. */
  ghost predicate Stretch(log: seq<Look>, start: nat, n: nat, state: State) {
    && start <= n < |log|
    && match state
       case Offline => !log[n].online
       case Visible =>
         (forall k | start <= k <= n :: log[k].online && log[k].seen) && log[n].now - log[start].now >= 1_000_000_000
       case OutOfView =>
         (forall k | start <= k <= n :: log[k].online && !log[k].seen) && log[n].now - log[start].now >= 5_000_000_000
       case _ => false
  }

  /** A state other than the first one was entered by a look that closed an unbroken stretch as long as
      its delay, and has stood since. */
  lemma {:induction false} StateHasStretch(log: seq<Look>) returns (start: nat, n: nat)
    requires After(log).state != Unknown
    ensures Stretch(log, start, n, After(log).state)
    ensures forall m | n < m <= |log| :: After(log[..m]).state == After(log).state
    decreases |log|
  {
    TransitionExact(log);
    assert log[..|log|] == log;
    if After(Front(log)).state == After(log).state {
      start, n := StateHasStretch(Front(log));
      StretchStays(log, start, n, After(log).state);
      forall m | n < m <= |log| ensures After(log[..m]).state == After(log).state {
        if m < |log| { assert Front(log)[..m] == log[..m]; }
      }
    } else {
      StretchAgrees(log);
      start, n := StretchStart(log), |log| - 1;
    }
  }

  lemma {:induction false} StretchStays(log: seq<Look>, start: nat, n: nat, state: State)
    requires |log| > 0 && Stretch(Front(log), start, n, state)
    ensures Stretch(log, start, n, state)
  {
    assert forall k | start <= k <= n :: Front(log)[k] == log[k];
  }

  class PresenceState {
    const category: Category
    var state: State
    var pending: Option<State>
    var since: Time

    function Now(): Debounce
      reads this
    {
      Debounce(state, pending, since)
    }

    constructor (category: Category)
      ensures this.category == category && Now() == UNSEEN
    {
      this.category := category;
      state, pending, since := Unknown, None, 0;
    }

    /** One update; an event tells exactly the changes of state. */
    method Update(seen: bool, confidence: real, online: bool, now: Time, source: string, at: int)
      returns (event: Option<Event>)
      modifies this
      ensures Now() == Step(old(Now()), Look(seen, online, now))
      ensures event == if state == old(state) then None
                       else Some(Event(source, category, state, at, if seen && online then confidence else 0.0))
    {
      var desired := if online then (if seen then Visible else OutOfView) else Offline;
      if desired == state {
        pending := None;
        return None;
      }
      if pending != Some(desired) {
        pending := Some(desired);
        since := now;
      }
      if now - since < Delay(desired) {
        return None;
      }
      state := desired;
      pending := None;
      event := Some(Event(source, category, state, at, if seen && online then confidence else 0.0));
    }
  }
}
