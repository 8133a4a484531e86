/** The movement heuristic, which updates its windows and timers in place. */
module PetActivity {
  import opened Common
  import opened Geometry
  import opened Contexts
  import opened Activity
  import T = Tracking

  class PetActivity {
    const libm: Libm
    var samples: seq<Sample>
    var trackId: nat
    var state: State
    var movingSince: Option<Time>
    var changed: Time
    var confidence: real
    var evidence: Evidence
    var lastConfirmed: Option<Time>
    var age: Option<Time>

    function Now(): Beliefs
      reads this
    {
      Beliefs(samples, trackId, state, movingSince, changed, confidence, evidence, lastConfirmed, age)
    }

    constructor (libm: Libm)
      ensures this.libm == libm && Now() == NO_BELIEFS
    {
      this.libm := libm;
      samples, trackId, state, movingSince, changed := [], 0, Unknown, None, 0;
      confidence, evidence, lastConfirmed, age := 0.0, NoEvidence, None, None;
    }

    /** One context. The event, if any, tells the change of state. */
    method Update(context: Context, now: Time, observedAt: int) returns (event: Option<Event>)
      modifies this
      ensures Now() == Activity.Update(SensesOf(libm), old(Now()), Glance(Read(context), now))
      ensures event == if state == old(state) then None
                       else Some(Event(context.source, Pet, state, observedAt, confidence))
    {
      var desired := Decide(context, now);
      ghost var judged := Now();
      if desired == state {
        event := None;
      } else {
        state := desired;
        changed := now;
        event := Some(Event(context.source, Pet, state, observedAt, confidence));
      }
      assert Now() == Shown((judged, desired), now);
    }

    /** Everything but the comparison with the state shown so far. */
    method Decide(context: Context, now: Time) returns (desired: State)
      modifies this
      ensures (Now(), desired) == Judge(SensesOf(libm), old(Now()), Glance(Read(context), now))
    {
      var observedCats, cat := FindCat(context.tracks);
      if context.health == HealthOffline {
        evidence, lastConfirmed, age, confidence := CameraOffline, None, None, 0.0;
        desired := Offline;
      } else if context.catCount > 1 || observedCats > 1 {
        evidence, lastConfirmed, age, confidence := Ambiguous, None, None, 0.0;
        samples, movingSince, trackId := [], None, 0;
        desired := Unknown;
      } else if context.catCount == 1 && observedCats == 1 && cat.value.confirmed {
        desired := Sight(cat.value, now);
      } else {
        desired := Pass(context.catCount, context.cat, now);
      }
      if desired == Offline || desired == OutOfView {
        samples, movingSince, trackId := [], None, 0;
      }
    }

    /** A confirmed sighting: extends or restarts the window and decides. */
    method Sight(cat: T.Snapshot, now: Time) returns (desired: State)
      modifies this
      ensures (Now(), desired) == JudgeSighting(SensesOf(libm), old(Now()), cat, now)
    {
      Continue(cat, now);
      Trim(now);
      var resting := |samples| >= 10 && now - samples[0].at >= WINDOW;
      if resting {
        resting := MeasureStill();
      }
      desired := Unknown;
      if movingSince.Some? && now - movingSince.value >= SUSTAINED {
        desired := Active;
      } else if resting {
        desired := Resting;
      } else if state == Active && now - changed < LINGER {
        desired := Active;
      }
      confidence := if desired == Active || desired == Resting then cat.confidence else 0.0;
    }

    /** Adds the sighting to the window and runs the motion timer. */
    method Continue(cat: T.Snapshot, now: Time)
      modifies `evidence, `lastConfirmed, `age, `samples, `movingSince, `trackId
      ensures evidence == Observed && lastConfirmed == Some(now) && age == Some(0) && trackId == cat.trackId
      ensures samples == old(Kept(Now(), cat, now)) + [Sample(now, cat.box)]
      ensures movingSince == old(MovingFrom(SensesOf(libm), Now(), cat, now))
    {
      evidence, lastConfirmed, age := Observed, Some(now), Some(0);
      if trackId != cat.trackId || (|samples| > 0 && now - Last(samples).at > GAP) {
        samples, movingSince := [], None;
      }
      trackId := cat.trackId;
      var moving := false;
      if |samples| > 0 {
        moving := MovedSince(Last(samples), Sample(now, cat.box));
      }
      if moving {
        if movingSince.None? {
          movingSince := Some(now);
        }
      } else {
        movingSince := None;
      }
      samples := samples + [Sample(now, cat.box)];
    }

    method MovedSince(previous: Sample, next: Sample) returns (moving: bool)
      ensures moving <==> SensesOf(libm).moves(previous, next)
    {
      moving := false;
      if next.at > previous.at {
        var dt := T.Seconds(next.at - previous.at);
        var dx := CenterX(next.box) - CenterX(previous.box);
        var dy := CenterY(next.box) - CenterY(previous.box);
        moving := libm.hypot(dx, dy) / dt > 0.03 || Resizes(libm, Area(previous.box), Area(next.box), dt);
      }
    }

    /** Pops old samples, keeping one at or before the window boundary. */
    method Trim(now: Time)
      requires |samples| > 0
      modifies `samples
      ensures samples == DropOld(old(samples), now) && |samples| > 0
    {
      while |samples| > 1 && now - samples[1].at >= WINDOW
        invariant |samples| > 0 && DropOld(samples, now) == DropOld(old(samples), now)
      {
        DropFirst(samples, now);
        samples := samples[1..];
      }
    }

    /** Folds the extremes of the window and compares them with the thresholds. */
    method MeasureStill() returns (still: bool)
      ensures still <==> SensesOf(libm).still(samples)
    {
      var minX, minY, maxX, maxY, minArea, maxArea := 1.0, 1.0, 0.0, 0.0, 1.0, 0.0;
      for i := 0 to |samples|
        invariant ExtentOf(samples[..i]) == Extent(minX, maxX, minY, maxY, minArea, maxArea)
      {
        assert Front(samples[..i + 1]) == samples[..i];
        var box := samples[i].box;
        minX, maxX := MinReal(minX, CenterX(box)), MaxReal(maxX, CenterX(box));
        minY, maxY := MinReal(minY, CenterY(box)), MaxReal(maxY, CenterY(box));
        minArea, maxArea := MinReal(minArea, Area(box)), MaxReal(maxArea, Area(box));
      }
      assert samples[..|samples|] == samples;
      still := libm.hypot(maxX - minX, maxY - minY) <= 0.03 && minArea != 0.0 && maxArea / minArea <= 1.25;
    }

    /** No confirmed sighting: hold, search, or decide that the cat is gone. */
    method Pass(catCount: nat, presence: State, now: Time) returns (desired: State)
      modifies this
      ensures desired != Offline && desired != OutOfView ==>
                (Now(), desired) == JudgeMiss(old(Now()), catCount, presence, now)
      ensures desired == Offline || desired == OutOfView ==>
                (Forget(Now()), desired) == JudgeMiss(old(Now()), catCount, presence, now)
    {
      ghost var before := Now();
      age := if lastConfirmed.Some? then Some(now - lastConfirmed.value) else None;
      desired := Unknown;
      var held := false;
      if age.Some? && age.value <= GAP {
        evidence := Held;
        desired := state;
        held := true;
      } else if age.Some? && age.value <= SEARCH {
        evidence := Searching;
      } else if catCount == 0 && presence == OutOfView {
        desired := OutOfView;
        evidence := Absent;
      } else {
        evidence := if catCount != 0 then Confirming else NoEvidence;
      }
      assert age == AgeOf(before, now) && (held <==> evidence == Held);
      if !held {
        samples, movingSince, trackId := [], None, 0;
        confidence := 0.0;
      }
      assert Now() == Passed(before, age, evidence, held);
    }
  }

  /** A miss keeps the series of sightings only while the state is held. */
  function Passed(s: Beliefs, age: Option<Time>, evidence: Evidence, held: bool): Beliefs {
    if held then s.(age := age, evidence := evidence)
    else Forget(s.(age := age, evidence := evidence, confidence := 0.0))
  }

  lemma {:induction false} DropFirst(samples: seq<Sample>, now: Time)
    requires |samples| > 1 && now - samples[1].at >= WINDOW
    ensures DropOld(samples[1..], now) == DropOld(samples, now)
  {
    FirstShift(samples, now, 1);
    var f := FirstKept(samples[1..], now, 0);
    assert samples[1..][f..] == samples[f + 1..];
  }

  lemma {:induction false} FirstShift(samples: seq<Sample>, now: Time, k: nat)
    requires 1 <= k < |samples|
    ensures FirstKept(samples[1..], now, k - 1) == FirstKept(samples, now, k) - 1
    decreases |samples| - k
  {
    if k + 1 < |samples| && now - samples[k + 1].at >= WINDOW { FirstShift(samples, now, k + 1); }
  }
}
