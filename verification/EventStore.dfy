/** The event store: both tables, the interval writer and the timeline queries. */
module EventStore {
  import opened Common
  import opened IntervalTable
  import opened Timeline
  import opened TimelineLaws

  const HOUR := 3600
  const DAY := 86400

  datatype StoreError = InvalidEntry | InvalidWindow

  /** A timeline answer: whose day it is, the window asked for, the intervals and the totals. */
  datatype DayView = DayView(day: int, utc: bool, begin: int, windowEnd: int,
                             intervals: seq<Interval>, summary: map<State, int>)

  /** A window may begin at most 14 hours off midnight UTC and must last 22 to 26 hours. */
  predicate WindowAllowed(midnight: int, begin: int, windowEnd: int) {
    midnight - 50400 <= begin <= midnight + 50400 && 79200 <= windowEnd - begin <= 93600
  }

  class EventStore {
    var events: seq<Event>
    var rows: seq<Row>
    /** Every accepted call of RecordContext, oldest first. */
    ghost var log: seq<Entry>

    ghost predicate Valid()
      reads this
    {
      forall n | Door(n) :: rows == TableOf(log) && forall e | e in log :: e.Valid()
    }

    constructor ()
      ensures Valid() && events == [] && log == []
    {
      events, rows, log := [], [], [];
    }

    method Append(event: Event)
      modifies this`events
      ensures events == old(events) + [event]
    {
      events := events + [event];
    }

    /** Persists one context. A rejected call changes nothing. */
    method RecordContext(e: Entry) returns (r: Result<(), StoreError>)
      requires Valid()
      modifies this`rows, this`log
      ensures Valid()
      ensures r.Success? <==> e.Valid()
      ensures r.Success? <==> e.at >= 0 && e.source != "" && e.state in {Active, Resting, OutOfView, Offline, Unknown}
      ensures e.Valid() ==> log == old(log) + [e] && rows == Written(old(rows), e)
      ensures !e.Valid() ==> r == Failure(InvalidEntry) && log == old(log) && rows == old(rows)
    {
      assert Door(0);
      ValidMeans(e);
      if e.at < 0 || e.source == "" || e.state !in STATES {
        return Failure(InvalidEntry);
      }
      var newest := Newest(rows, e.source);
      if newest.None? {
        rows := rows + [e.Opened()];
      } else if e.at > rows[newest.value].lastSeen {
        var previous := rows[newest.value];
        var same := previous.state == e.Recorded() && e.at - previous.lastSeen <= HOLD;
        var end := Min(e.at, previous.lastSeen + HOLD);
        rows := rows[newest.value :=
                     previous.(end := end, lastSeen := if same then e.at else previous.lastSeen, open := same)];
        if !same {
          if e.at > end {
            rows := rows + [Row(e.source, Unknown, 0.0, end, e.at, e.at, false)];
          }
          rows := rows + [e.Opened()];
        }
        assert rows == Written(old(rows), e);
      }
      TableOfSnoc(log, e);
      log := log + [e];
      r := Success(());
    }

    /** The answer for an explicit window around the day that starts at midnight. It renders the
        reference rule on the samples recorded so far, up to now. */
    method WindowTimeline(source: string, midnight: int, begin: int, windowEnd: int, now: int)
      returns (r: Result<DayView, StoreError>)
      requires Valid()
      ensures r.Success? <==> WindowAllowed(midnight, begin, windowEnd)
      ensures r.Failure? ==> r.error == InvalidWindow
      ensures r.Success? ==>
                var v := r.value;
                && v.day == midnight && v.begin == begin && v.windowEnd == windowEnd
                && (v.utc <==> begin == midnight && windowEnd == midnight + 86400)
                && Renders(v.intervals, SamplesOf(log, source), begin, Max(begin, Min(windowEnd, now)))
                && Totals(v.summary, v.intervals)
                && v.intervals == Answer(rows, source, begin, Min(windowEnd, now)).intervals
                && v.summary == Answer(rows, source, begin, Min(windowEnd, now)).totals
    {
      if begin < midnight - 14 * HOUR || begin > midnight + 14 * HOUR ||
         windowEnd < begin + 22 * HOUR || windowEnd > begin + 26 * HOUR {
        return Failure(InvalidWindow);
      }
      var end := Min(windowEnd, now);
      var selected := Selected(rows, source, begin, end);
      var cursor, intervals, totals := begin, [], NO_SECONDS;
      var i := 0;
      while i < |selected|
        invariant 0 <= i <= |selected|
        invariant Sweep(cursor, intervals, totals) == Swept(selected[..i], begin, end)
      {
        assert Front(selected[..i + 1]) == selected[..i];
        var row := selected[i];
        var from := Max(begin, row.start);
        var to := Min(end, if row.open then row.lastSeen + HOLD else row.end);
        if from > cursor {
          intervals, totals := Emit(intervals, totals, Unknown, cursor, Min(from, end));
        }
        from := Max(from, cursor);
        intervals, totals := Emit(intervals, totals, row.state, from, to);
        cursor := Max(cursor, to);
        i := i + 1;
      }
      assert selected[..i] == selected;
      intervals, totals := Emit(intervals, totals, Unknown, cursor, end);
      assert Door(0);
      TimelineMeaning(log, source, begin, end);
      r := Success(DayView(midnight, begin == midnight && windowEnd - begin == DAY, begin, windowEnd,
                           intervals, totals));
    }

    method Emit(intervals: seq<Interval>, totals: map<State, int>, state: State, from: int, to: int)
      returns (intervals': seq<Interval>, totals': map<State, int>)
      ensures forall cursor :: Sweep(cursor, intervals', totals') ==
                               Sweep(cursor, intervals, totals).Emit(state, from, to)
    {
      intervals', totals' := intervals, totals;
      if from < to {
        intervals' := intervals + [Interval(state, from, to)];
        totals' := totals[state := (if state in totals then totals[state] else 0) + (to - from)];
      }
    }

    /** The answer for a whole UTC day. */
    method DayTimeline(source: string, midnight: int, now: int) returns (r: Result<DayView, StoreError>)
      requires Valid()
      ensures r.Success?
      ensures var v := r.value;
              && v.day == v.begin == midnight && v.windowEnd == midnight + 86400 && v.utc
              && Renders(v.intervals, SamplesOf(log, source), midnight, Max(midnight, Min(midnight + 86400, now)))
              && Totals(v.summary, v.intervals)
              && v.intervals == Answer(rows, source, midnight, Min(midnight + 86400, now)).intervals
              && v.summary == Answer(rows, source, midnight, Min(midnight + 86400, now)).totals
    {
      r := WindowTimeline(source, midnight, midnight, midnight + DAY, now);
    }
  }

  lemma {:induction false} ValidMeans(e: Entry)
    ensures e.Valid() <==> e.at >= 0 && e.source != "" && e.state in {Active, Resting, OutOfView, Offline, Unknown}
  {
  }
}
