/** What the rows of a replay say, field by field. */
module RowLaws {
  import opened Common
  import opened Geometry
  import opened Reading
  import opened Replay

  // ----- which rows are good -----

  predicate IsZero(measure: Option<real>) { measure.Some? && measure.value == 0.0 }

  /** A row that can be read by itself: nine fields, a time within one day, a stamp, and either the
      measurements of a person or a cat, or a marker of an empty frame or a tick with nothing measured. */
  predicate Good(row: Row) {
    && row.fields == 9 && row.stamp.Some? && row.elapsed.Some? && row.elapsed.value <= 86_400_000
    && match row.kind
       case DetectionRow =>
         && (row.classText == Zero || row.classText == Fifteen)
         && row.confidence.Some? && row.x.Some? && row.y.Some? && row.width.Some? && row.height.Some?
       case OtherKind => false
       case _ =>
         && row.classText == MinusOne
         && IsZero(row.confidence) && IsZero(row.x) && IsZero(row.y) && IsZero(row.width) && IsZero(row.height)
  }

  /** A row may follow another: not earlier, and at the same time only as a detection beside a detection
      with the same stamp. */
  predicate Follows(before: Row, row: Row)
    requires before.elapsed.Some? && row.elapsed.Some?
  {
    && before.elapsed.value <= row.elapsed.value
    && (before.elapsed.value == row.elapsed.value ==>
          before.kind == DetectionRow && row.kind == DetectionRow && before.stamp == row.stamp)
  }

  ghost predicate WellFormed(rows: seq<Row>) {
    && (forall k | 0 <= k < |rows| :: Good(rows[k]))
    && (forall i, j | 0 <= i < j < |rows| && j == i + 1 :: Follows(rows[i], rows[j]))
  }

  lemma {:induction false} FaultExact(row: Row, pending: Option<Group>)
    ensures Fault(row, pending).None? <==>
            && Good(row)
            && (pending.Some? ==>
                  && pending.value.elapsed <= row.elapsed.value
                  && (pending.value.elapsed == row.elapsed.value ==>
                        pending.value.kind == DetectionRow && row.kind == DetectionRow && row.stamp == Some(pending.value.stamp)))
  {
  }

  /** The pending group is of the time, kind and stamp of the last row. */
  lemma {:induction false} PendingIsLast(rows: seq<Row>)
    requires |rows| > 0 && GroupsOf(rows).Grouped?
    ensures var groups, row := GroupsOf(rows).groups, Last(rows);
            && |groups| > 0 && row.elapsed == Some(Last(groups).elapsed) && row.kind == Last(groups).kind
            && row.stamp == Some(Last(groups).stamp)
  {
    FaultExact(Last(rows), Pending(GroupsOf(Front(rows)).groups));
  }

  lemma {:induction false} WellFormedNext(rows: seq<Row>)
    requires |rows| > 0
    ensures WellFormed(rows) <==>
            WellFormed(Front(rows)) && Good(Last(rows)) && (|rows| > 1 ==> Follows(Last(Front(rows)), Last(rows)))
  {
    var n, front := |rows| - 1, Front(rows);
    assert forall k | 0 <= k < n :: front[k] == rows[k];
    if WellFormed(front) && Good(Last(rows)) && (|rows| > 1 ==> Follows(Last(front), Last(rows))) {
      forall i, j | 0 <= i < j < |rows| && j == i + 1 ensures Follows(rows[i], rows[j]) {
        assert j < n ==> Follows(front[i], front[j]);
      }
    }
  }

  /** A list of rows is read to the end exactly if every row is good and follows the one before it. */
  lemma {:induction false} WellFormedExact(rows: seq<Row>)
    ensures GroupsOf(rows).Grouped? <==> WellFormed(rows)
    decreases |rows|
  {
    if |rows| > 0 {
      WellFormedNext(rows);
      WellFormedExact(Front(rows));
      if GroupsOf(Front(rows)).Grouped? {
        FaultExact(Last(rows), Pending(GroupsOf(Front(rows)).groups));
        if |rows| > 1 { PendingIsLast(Front(rows)); }
      }
    }
  }

  /** The error names a defect of the row, by itself or beside the pending group. */
  predicate Defect(row: Row, pending: Option<Group>, error: RowError) {
    match error
    case BadRow => row.fields != 9 || row.stamp.None?
    case BadTime => row.elapsed.None?
    case TimeGoesBack =>
      row.elapsed.Some? && (row.elapsed.value > 86_400_000 || (pending.Some? && row.elapsed.value < pending.value.elapsed))
    case BadKind => row.kind == OtherKind
    case MixedFrame =>
      && pending.Some? && row.elapsed == Some(pending.value.elapsed)
      && (row.kind != DetectionRow || pending.value.kind != DetectionRow || row.stamp != Some(pending.value.stamp))
    case BadClass =>
      if row.kind == DetectionRow then row.classText != Zero && row.classText != Fifteen else row.classText != MinusOne
    case BadNumber => row.confidence.None? || row.x.None? || row.y.None? || row.width.None? || row.height.None?
    case BadMarker =>
      && row.kind != DetectionRow
      && !(IsZero(row.confidence) && IsZero(row.x) && IsZero(row.y) && IsZero(row.width) && IsZero(row.height))
  }

  lemma {:induction false} FaultNamesDefect(row: Row, pending: Option<Group>)
    ensures Fault(row, pending).Some? ==> Defect(row, pending, Fault(row, pending).value)
  {
  }

  /** Reading stops at the first row that is not good or may not follow, with an error that names its defect. */
  lemma {:induction false} FirstFault(rows: seq<Row>)
    requires GroupsOf(rows).Faulty?
    ensures var at := GroupsOf(rows).at;
            && at < |rows| && WellFormed(rows[..at]) && !WellFormed(rows[..at + 1])
            && GroupsOf(rows[..at]).Grouped?
            && GroupsOf(rows).complete == AllButPending(GroupsOf(rows[..at]).groups)
            && Defect(rows[at], Pending(GroupsOf(rows[..at]).groups), GroupsOf(rows).error)
    decreases |rows|
  {
    var front, n := Front(rows), |rows| - 1;
    if GroupsOf(front).Faulty? {
      FirstFault(front);
      var at := GroupsOf(front).at;
      assert front[..at] == rows[..at] && front[..at + 1] == rows[..at + 1];
    } else {
      FaultNamesDefect(Last(rows), Pending(GroupsOf(front).groups));
      WellFormedExact(front);
      WellFormedExact(rows);
      assert rows[..n] == front && rows[..n + 1] == rows;
    }
  }

  // ----- what the groups hold -----

  /** The detection is what the fields of the row say. */
  predicate Says(row: Row, d: Detection) {
    && row.kind == DetectionRow
    && ((row.classText == Zero && d.classId == 0) || (row.classText == Fifteen && d.classId == 15))
    && row.confidence == Some(d.confidence)
    && row.x == Some(d.box.x) && row.y == Some(d.box.y) && row.width == Some(d.box.width) && row.height == Some(d.box.height)
  }

  /** The places of the detection rows of a time, in their order. */
  ghost predicate Places(rows: seq<Row>, elapsed: nat, places: seq<nat>) {
    && (forall k :: k in places <==> 0 <= k < |rows| && rows[k].elapsed == Some(elapsed) && rows[k].kind == DetectionRow)
    && (forall i, j | 0 <= i < j < |places| :: places[i] < places[j])
  }

  /** Place by place the detections are what the rows say. */
  ghost predicate SaidBy(rows: seq<Row>, places: seq<nat>, detections: seq<Detection>) {
    && |detections| == |places|
    && forall i | 0 <= i < |places| :: places[i] < |rows| && Says(rows[places[i]], detections[i])
  }

  lemma {:induction false} MeasuredSays(row: Row)
    requires Good(row)
    ensures row.kind == DetectionRow ==> row.Numeric() && |DetectionsOf(row)| == 1 && Says(row, DetectionsOf(row)[0])
    ensures row.kind != DetectionRow ==> DetectionsOf(row) == []
  {
  }

  lemma {:induction false} PlacesNext(rows: seq<Row>, elapsed: nat, before: seq<nat>) returns (places: seq<nat>)
    requires |rows| > 0 && Places(Front(rows), elapsed, before)
    ensures Places(rows, elapsed, places)
    ensures places == before + if Last(rows).elapsed == Some(elapsed) && Last(rows).kind == DetectionRow then [|rows| - 1] else []
  {
    var n, front := |rows| - 1, Front(rows);
    var more := rows[n].elapsed == Some(elapsed) && rows[n].kind == DetectionRow;
    forall k: nat | k < n ensures front[k] == rows[k] {}
    forall i | 0 <= i < |before| ensures before[i] < n { assert before[i] in before; }
    places := before + if more then [n] else [];
    forall k ensures k in places <==> 0 <= k < |rows| && rows[k].elapsed == Some(elapsed) && rows[k].kind == DetectionRow {
      assert k in places <==> k in before || (k == n && more);
    }
  }

  lemma {:induction false} MeasuredByFields(rows: seq<Row>, elapsed: nat) returns (places: seq<nat>)
    requires forall k | 0 <= k < |rows| :: Good(rows[k])
    ensures Places(rows, elapsed, places) && SaidBy(rows, places, MeasuredAt(rows, elapsed))
    decreases |rows|
  {
    places := [];
    if |rows| > 0 {
      var n, front := |rows| - 1, Front(rows);
      assert forall k | 0 <= k < n :: front[k] == rows[k];
      assert Good(rows[n]);
      var before := MeasuredByFields(front, elapsed);
      MeasuredSays(rows[n]);
      places := PlacesNext(rows, elapsed, before);
      forall i | 0 <= i < |before| ensures rows[before[i]] == front[before[i]] { assert before[i] in before; }
    }
  }

  /** Field by field: the detections of the group of a time are, place by place and in order, what the
      detection rows of that time say. Class text zero is a person (0) and fifteen a cat (15); the numbers
      are confidence, corner and size. */
  lemma {:induction false} GroupsSayTheRows(rows: seq<Row>, g: Group) returns (places: seq<nat>)
    requires GroupsOf(rows).Grouped? && g in GroupsOf(rows).groups
    ensures Places(rows, g.elapsed, places) && SaidBy(rows, places, g.detections)
    ensures forall k | 0 <= k < |rows| && rows[k].elapsed == Some(g.elapsed) :: rows[k].kind == g.kind && rows[k].stamp == Some(g.stamp)
    ensures exists k :: 0 <= k < |rows| && rows[k].elapsed == Some(g.elapsed)
  {
    WellFormedExact(rows);
    GroupsExact(rows, g.elapsed);
    GroupsIncrease(rows);
    FoundInGroups(GroupsOf(rows).groups, g);
    AgreesEverywhere(rows, g);
    RowAtExact(rows, g.elapsed);
    places := MeasuredByFields(rows, g.elapsed);
  }

  lemma {:induction false} FoundInGroups(groups: seq<Group>, g: Group)
    requires Increasing(groups) && g in groups
    ensures Find(groups, g.elapsed) == Some(g)
    decreases |groups|
  {
    var n := |groups| - 1;
    if groups[n] != g {
      var k :| 0 <= k < |groups| && groups[k] == g;
      assert Front(groups)[k] == g && groups[k].elapsed < groups[n].elapsed;
      FoundInGroups(Front(groups), g);
    }
  }

  lemma {:induction false} AgreesEverywhere(rows: seq<Row>, g: Group)
    requires Agrees(rows, g)
    ensures forall k | 0 <= k < |rows| && rows[k].elapsed == Some(g.elapsed) :: rows[k].kind == g.kind && rows[k].stamp == Some(g.stamp)
    decreases |rows|
  {
    if |rows| > 0 {
      AgreesEverywhere(Front(rows), g);
      assert forall k | 0 <= k < |rows| - 1 :: Front(rows)[k] == rows[k];
    }
  }

  lemma {:induction false} RowAtExact(rows: seq<Row>, elapsed: nat)
    ensures RowAt(rows, elapsed) <==> exists k :: 0 <= k < |rows| && rows[k].elapsed == Some(elapsed)
    decreases |rows|
  {
    if |rows| > 0 {
      RowAtExact(Front(rows), elapsed);
      assert forall k | 0 <= k < |rows| - 1 :: Front(rows)[k] == rows[k];
      assert rows[|rows| - 1] == Last(rows);
    }
  }

  /** Every row belongs to the group of its time. */
  lemma {:induction false} RowsAreGrouped(rows: seq<Row>, k: nat) returns (g: Group)
    requires GroupsOf(rows).Grouped? && k < |rows|
    ensures g in GroupsOf(rows).groups && rows[k].elapsed == Some(g.elapsed)
  {
    WellFormedExact(rows);
    assert Good(rows[k]);
    GroupsExact(rows, rows[k].elapsed.value);
    RowAtExact(rows, rows[k].elapsed.value);
    g := Find(GroupsOf(rows).groups, rows[k].elapsed.value).value;
    FoundIsGroup(GroupsOf(rows).groups, rows[k].elapsed.value);
  }

  lemma {:induction false} FoundIsGroup(groups: seq<Group>, elapsed: nat)
    requires Find(groups, elapsed).Some?
    ensures Find(groups, elapsed).value in groups
    decreases |groups|
  {
    if Last(groups).elapsed != elapsed { FoundIsGroup(Front(groups), elapsed); }
  }

  // ----- the result of a replay -----

  /** The groups before the one that the first row at fault would have joined or followed. */
  ghost predicate Kept(rows: seq<Row>, at: nat, groups: seq<Group>)
    requires at <= |rows|
  {
    && GroupsOf(rows[..at]).Grouped?
    && groups == var all := GroupsOf(rows[..at]).groups; if |all| == 0 then [] else all[..|all| - 1]
  }

  /** What a replay returns: for well-formed rows their number, with every group flushed in order, or that
      there were none; and otherwise the fault of the first bad row, with every group flushed but the one
      pending when it is read. A failed flush ends the replay with its failure. */
  lemma {:induction false} ReplayResult<S, E>(flush: (S, Group) -> Result<S, E>, start: S, rows: seq<Row>,
                                              r: Result<nat, ReplayError<E>>, s: S) returns (groups: seq<Group>)
    requires Results(flush, start, rows, r, s)
    ensures WellFormed(rows) ==> GroupsOf(rows) == Grouped(groups)
    ensures !WellFormed(rows) ==> exists at ::
              0 <= at < |rows| && WellFormed(rows[..at]) && !WellFormed(rows[..at + 1]) && Kept(rows, at, groups)
    ensures match FlushAll(flush, start, groups)
            case Failure(e) => r == Failure(FlushFailed(e))
            case Success(s') =>
              && s == s'
              && (if WellFormed(rows) then r == (if rows == [] then Failure(Empty) else Success(|rows|))
                  else r.Failure? && r.error.BadInput?)
  {
    WellFormedExact(rows);
    if GroupsOf(rows).Grouped? {
      groups := GroupsOf(rows).groups;
      if |rows| > 0 { PendingIsLast(rows); }
    } else {
      FirstFault(rows);
      groups := GroupsOf(rows).complete;
      var at := GroupsOf(rows).at;
      assert Kept(rows, at, groups);
    }
  }
}
