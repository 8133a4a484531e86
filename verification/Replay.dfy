/** Box replay: which rows are refused, and how the others are grouped into frames. */
module Replay {
  import opened Common
  import opened Geometry

  // ----- rows -----

  datatype Kind = DetectionRow | EmptyRow | TickRow | OtherKind

  datatype ClassText = Zero | Fifteen | MinusOne | OtherClass

  /** A line split at its commas. None stands for text that is not a number of the kind wanted, or for
      an empty stamp; stamps are UTC seconds. */
  datatype Row = Row(fields: nat, elapsed: Option<nat>, kind: Kind, classText: ClassText, confidence: Option<real>,
                     x: Option<real>, y: Option<real>, width: Option<real>, height: Option<real>, stamp: Option<int>)
  {
    function Measures(): seq<Option<real>> { [confidence, x, y, width, height] }

    predicate Numeric() { confidence.Some? && x.Some? && y.Some? && width.Some? && height.Some? }

    function Measured(): Detection
      requires Numeric()
    {
      Detection(if classText == Zero then PERSON else CAT, confidence.value, Box(x.value, y.value, width.value, height.value))
    }
  }

  const DAY_MS := 86_400_000

  datatype RowError = BadRow | BadTime | TimeGoesBack | BadKind | MixedFrame | BadClass | BadNumber | BadMarker

  /** The rows of one time, as one frame. */
  datatype Group = Group(elapsed: nat, kind: Kind, stamp: int, detections: seq<Detection>)

  /** A measurement of a marker row must be the number zero. */
  function MeasureFault(measure: Option<real>): Option<RowError> {
    if measure.None? then Some(BadNumber) else if measure.value != 0.0 then Some(BadMarker) else None
  }

  function OrElse(a: Option<RowError>, b: Option<RowError>): Option<RowError> { if a.Some? then a else b }

  /** The measurements are read in order. */
  function MarkerFault(row: Row): Option<RowError> {
    OrElse(MeasureFault(row.confidence),
           OrElse(MeasureFault(row.x), OrElse(MeasureFault(row.y), OrElse(MeasureFault(row.width), MeasureFault(row.height)))))
  }

  /** Why a row is refused while a group is pending. The first fault found counts. */
  function Fault(row: Row, pending: Option<Group>): Option<RowError> {
    if row.fields != 9 || row.stamp.None? then Some(BadRow)
    else if row.elapsed.None? then Some(BadTime)
    else if row.elapsed.value > DAY_MS || (pending.Some? && row.elapsed.value < pending.value.elapsed) then Some(TimeGoesBack)
    else if row.kind == OtherKind then Some(BadKind)
    else if pending.Some? && row.elapsed.value == pending.value.elapsed &&
            (row.kind != DetectionRow || pending.value.kind != DetectionRow || row.stamp.value != pending.value.stamp)
      then Some(MixedFrame)
    else if row.kind == DetectionRow then
      if row.classText != Zero && row.classText != Fifteen then Some(BadClass)
      else if !row.Numeric() then Some(BadNumber)
      else None
    else if row.classText != MinusOne then Some(BadClass)
    else MarkerFault(row)
  }

  function DetectionsOf(row: Row): seq<Detection>
    requires row.kind == DetectionRow ==> row.Numeric()
  {
    if row.kind == DetectionRow then [row.Measured()] else []
  }

  function Pending(groups: seq<Group>): Option<Group> { if |groups| == 0 then None else Some(Last(groups)) }

  function AllButPending(groups: seq<Group>): seq<Group> { if |groups| == 0 then [] else Front(groups) }

  predicate Readable(row: Row) {
    row.elapsed.Some? && row.stamp.Some? && (row.kind == DetectionRow ==> row.Numeric())
  }

  /** A good row joins the pending group of its time. */
  predicate Joins(pending: Option<Group>, row: Row) { pending.Some? && row.elapsed == Some(pending.value.elapsed) }

  /** What is pending after a good row: the group it joins or the one it begins. */
  function NextSample(pending: Option<Group>, row: Row): Group
    requires Readable(row)
  {
    if Joins(pending, row) then pending.value.(detections := pending.value.detections + DetectionsOf(row))
    else Group(row.elapsed.value, row.kind, row.stamp.value, DetectionsOf(row))
  }

  function Appended(groups: seq<Group>, row: Row): seq<Group>
    requires Readable(row)
  {
    var pending := Pending(groups);
    (if Joins(pending, row) then Front(groups) else groups) + [NextSample(pending, row)]
  }

  /** The groups of some rows, or the first fault and where it is. */
  datatype Grouping = Grouped(groups: seq<Group>) | Faulty(at: nat, error: RowError, complete: seq<Group>)

  /** One row further; n is how many rows came before. What is complete when a fault stops the reading
      is every group but the pending one. */
  function GroupNext(before: Grouping, row: Row, n: nat): Grouping {
    match before
    case Faulty(_, _, _) => before
    case Grouped(groups) =>
      var fault := Fault(row, Pending(groups));
      if fault.Some? then Faulty(n, fault.value, AllButPending(groups)) else Grouped(Appended(groups, row))
  }

  function GroupsOf(rows: seq<Row>): Grouping {
    if |rows| == 0 then Grouped([]) else GroupNext(GroupsOf(Front(rows)), Last(rows), |rows| - 1)
  }

  // ----- the groups are the maximal runs of equal times -----

  predicate At(row: Row, elapsed: nat) { row.elapsed == Some(elapsed) }

  /** The measurements of one time, in row order. */
  function MeasuredAt(rows: seq<Row>, elapsed: nat): seq<Detection> {
    if |rows| == 0 then []
    else MeasuredAt(Front(rows), elapsed) +
         if At(Last(rows), elapsed) && (Last(rows).kind == DetectionRow ==> Last(rows).Numeric()) then DetectionsOf(Last(rows)) else []
  }

  ghost predicate Increasing(groups: seq<Group>) {
    forall i, j | 0 <= i < j < |groups| :: groups[i].elapsed < groups[j].elapsed
  }

  predicate RowAt(rows: seq<Row>, elapsed: nat) {
    |rows| > 0 && (At(Last(rows), elapsed) || RowAt(Front(rows), elapsed))
  }

  /** The last group of a time. */
  function Find(groups: seq<Group>, elapsed: nat): Option<Group> {
    if |groups| == 0 then None
    else if Last(groups).elapsed == elapsed then Some(Last(groups))
    else Find(Front(groups), elapsed)
  }

  /** The rows of a time, if there are any, agree with its group in kind and stamp. */
  predicate Agrees(rows: seq<Row>, g: Group) {
    |rows| > 0 ==>
      && Agrees(Front(rows), g)
      && (At(Last(rows), g.elapsed) ==> Last(rows).kind == g.kind && Last(rows).stamp == Some(g.stamp))
  }

  lemma {:induction false} AgreesStill(rows: seq<Row>, g: Group, h: Group)
    requires Agrees(rows, g) && g.elapsed == h.elapsed && g.kind == h.kind && g.stamp == h.stamp
    ensures Agrees(rows, h)
  {
    if |rows| > 0 { AgreesStill(Front(rows), g, h); }
  }

  lemma {:induction false} AgreesVacuously(rows: seq<Row>, g: Group)
    requires !RowAt(rows, g.elapsed)
    ensures Agrees(rows, g)
  {
    if |rows| > 0 { AgreesVacuously(Front(rows), g); }
  }

  lemma {:induction false} AppendedIncreases(groups: seq<Group>, row: Row)
    requires Increasing(groups) && Fault(row, Pending(groups)).None?
    ensures Increasing(Appended(groups, row))
  {
  }

  /** The groups of a well-formed list come at strictly increasing times. */
  lemma {:induction false} GroupsIncrease(rows: seq<Row>)
    requires GroupsOf(rows).Grouped?
    ensures Increasing(GroupsOf(rows).groups)
  {
    if |rows| > 0 {
      GroupsIncrease(Front(rows));
      AppendedIncreases(GroupsOf(Front(rows)).groups, Last(rows));
    }
  }

  /** There is a group of a time exactly when there is a row of that time; it has the kind and stamp of
      those rows, and holds exactly their measurements, in order. */
  ghost predicate Gathers(groups: seq<Group>, rows: seq<Row>, elapsed: nat) {
    var found := Find(groups, elapsed);
    && (found.Some? <==> RowAt(rows, elapsed))
    && MeasuredAt(rows, elapsed) == (if found.Some? then found.value.detections else [])
    && (found.Some? ==> found.value.elapsed == elapsed && Agrees(rows, found.value))
  }

  /** The groups of a well-formed list of rows gather the rows of every time. */
  lemma {:induction false} GroupsExact(rows: seq<Row>, elapsed: nat)
    requires GroupsOf(rows).Grouped?
    ensures Gathers(GroupsOf(rows).groups, rows, elapsed)
  {
    if |rows| > 0 {
      var front, row, groups := Front(rows), Last(rows), GroupsOf(Front(rows)).groups;
      assert rows == front + [row];
      GroupsExact(front, elapsed);
      GroupsIncrease(front);
      GathersNext(groups, front, row, elapsed);
    }
  }

  lemma {:induction false} GathersNext(groups: seq<Group>, front: seq<Row>, row: Row, elapsed: nat)
    requires Gathers(groups, front, elapsed) && Increasing(groups) && Fault(row, Pending(groups)).None?
    ensures Gathers(Appended(groups, row), front + [row], elapsed)
  {
    FoundNext(groups, row, elapsed);
    assert Front(front + [row]) == front;
    if At(row, elapsed) {
      if RowAt(front, elapsed) {
        RowJoins(front, row, groups, elapsed);
      } else {
        RowFounds(front, row, groups, elapsed);
      }
    }
  }

  /** A row changes what is found at its own time only. */
  lemma {:induction false} FoundNext(groups: seq<Group>, row: Row, elapsed: nat)
    requires Fault(row, Pending(groups)).None?
    ensures Find(Appended(groups, row), elapsed) ==
            if At(row, elapsed) then Some(Last(Appended(groups, row))) else Find(groups, elapsed)
  {
    var groups' := Appended(groups, row);
    assert Last(groups').elapsed == row.elapsed.value;
    assert Front(groups') == if |groups'| == |groups| then Front(groups) else groups;
  }

  /** A row of a time already found joins the pending group. */
  lemma {:induction false} RowJoins(front: seq<Row>, row: Row, groups: seq<Group>, elapsed: nat)
    requires Increasing(groups) && Fault(row, Pending(groups)).None? && At(row, elapsed)
    requires Find(groups, elapsed).Some? && Agrees(front, Find(groups, elapsed).value)
    requires Find(groups, elapsed).value.elapsed == elapsed
    ensures var g, found := Last(Appended(groups, row)), Find(groups, elapsed).value;
            && g == found.(detections := found.detections + DetectionsOf(row))
            && Agrees(front, g) && row.kind == g.kind && row.stamp == Some(g.stamp)
  {
    if Last(groups).elapsed < elapsed { NotFound(groups, elapsed); }
    AgreesStill(front, Last(groups), Last(Appended(groups, row)));
  }

  /** The first row of a time founds its group. */
  lemma {:induction false} RowFounds(front: seq<Row>, row: Row, groups: seq<Group>, elapsed: nat)
    requires Fault(row, Pending(groups)).None? && At(row, elapsed)
    requires !RowAt(front, elapsed) && Find(groups, elapsed).None?
    ensures var g := Last(Appended(groups, row));
            && g == Group(elapsed, row.kind, row.stamp.value, DetectionsOf(row)) && Agrees(front, g)
  {
    AgreesVacuously(front, Last(Appended(groups, row)));
  }

  lemma {:induction false} NotFound(groups: seq<Group>, elapsed: nat)
    requires Increasing(groups) && (|groups| > 0 ==> Last(groups).elapsed < elapsed)
    ensures Find(groups, elapsed).None?
  {
    if |groups| > 0 { NotFound(Front(groups), elapsed); }
  }
}
