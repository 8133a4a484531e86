/** Reading rows and flushing groups on the way: what has been flushed when the reading ends or stops.
    This holds whatever a flush does. */
module Reading {
  import opened Common
  import opened Replay

  /** Group after group, up to the first failure. */
  function FlushAll<S, E>(flush: (S, Group) -> Result<S, E>, start: S, groups: seq<Group>): Result<S, E> {
    if |groups| == 0 then Success(start)
    else
      match FlushAll(flush, start, Front(groups))
      case Failure(e) => Failure(e)
      case Success(s) => flush(s, Last(groups))
  }

  // ----- what is committed while reading -----

  /** The groups committed once some rows are read: all but the pending one. */
  function Complete(grouping: Grouping): seq<Group> {
    match grouping
    case Faulty(_, _, complete) => complete
    case Grouped(groups) => AllButPending(groups)
  }

  /** A good row commits the pending group unless it joins it. */
  function RowRead<S, E>(flush: (S, Group) -> Result<S, E>, s: S, pending: Option<Group>, row: Row): Result<S, E> {
    if pending.None? || Joins(pending, row) then Success(s) else flush(s, pending.value)
  }

  /** What is committed one good row further is what reading it has flushed. */
  lemma {:induction false} NextFlushed<S, E>(flush: (S, Group) -> Result<S, E>, start: S, s: S, groups: seq<Group>,
                                             row: Row)
    requires FlushAll(flush, start, AllButPending(groups)) == Success(s)
    ensures Fault(row, Pending(groups)).None? ==>
              FlushAll(flush, start, AllButPending(Appended(groups, row))) == RowRead(flush, s, Pending(groups), row)
  {
    if Fault(row, Pending(groups)).None? {
      assert AllButPending(Appended(groups, row)) == if Joins(Pending(groups), row) then AllButPending(groups) else groups;
    }
  }

  lemma {:induction false} GroupsSnoc(rows: seq<Row>, n: nat)
    requires n < |rows|
    ensures GroupsOf(rows[..n + 1]) == GroupNext(GroupsOf(rows[..n]), rows[n], n)
  {
    assert Front(rows[..n + 1]) == rows[..n];
  }

  lemma {:induction false} FaultStays(rows: seq<Row>, n: nat)
    requires n <= |rows| && GroupsOf(rows[..n]).Faulty?
    ensures GroupsOf(rows) == GroupsOf(rows[..n])
  {
    if n < |rows| {
      assert Front(rows)[..n] == rows[..n];
      FaultStays(Front(rows), n);
    } else {
      assert rows[..n] == rows;
    }
  }

  lemma {:induction false} CompleteNext(before: Grouping, row: Row, n: nat)
    ensures Complete(before) <= Complete(GroupNext(before, row, n)) <= Committed(GroupNext(before, row, n))
  {
  }

  lemma {:induction false} CompleteGrows(rows: seq<Row>, n: nat)
    requires n <= |rows|
    ensures Complete(GroupsOf(rows[..n])) <= Complete(GroupsOf(rows)) <= Committed(GroupsOf(rows))
  {
    if n < |rows| {
      assert Front(rows)[..n] == rows[..n];
      CompleteGrows(Front(rows), n);
      CompleteNext(GroupsOf(Front(rows)), Last(rows), |rows| - 1);
    } else {
      assert rows[..n] == rows;
    }
  }

  /** A failed flush stops everything behind it. */
  lemma {:induction false} FailureStays<S, E>(flush: (S, Group) -> Result<S, E>, start: S, done: seq<Group>,
                                              groups: seq<Group>)
    requires done <= groups && FlushAll(flush, start, done).Failure?
    ensures FlushAll(flush, start, groups) == FlushAll(flush, start, done)
  {
    if |done| < |groups| {
      assert done <= Front(groups);
      FailureStays(flush, start, done, Front(groups));
    } else {
      assert done == groups;
    }
  }

  datatype ReplayError<E> = BadInput(error: RowError) | Empty | FlushFailed(why: E)

  /** The groups to commit: all of them, or all but the pending one if a row is refused. */
  function Committed(grouping: Grouping): seq<Group> {
    match grouping
    case Faulty(_, _, complete) => complete
    case Grouped(groups) => groups
  }

  /** What a replay of some rows returns, and the state it leaves unless a flush fails. */
  ghost predicate Results<S, E>(flush: (S, Group) -> Result<S, E>, start: S, rows: seq<Row>,
                                r: Result<nat, ReplayError<E>>, s: S) {
    match FlushAll(flush, start, Committed(GroupsOf(rows)))
    case Failure(e) => r == Failure(FlushFailed(e))
    case Success(s') =>
      && s == s'
      && match GroupsOf(rows)
         case Faulty(_, error, _) => r == Failure(BadInput(error))
         case Grouped(groups) => r == if |groups| == 0 then Failure(Empty) else Success(|rows|)
  }

  /** What reading one row returns and does. */
  ghost predicate RowResult<S, E>(flush: (S, Group) -> Result<S, E>, s: S, pending: Option<Group>, row: Row,
                                  failure: Option<ReplayError<E>>,
                            s': S) {
    match Fault(row, pending)
    case Some(e) => failure == Some(BadInput(e)) && s' == s
    case None =>
      match RowRead(flush, s, pending, row)
      case Failure(e) => failure == Some(FlushFailed(e))
      case Success(t) => failure == None && s' == t
  }

  /** Stopped after n rows, between these two groupings. */
  ghost predicate StoppedBy<S, E>(flush: (S, Group) -> Result<S, E>, start: S, before: Grouping, after: Grouping,
                                  n: nat,
                                  e: ReplayError<E>, s: S) {
    match e
    case BadInput(why) => after == Faulty(n, why, Complete(before)) && FlushAll(flush, start, Complete(before)) == Success(s)
    case FlushFailed(why) => FlushAll(flush, start, Complete(after)) == Failure(why)
    case Empty => false
  }

  /** The next row is read, or stops the reading. */
  lemma {:induction false} NextRow<S, E>(flush: (S, Group) -> Result<S, E>, start: S, groups: seq<Group>, row: Row,
                                         n: nat,
                                         s: S, failure: Option<ReplayError<E>>, s': S)
    requires FlushAll(flush, start, AllButPending(groups)) == Success(s)
    requires RowResult(flush, s, Pending(groups), row, failure, s')
    ensures var after := GroupNext(Grouped(groups), row, n);
            && (failure.None? ==> Readable(row) && after == Grouped(Appended(groups, row)) &&
                                  FlushAll(flush, start, Complete(after)) == Success(s'))
            && (failure.Some? ==> StoppedBy(flush, start, Grouped(groups), after, n, failure.value, s'))
  {
    if Fault(row, Pending(groups)).None? { NextGood(flush, start, groups, row, n, s, failure, s'); }
  }

  lemma {:induction false} NextGood<S, E>(flush: (S, Group) -> Result<S, E>, start: S, groups: seq<Group>, row: Row,
                                          n: nat,
                                          s: S, failure: Option<ReplayError<E>>, s': S)
    requires FlushAll(flush, start, AllButPending(groups)) == Success(s) && Fault(row, Pending(groups)).None?
    requires RowResult(flush, s, Pending(groups), row, failure, s')
    ensures var after := Grouped(Appended(groups, row));
            && (failure.None? ==> FlushAll(flush, start, Complete(after)) == Success(s'))
            && (failure.Some? ==> StoppedBy(flush, start, Grouped(groups), after, n, failure.value, s'))
  {
    NextFlushed(flush, start, s, groups, row);
  }

  /** What stops the reading at one row is the result of the whole replay. */
  lemma {:induction false} Stopped<S, E>(flush: (S, Group) -> Result<S, E>, start: S, rows: seq<Row>, n: nat,
                                         e: ReplayError<E>, s: S)
    requires n < |rows| && StoppedBy(flush, start, GroupsOf(rows[..n]), GroupsOf(rows[..n + 1]), n, e, s)
    ensures Results(flush, start, rows, Failure(e), s)
  {
    if e.BadInput? {
      FaultStays(rows, n + 1);
    } else {
      CompleteGrows(rows, n + 1);
      FailureStays(flush, start, Complete(GroupsOf(rows[..n + 1])), Committed(GroupsOf(rows)));
    }
  }
}
