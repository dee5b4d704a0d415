/**
 * The session status machine of `USSDSession`, as functions on one row:
 * `should_end`, `mark_ending` and `close`.
 */
module Lifecycle {
  import opened Wrappers
  import opened Statuses
  import opened Records

  /** A session whose end has been asked for (ENDING); such a session is still open. */
  predicate ShouldEnd(r: SessionRecord)
    ensures ShouldEnd(r) ==> !IsDone(r.status)
  {
    r.status == Ending
  }

  /** The row after `mark_ending`: ENDING, and nothing else touched. */
  function MarkedEnding(r: SessionRecord): (r': SessionRecord)
    ensures r'.status == Ending && ShouldEnd(r')
    ensures r'.(status := r.status) == r
    ensures ShouldEnd(r) ==> r' == r
  {
    if r.status != Ending then r.(status := Ending) else r
  }

  /**
   * The row after `close` at time `now`: an ENDING session completes, any
   * other one, done ones included, is interrupted; both stamp `endedOn`
   * and change nothing else.
   */
  function Closed(r: SessionRecord, now: Time): (r': SessionRecord)
    ensures ShouldEnd(r) ==> r'.status == Completed
    ensures !ShouldEnd(r) ==> r'.status == Interrupted
    ensures IsDone(r'.status) && r'.endedOn == Some(now)
    ensures r'.(status := r.status, endedOn := r.endedOn) == r
  {
    var s := if r.status == Ending then Completed else Interrupted;
    r.(status := s, endedOn := Some(now))
  }

  /** Marking twice is marking once. */
  lemma MarkEndingIdempotent(r: SessionRecord)
    ensures MarkedEnding(MarkedEnding(r)) == MarkedEnding(r)
  {
  }

  /** The graceful path: a session marked ENDING and then closed has COMPLETED. */
  lemma GracefulClose(r: SessionRecord, now: Time)
    ensures Closed(MarkedEnding(r), now).status == Completed
  {
  }

  /**
   * `close` has no guard: closing a session that is already done relabels
   * it INTERRUPTED, even a COMPLETED one, and moves its end time.
   */
  lemma ReclosingInterrupts(r: SessionRecord, t1: Time, t2: Time)
    ensures Closed(Closed(r, t1), t2).status == Interrupted
    ensures Closed(Closed(r, t1), t2).endedOn == Some(t2)
  {
  }

  /**
   * `mark_ending` has no guard either: a done session becomes ENDING,
   * which is open again, and keeps its end time.
   */
  lemma MarkEndingReopens(r: SessionRecord)
    requires IsDone(r.status)
    ensures !IsDone(MarkedEnding(r).status) && MarkedEnding(r).endedOn == r.endedOn
  {
  }
}
