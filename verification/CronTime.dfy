/** app/config/cron.py next_after and the successor anchor of app/domain/run_materializer.py.
    croniter's get_next is a parameter: any function returning the least fire time strictly after
    its argument. */
module CronTime {
  import opened Tables

  type Calendar = (Cron, int) -> int

  /** get_next is strictly later, and stays the same until it is reached. */
  ghost predicate ValidCalendar(next: Calendar) {
    (forall c, t :: next(c, t) > t)
    && (forall c, t, s :: t <= s < next(c, t) ==> next(c, s) == next(c, t))
  }

  /** u is a fire time of c. */
  predicate Fires(next: Calendar, c: Cron, u: int) {
    next(c, u - 1) == u
  }

  /** next_after: get_next started one microsecond before ref. */
  function NextAfter(next: Calendar, c: Cron, ref: int): int {
    next(c, ref - 1)
  }

  /** The inclusive semantics next_after documents. */
  lemma NextAfterIsEarliest(next: Calendar, c: Cron, ref: int)
    requires ValidCalendar(next)
    ensures NextAfter(next, c, ref) >= ref
    ensures Fires(next, c, NextAfter(next, c, ref))
    ensures forall u :: ref <= u < NextAfter(next, c, ref) ==> !Fires(next, c, u)
  {
    var n := NextAfter(next, c, ref);
    assert next(c, n - 1) == next(c, ref - 1);
    forall u | ref <= u < n ensures !Fires(next, c, u) {
      assert next(c, u - 1) == next(c, ref - 1);
    }
  }

  /** run_at of materialize_successor: next_after the clamped anchor. */
  function SuccessorTime(next: Calendar, c: Cron, prev: int, occurred: int): int {
    NextAfter(next, c, if occurred > prev + 1 then occurred else prev + 1)
  }

  /** A successor fires at the earliest fire time that is not before the terminal event and is
      strictly after the previous tick. */
  lemma SuccessorIsEarliest(next: Calendar, c: Cron, prev: int, occurred: int)
    requires ValidCalendar(next)
    ensures
      var t := SuccessorTime(next, c, prev, occurred);
      t > prev && t >= occurred && Fires(next, c, t)
      && forall u :: prev < u < t && occurred <= u ==> !Fires(next, c, u)
  {
    NextAfterIsEarliest(next, c, if occurred > prev + 1 then occurred else prev + 1);
  }
}
