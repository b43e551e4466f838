/**
 * Scheduling of the popularity rebuild on the host's cron: activation
 * schedules a daily event only when none is pending, deactivation removes
 * the pending one only when there is one.
 */
module PopularityCron {
  import opened Wrappers

  /** The first run comes five minutes after activation. */
  const FirstRunDelay: int := 5 * 60
  const Recurrence: string := "daily"

  /** A pending event of the rebuild hook: its next run time and recurrence. */
  datatype Event = Event(timestamp: int, recurrence: string)

  /** The pending event after activation at time `now`. */
  function AfterSchedule(pending: Option<Event>, now: int): (after: Option<Event>)
    ensures pending.Some? ==> after == pending
    ensures pending.None? ==> after == Some(Event(now + FirstRunDelay, Recurrence))
  {
    if pending.None? then Some(Event(now + FirstRunDelay, Recurrence)) else pending
  }

  /** Scheduling again finds the event already pending and adds nothing. */
  lemma ScheduleIdempotent(pending: Option<Event>, now1: int, now2: int)
    ensures AfterSchedule(AfterSchedule(pending, now1), now2) == AfterSchedule(pending, now1)
  {
  }

  /** The host's record of the rebuild hook's pending event. */
  class CronSchedule {
    var pending: Option<Event>

    constructor(pending: Option<Event>)
      ensures this.pending == pending
    {
      this.pending := pending;
    }

    /** Activation: schedule the daily rebuild unless an event is already pending. */
    method ScheduleOnce(now: int) returns (created: bool)
      modifies this
      ensures created <==> old(pending).None?
      ensures pending == AfterSchedule(old(pending), now)
    {
      created := pending.None?;
      if created {
        pending := Some(Event(now + FirstRunDelay, Recurrence));
      }
    }

    /** Deactivation: unschedule the pending event, if there is one. */
    method ClearScheduled() returns (unscheduled: bool)
      modifies this
      ensures unscheduled <==> old(pending).Some?
      ensures pending == None
    {
      unscheduled := pending.Some?;
      if unscheduled {
        pending := None;
      }
    }
  }
}
