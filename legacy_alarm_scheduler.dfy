/** The earlier refresh alarm (app/.../AlarmScheduler.kt): the same single slot, keyed by
    request code 0 and `FLAG_UPDATE_CURRENT`, with no retry budget. */
module LegacyAlarmScheduler {
  import opened Wrappers

  /** `scheduleNextRefresh`'s default interval: five minutes, in milliseconds. */
  const DefaultInterval := 5 * 60 * 1000

  class AlarmSlot {
    /** When the pending alarm fires, if one is pending. */
    var pending: Option<int>

    constructor()
      ensures pending == None
    {
      pending := None;
    }

    /** `isAlarmSet`. */
    predicate IsAlarmSet()
      reads this
    {
      pending.Some?
    }

    /** `scheduleNextRefresh`: always sets the alarm, replacing a pending one. */
    method ScheduleNextRefresh(now: int, interval: int := DefaultInterval)
      modifies this
      ensures pending == Some(now + interval)
      ensures IsAlarmSet()
    {
      pending := Some(now + interval);
    }

    /** `cancelRefresh`. */
    method CancelRefresh()
      modifies this
      ensures pending == None
      ensures !IsAlarmSet()
    {
      pending := None;
    }
  }
}
