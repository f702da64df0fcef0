/** The refresh alarm (app/.../alarm/AlarmScheduler.kt). Every alarm the scheduler sets
    uses the same broadcast intent with request code 0 and `FLAG_UPDATE_CURRENT`, so the
    alarm service holds at most one of them: setting one replaces the one pending. */
module AlarmScheduler {
  import opened Wrappers

  /** `scheduleNextRefresh`'s default interval: five minutes, in milliseconds. */
  const DefaultInterval := 5 * 60 * 1000
  /** `scheduleNextRefresh`'s default retry budget. */
  const DefaultRetries := 20
  /** `ensureAlarmScheduled`'s default interval: one minute. */
  const EnsureInterval := 60 * 1000
  /** The broadcast action that `BootReceiver` answers. */
  const BootCompleted := "android.intent.action.BOOT_COMPLETED"

  /** A pending alarm: when it fires (wall-clock milliseconds) and the `RETRIES_KEY`
      extra its intent carries. */
  datatype Alarm = Alarm(triggerAt: int, retries: int)

  /** The alarm service's slot for the refresh intent. */
  class AlarmSlot {
    var pending: Option<Alarm>

    constructor()
      ensures pending == None
    {
      pending := None;
    }

    /** `isAlarmSet`: whether the refresh intent is registered. */
    predicate IsAlarmSet()
      reads this
    {
      pending.Some?
    }

    /** `scheduleNextRefresh`, with the clock's reading `now` as a parameter. */
    method ScheduleNextRefresh(now: int, interval: int := DefaultInterval, retries: int := DefaultRetries)
      modifies this
      ensures retries <= 0 ==> pending == old(pending)
      ensures retries > 0 ==> pending == Some(Alarm(now + interval, retries))
    {
      if retries <= 0 {
        return;
      }
      pending := Some(Alarm(now + interval, retries));
    }

    /** `cancelRefresh`: cancels the alarm and the pending intent. */
    method CancelRefresh()
      modifies this
      ensures pending == None
      ensures !IsAlarmSet()
    {
      pending := None;
    }

    /** `ensureAlarmScheduled`: schedules only when nothing is pending. Afterwards an
        alarm is pending, and a pending alarm is never touched, so a second call changes
        nothing. */
    method EnsureAlarmScheduled(now: int, interval: int := EnsureInterval)
      modifies this
      ensures old(pending).Some? ==> pending == old(pending)
      ensures old(pending).None? ==> pending == Some(Alarm(now + interval, DefaultRetries))
      ensures IsAlarmSet()
    {
      if !IsAlarmSet() {
        ScheduleNextRefresh(now, interval);
      }
    }
  }

  /** `BootReceiver.onReceive`: after a reboot, make sure a refresh is pending one minute
      out; any other broadcast is ignored. */
  method OnBootReceive(slot: AlarmSlot, action: string, now: int)
    modifies slot
    ensures action != BootCompleted ==> slot.pending == old(slot.pending)
    ensures action == BootCompleted && old(slot.pending).None? ==>
      slot.pending == Some(Alarm(now + EnsureInterval, DefaultRetries))
    ensures action == BootCompleted && old(slot.pending).Some? ==> slot.pending == old(slot.pending)
  {
    if action == BootCompleted {
      slot.EnsureAlarmScheduled(now, EnsureInterval);
    }
  }
}
