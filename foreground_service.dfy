/** The alarm-driven polling service (app/.../ForegroundServiceMain.kt): renew the
    session, poll the data tracker, store the records not seen before under their JSON
    text, show them in one notification, and set the next alarm. This revision works with
    the string store of StoredAccessLogManagemer.kt and the alarm of AlarmScheduler.kt in
    the same package. */
module ForegroundService {
  import opened Wrappers
  import opened Collections
  import opened Text
  import opened Json
  import opened TrackerResponse
  import opened Notifications
  import StringLogStore
  import LegacyAlarmScheduler

  const StatusOk := 200
  const StatusServerError := 500
  /** The delay before a renewal is retried after a 500: thirty seconds. */
  const RetryDelay := 30 * 1000

  /** The requests the service sends. */
  datatype Request = ExtendSession | PollTracker

  /** The entries of a batch that `stored` lacks, each once, in batch order: a repeat
      inside the batch is found as stored, because the first copy was added already. */
  function FreshEntries(entries: seq<string>, stored: set<string>): (r: seq<string>)
    ensures ToSet(r) == ToSet(entries) - stored
    ensures NoDuplicates(r)
  {
    Except(Distinct(entries), stored)
  }

  /** Extending a batch by one entry adds that entry to the unseen ones exactly when it
      is neither stored nor earlier in the batch. */
  lemma FreshEntriesStep(prefix: seq<string>, e: string, stored: set<string>)
    ensures FreshEntries(prefix + [e], stored) ==
      if e in stored || e in prefix then FreshEntries(prefix, stored)
      else FreshEntries(prefix, stored) + [e]
  {
    var s := prefix + [e];
    assert s[..|s| - 1] == prefix;
    var p := Distinct(prefix);
    assert e in p <==> e in prefix by {
      assert e in p <==> e in ToSet(p);
    }
    if e !in prefix {
      var q := p + [e];
      assert q[..|q| - 1] == p;
    }
  }

  /** `notifBody`: each entry followed by a newline. */
  function NotificationBody(entries: seq<string>): (r: string)
    ensures r == "" <==> entries == []
  {
    if entries == [] then "" else entries[0] + "\n" + NotificationBody(entries[1..])
  }

  /** The body grows at its end as entries are appended. */
  lemma {:induction false} NotificationBodyAppend(entries: seq<string>, e: string)
    ensures NotificationBody(entries + [e]) == NotificationBody(entries) + e + "\n"
  {
    if entries == [] {
      assert [] + [e] == [e];
      assert [e][1..] == [];
    } else {
      assert (entries + [e])[1..] == entries[1..] + [e];
      NotificationBodyAppend(entries[1..], e);
    }
  }

  /** The body is the entries joined by newlines, with a newline after the last one. */
  lemma {:induction false} NotificationBodyIsJoin(entries: seq<string>)
    ensures NotificationBody(entries) == Join(entries + [""], '\n')
  {
    if entries != [] {
      NotificationBodyIsJoin(entries[1..]);
      assert (entries + [""])[1..] == entries[1..] + [""];
    }
  }

  /** The notification lists its entries one per line: splitting it on newlines gives the
      entries back, followed by the empty text after the last newline. */
  lemma NotificationBodyLines(entries: seq<string>)
    requires forall k :: 0 <= k < |entries| ==> '\n' !in entries[k]
    ensures Split(NotificationBody(entries), '\n') == entries + [""]
  {
    NotificationBodyIsJoin(entries);
    SplitJoin(entries + [""], '\n');
  }

  /** The notifications a batch raises: one listing the unseen entries, or none. */
  function BatchNotice(unseen: seq<string>): (r: seq<Notification>)
    ensures |r| <= 1
    ensures r == [] <==> NotificationBody(unseen) == ""
  {
    if unseen == [] then [] else [AccessLogText(NotificationBody(unseen))]
  }

  /** What `handleParsedEntries` does to the store and the notifications. */
  ghost predicate Handled(entries: seq<string>, logs0: seq<string>, logs1: seq<string>,
                          shown0: seq<Notification>, shown1: seq<Notification>)
  {
    var unseen := FreshEntries(entries, ToSet(logs0));
    && ToSet(logs1) == ToSet(logs0) + ToSet(entries)
    && (unseen == [] ==> logs1 == logs0)
    && (unseen != [] ==> NoDuplicates(logs1))
    && shown1 == shown0 + BatchNotice(unseen)
  }

  /** One iteration of `handleParsedEntries`: the entry is found in the store exactly
      when it was stored before or came earlier in the batch, and only an entry not found
      extends the body and the unseen entries. */
  lemma HandleStep(entries: seq<string>, i: nat, stored: set<string>,
                   logs0: seq<string>, logs1: seq<string>, body0: string)
    requires i < |entries|
    requires ToSet(logs0) == stored + ToSet(entries[..i])
    requires body0 == NotificationBody(FreshEntries(entries[..i], stored))
    requires entries[i] in logs0 ==> logs1 == logs0
    requires entries[i] !in logs0 ==> ToSet(logs1) == ToSet(logs0) + {entries[i]}
    ensures ToSet(logs1) == stored + ToSet(entries[..i + 1])
    ensures entries[i] in logs0 ==> FreshEntries(entries[..i + 1], stored) == FreshEntries(entries[..i], stored)
    ensures entries[i] !in logs0 ==>
      FreshEntries(entries[..i + 1], stored) == FreshEntries(entries[..i], stored) + [entries[i]]
    ensures (if entries[i] in logs0 then body0 else body0 + entries[i] + "\n") ==
      NotificationBody(FreshEntries(entries[..i + 1], stored))
  {
    var prefix, e := entries[..i], entries[i];
    assert entries[..i + 1] == prefix + [e];
    ToSetAppend(prefix, [e]);
    assert e in logs0 <==> e in ToSet(logs0);
    assert e in prefix <==> e in ToSet(prefix);
    FreshEntriesStep(prefix, e, stored);
    NotificationBodyAppend(FreshEntries(prefix, stored), e);
  }

  /** `handleParsedEntries`. */
  method HandleParsedEntries(entries: seq<string>, store: StringLogStore.Store, notifier: Notifier)
    modifies store, notifier
    ensures Handled(entries, old(store.logs), store.logs, old(notifier.shown), notifier.shown)
  {
    ghost var stored := ToSet(store.logs);
    var notifBody := "";
    ghost var added := false;
    for i := 0 to |entries|
      modifies store
      invariant ToSet(store.logs) == stored + ToSet(entries[..i])
      invariant notifBody == NotificationBody(FreshEntries(entries[..i], stored))
      invariant added <==> FreshEntries(entries[..i], stored) != []
      invariant !added ==> store.logs == old(store.logs)
      invariant added ==> NoDuplicates(store.logs)
    {
      var e := entries[i];
      ghost var logs0 := store.logs;
      ghost var body0 := notifBody;
      if !store.HasAccessLog(e) {
        notifBody := notifBody + e + "\n";
        store.AddAccessLog(e);
        added := true;
      }
      HandleStep(entries, i, stored, logs0, store.logs, body0);
    }
    assert entries[..|entries|] == entries;
    if notifBody != "" {
      notifier.Show(AccessLogText(notifBody));
    }
  }

  /** The parse step of a poll: the texts of the records kept, or the exception. */
  function ParsedEntries(body: Body, personalCode: Option<string>, render: JsonValue -> string)
    : (r: Result<seq<string>, PollError>)
    ensures r.Ok? <==> KeptRecords(body, personalCode, render).Ok?
    ensures r.Ok? ==> r.value == Texts(KeptRecords(body, personalCode, render).value, render)
  {
    var kept := KeptRecords(body, personalCode, render);
    if kept.Err? then Err(kept.error) else Ok(Texts(kept.value, render))
  }

  /** The service between `onStartCommand` and `stopSelf`. */
  class Service {
    var requests: seq<Request>
    /** How many times the session was logged out. */
    var logOutCalls: nat
    var stopped: bool

    constructor()
      ensures requests == [] && logOutCalls == 0 && !stopped
    {
      requests, logOutCalls, stopped := [], 0, false;
    }

    /** `extendJwtSession`, given the status the server answers and the clock's reading. */
    method ExtendJwtSession(status: int, now: int, alarms: LegacyAlarmScheduler.AlarmSlot)
      returns (renewed: bool)
      modifies this, alarms
      ensures requests == old(requests) + [ExtendSession]
      ensures renewed <==> status == StatusOk
      ensures status == StatusOk ==>
        alarms.pending == old(alarms.pending) && logOutCalls == old(logOutCalls)
      ensures status == StatusServerError ==>
        alarms.pending == Some(now + RetryDelay) && logOutCalls == old(logOutCalls)
      ensures status != StatusOk && status != StatusServerError ==>
        alarms.pending == old(alarms.pending) && logOutCalls == old(logOutCalls) + 1
      ensures stopped == old(stopped)
    {
      requests := requests + [ExtendSession];
      if status == StatusOk {
        return true;
      } else if status == StatusServerError {
        alarms.ScheduleNextRefresh(now, RetryDelay);
      } else {
        logOutCalls := logOutCalls + 1;
      }
      return false;
    }

    /** `pollDataTracker`, given the status and body the server answers and the stored
        personal code; a parse exception is returned as `Err`. */
    method PollDataTracker(status: int, body: Body, personalCode: Option<string>,
                           render: JsonValue -> string, store: StringLogStore.Store, notifier: Notifier)
      returns (r: Result<bool, PollError>)
      modifies this, store, notifier
      ensures requests == old(requests) + [PollTracker]
      ensures logOutCalls == old(logOutCalls) && stopped == old(stopped)
      ensures status != StatusOk ==> r == Ok(false)
      ensures status == StatusOk && ParsedEntries(body, personalCode, render).Err? ==>
        r == Err(ParsedEntries(body, personalCode, render).error)
      ensures status == StatusOk && ParsedEntries(body, personalCode, render).Ok? ==>
        r == Ok(true)
      ensures r.Ok? && r.value ==>
        Handled(ParsedEntries(body, personalCode, render).value,
                old(store.logs), store.logs, old(notifier.shown), notifier.shown)
      ensures !(r.Ok? && r.value) ==>
        store.logs == old(store.logs) && notifier.shown == old(notifier.shown)
    {
      requests := requests + [PollTracker];
      if status != StatusOk {
        return Ok(false);
      }
      var entries := ParsedEntries(body, personalCode, render);
      if entries.Err? {
        return Err(entries.error);
      }
      HandleParsedEntries(entries.value, store, notifier);
      return Ok(true);
    }

    /** `onStartCommand`'s coroutine. The clock is read when the renewal fails with 500
        (`renewalTime`) and when the next refresh is set (`rescheduleTime`). An exception
        while parsing skips the reschedule and is returned in `failure`; the service
        stops in every case. */
    method OnStartCommand(renewalStatus: int, pollStatus: int, body: Body, personalCode: Option<string>,
                          render: JsonValue -> string, renewalTime: int, rescheduleTime: int,
                          alarms: LegacyAlarmScheduler.AlarmSlot, store: StringLogStore.Store,
                          notifier: Notifier)
      returns (failure: Option<PollError>)
      modifies this, alarms, store, notifier
      ensures stopped
      ensures renewalStatus == StatusOk ==> requests == old(requests) + [ExtendSession, PollTracker]
      ensures renewalStatus != StatusOk ==>
        requests == old(requests) + [ExtendSession] && failure == None
        && store.logs == old(store.logs) && notifier.shown == old(notifier.shown)
      ensures failure.Some? <==>
        renewalStatus == StatusOk && pollStatus == StatusOk && ParsedEntries(body, personalCode, render).Err?
      ensures renewalStatus == StatusOk && failure.None? ==>
        alarms.pending == Some(rescheduleTime + LegacyAlarmScheduler.DefaultInterval)
      ensures renewalStatus == StatusServerError ==> alarms.pending == Some(renewalTime + RetryDelay)
      ensures (renewalStatus != StatusOk && renewalStatus != StatusServerError) || failure.Some? ==>
        alarms.pending == old(alarms.pending)
      ensures logOutCalls ==
        old(logOutCalls) + if renewalStatus != StatusOk && renewalStatus != StatusServerError then 1 else 0
      ensures renewalStatus == StatusOk && pollStatus == StatusOk && failure.None? ==>
        Handled(ParsedEntries(body, personalCode, render).value,
                old(store.logs), store.logs, old(notifier.shown), notifier.shown)
      ensures renewalStatus == StatusOk && pollStatus != StatusOk ==>
        store.logs == old(store.logs) && notifier.shown == old(notifier.shown)
      ensures failure.Some? ==> store.logs == old(store.logs) && notifier.shown == old(notifier.shown)
    {
      failure := None;
      var renewed := ExtendJwtSession(renewalStatus, renewalTime, alarms);
      if renewed {
        var polled := PollDataTracker(pollStatus, body, personalCode, render, store, notifier);
        if polled.Err? {
          failure := Some(polled.error);
        } else {
          alarms.ScheduleNextRefresh(rescheduleTime);
        }
      }
      stopped := true;
    }
  }
}
