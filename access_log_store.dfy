/** The second revision of the access-log store
    (app/.../access_logs/StoredAccessLogManager.kt): `addAccessLogs` merges a batch of
    records into the persisted list, returns the records that were new, notifies the
    user once per new record, except on the first use after login, when the batch is
    stored silently and the first-use flag is cleared. */
module AccessLogStore {
  import opened Wrappers
  import opened Collections
  import opened LogEntries
  import opened Notifications
  import UserInfo

  /** The records of `input` that `stored` lacks, each once, in the order of their first
      occurrence in `input`. */
  function NewEntries(input: seq<LogEntry>, stored: seq<LogEntry>): (r: seq<LogEntry>)
    ensures ToSet(r) == ToSet(input) - ToSet(stored)
    ensures NoDuplicates(r)
  {
    Except(Distinct(input), ToSet(stored))
  }

  /** The stored list after a merge: the old list, untouched, then the new records. */
  function Merged(stored: seq<LogEntry>, input: seq<LogEntry>): seq<LogEntry> {
    stored + NewEntries(input, stored)
  }

  /** A merge stores exactly the union of the old list and the batch. */
  lemma MergedIsUnion(stored: seq<LogEntry>, input: seq<LogEntry>)
    ensures ToSet(Merged(stored, input)) == ToSet(stored) + ToSet(input)
  {
    ToSetAppend(stored, NewEntries(input, stored));
  }

  /** A merge never creates a duplicate in a list that had none. */
  lemma MergedKeepsNoDuplicates(stored: seq<LogEntry>, input: seq<LogEntry>)
    requires NoDuplicates(stored)
    ensures NoDuplicates(Merged(stored, input))
  {
    AppendNoDuplicates(stored, NewEntries(input, stored));
  }

  /** Repeating a merge with the same batch finds nothing new and changes nothing. */
  lemma MergeIsIdempotent(stored: seq<LogEntry>, input: seq<LogEntry>)
    ensures NewEntries(input, Merged(stored, input)) == []
    ensures Merged(Merged(stored, input), input) == Merged(stored, input)
  {
    MergedIsUnion(stored, input);
    EmptyToSet(NewEntries(input, Merged(stored, input)));
  }

  /** The stored set does not depend on the order in which batches arrive. */
  lemma MergeOrderIndependent(stored: seq<LogEntry>, a: seq<LogEntry>, b: seq<LogEntry>)
    ensures ToSet(Merged(Merged(stored, a), b)) == ToSet(Merged(Merged(stored, b), a))
  {
    MergedIsUnion(stored, a);
    MergedIsUnion(Merged(stored, a), b);
    MergedIsUnion(stored, b);
    MergedIsUnion(Merged(stored, b), a);
  }

  /** One access-log notification per record, in order. */
  function Notices(entries: seq<LogEntry>): (r: seq<Notification>)
    ensures |r| == |entries|
    ensures forall k :: 0 <= k < |entries| ==> r[k] == AccessLog(entries[k])
  {
    seq(|entries|, k requires 0 <= k < |entries| => AccessLog(entries[k]))
  }

  /** `logEntries.toMutableSet()`: a linked hash set, iterated in first-occurrence order. */
  method ToMutableSet(input: seq<LogEntry>) returns (r: seq<LogEntry>)
    ensures r == Distinct(input)
  {
    r := [];
    for i := 0 to |input|
      invariant r == Distinct(input[..i])
    {
      assert input[..i + 1][..i] == input[..i];
      if input[i] !in r {
        r := r + [input[i]];
      }
    }
    assert input[..|input|] == input;
  }

  /** `newEntries.removeAll(stored)`: drops the stored records, keeping the order. */
  method RemoveAll(s: seq<LogEntry>, stored: set<LogEntry>) returns (r: seq<LogEntry>)
    ensures r == Except(s, stored)
  {
    r := [];
    for i := 0 to |s|
      invariant r == Except(s[..i], stored)
    {
      assert s[..i + 1][..i] == s[..i];
      if s[i] !in stored {
        r := r + [s[i]];
      }
    }
    assert s[..|s|] == s;
  }

  /** The store behind `accessLogsDataStore`'s `entriesList`. */
  class Store {
    var entries: seq<LogEntry>

    constructor(initial: seq<LogEntry>)
      ensures entries == initial
    {
      entries := initial;
    }

    /** `addAccessLogs`. */
    method AddAccessLogs(users: UserInfo.UserInfoStore, notifier: Notifier, logEntries: seq<LogEntry>)
      returns (added: seq<LogEntry>)
      modifies this, users, notifier
      ensures added == NewEntries(logEntries, old(entries))
      ensures entries == old(entries) + added
      ensures added == [] ==>
        users.info == old(users.info) && notifier.shown == old(notifier.shown)
      ensures added != [] ==>
        users.info == old(users.info).(firstUse := Some(false))
      ensures added != [] && !UserInfo.IsFirstUse(old(users.info)) ==>
        notifier.shown == old(notifier.shown) + Notices(added)
      ensures added != [] && UserInfo.IsFirstUse(old(users.info)) ==>
        notifier.shown == old(notifier.shown)
    {
      var newEntries := ToMutableSet(logEntries);
      newEntries := RemoveAll(newEntries, ToSet(entries));
      if newEntries == [] {
        return newEntries;
      }
      if !users.FirstUse() {
        for i := 0 to |newEntries|
          modifies notifier
          invariant notifier.shown == old(notifier.shown) + Notices(newEntries[..i])
        {
          assert Notices(newEntries[..i + 1]) == Notices(newEntries[..i]) + [AccessLog(newEntries[i])];
          notifier.Show(AccessLog(newEntries[i]));
        }
        assert newEntries[..|newEntries|] == newEntries;
      }
      users.SetFirstUse(false);
      entries := entries + newEntries;
      added := newEntries;
    }
  }

  /** The first-use rule over two polls after a login: the first poll that finds new
      records stores them without a notification, and the next poll announces each record
      it adds. */
  method FirstUseThenNotify(stored: seq<LogEntry>, first: seq<LogEntry>, second: seq<LogEntry>)
    returns (silent: seq<Notification>, announced: seq<Notification>)
    requires NewEntries(first, stored) != []
    ensures silent == []
    ensures announced == Notices(NewEntries(second, Merged(stored, first)))
  {
    var users := new UserInfo.UserInfoStore(UserInfo.UserInfo("", "", Some(true), true));
    var notifier := new Notifier();
    var store := new Store(stored);
    var added := store.AddAccessLogs(users, notifier, first);
    silent := notifier.shown;
    added := store.AddAccessLogs(users, notifier, second);
    announced := notifier.shown;
  }
}
