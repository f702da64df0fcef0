/** The log-entry record and its dedup key, from the first revision of the log-entry
    manager (app/.../LogEntryManager.kt): JSON field lookups with `?: ""`, the content
    hash, the newest-first ordering of the stored list and the notification text. */
module LogEntries {
  import opened Wrappers
  import opened Json
  import opened Text
  import opened Collections

  /** `LogEntryProto`: every string field defaults to "". */
  datatype LogEntry = LogEntry(
    timestamp: string,
    receiver: string,
    infoSystem: string,
    action: string,
    contentHash: string)

  const Separator := '|'

  /** `generateContentHash`: the four fields joined by `|`. */
  function ContentHash(timestamp: string, receiver: string, infoSystem: string, action: string): string {
    timestamp + [Separator] + receiver + [Separator] + infoSystem + [Separator] + action
  }

  /** The hash is the `|`-join of the four fields, in this order. */
  lemma ContentHashIsJoin(t: string, r: string, i: string, a: string)
    ensures ContentHash(t, r, i, a) == Join([t, r, i, a], Separator)
  {
    JoinFour(t, r, i, a, Separator);
  }

  /** The hash splits back into the four fields when none of them holds `|`. */
  lemma ContentHashSplits(t: string, r: string, i: string, a: string)
    requires Separator !in t && Separator !in r && Separator !in i && Separator !in a
    ensures Split(ContentHash(t, r, i, a), Separator) == [t, r, i, a]
  {
    ContentHashIsJoin(t, r, i, a);
    SplitJoin([t, r, i, a], Separator);
  }

  /** Distinct 4-tuples without `|` get distinct hashes. */
  lemma ContentHashInjective(t: string, r: string, i: string, a: string,
                             t': string, r': string, i': string, a': string)
    requires Separator !in t && Separator !in r && Separator !in i && Separator !in a
    requires Separator !in t' && Separator !in r' && Separator !in i' && Separator !in a'
    requires ContentHash(t, r, i, a) == ContentHash(t', r', i', a')
    ensures t == t' && r == r' && i == i' && a == a'
  {
    ContentHashSplits(t, r, i, a);
    ContentHashSplits(t', r', i', a');
  }

  /** `jsonObject[key]?.jsonPrimitive?.content ?: ""`. */
  function Field(fields: map<string, JsonValue>, key: string): (r: Result<string, JsonError>)
    ensures key !in fields ==> r == Ok("")
    ensures key in fields ==> r == Content(fields[key])
  {
    if key in fields then Content(fields[key]) else Ok("")
  }

  /** `parseLogEntry`: reads the four fields (in the order logTime, receiver,
      infoSystemCode, action) and stamps the record with their content hash. */
  function ParseLogEntry(element: JsonValue): (r: Result<LogEntry, JsonError>)
    ensures !element.JObject? ==> r == Err(NotAnObject)
    ensures r.Ok? ==>
      r.value.contentHash == ContentHash(r.value.timestamp, r.value.receiver, r.value.infoSystem, r.value.action)
    ensures element.JObject? ==> var f := element.fields;
      (r.Ok? <==> Field(f, "logTime").Ok? && Field(f, "receiver").Ok?
                  && Field(f, "infoSystemCode").Ok? && Field(f, "action").Ok?)
    ensures r.Ok? ==> var f := element.fields;
      && Field(f, "logTime") == Ok(r.value.timestamp)
      && Field(f, "receiver") == Ok(r.value.receiver)
      && Field(f, "infoSystemCode") == Ok(r.value.infoSystem)
      && Field(f, "action") == Ok(r.value.action)
  {
    if !element.JObject? then Err(NotAnObject)
    else
      var f := element.fields;
      match Field(f, "logTime")
      case Err(e) => Err(e)
      case Ok(timestamp) =>
        match Field(f, "receiver")
        case Err(e) => Err(e)
        case Ok(receiver) =>
          match Field(f, "infoSystemCode")
          case Err(e) => Err(e)
          case Ok(infoSystem) =>
            match Field(f, "action")
            case Err(e) => Err(e)
            case Ok(action) =>
              Ok(LogEntry(timestamp, receiver, infoSystem, action,
                          ContentHash(timestamp, receiver, infoSystem, action)))
  }

  /** `parseLogEntries`: `map` over the elements; the first element that throws ends it. */
  function ParseLogEntries(elements: seq<JsonValue>): (r: Result<seq<LogEntry>, JsonError>)
    ensures r.Ok? <==> forall k :: 0 <= k < |elements| ==> ParseLogEntry(elements[k]).Ok?
    ensures r.Ok? ==>
      |r.value| == |elements| && forall k :: 0 <= k < |elements| ==> ParseLogEntry(elements[k]) == Ok(r.value[k])
  {
    if elements == [] then Ok([])
    else
      match ParseLogEntry(elements[0])
      case Err(e) => Err(e)
      case Ok(entry) =>
        match ParseLogEntries(elements[1..])
        case Err(e) =>
          Err(e)
        case Ok(rest) =>
          assert forall k :: 1 <= k < |elements| ==> elements[k] == elements[1..][k - 1];
          Ok([entry] + rest)
  }

  /** A field that the JSON object lacks becomes "", and a string field is copied verbatim. */
  lemma ParsedFieldDefaults(fields: map<string, JsonValue>, entry: LogEntry)
    requires ParseLogEntry(JObject(fields)) == Ok(entry)
    ensures "logTime" !in fields ==> entry.timestamp == ""
    ensures "receiver" !in fields ==> entry.receiver == ""
    ensures "infoSystemCode" !in fields ==> entry.infoSystem == ""
    ensures "action" !in fields ==> entry.action == ""
    ensures "receiver" in fields && fields["receiver"].JString? ==> entry.receiver == fields["receiver"].s
  {
  }

  // ----- the stored list, newest first -----

  /** Descending by timestamp, comparing neighbours. */
  ghost predicate NewestFirst(s: seq<LogEntry>) {
    forall k :: 0 <= k < |s| - 1 ==> LexLessEq(s[k + 1].timestamp, s[k].timestamp)
  }

  /** Places `e` before the first element whose timestamp is not greater than its own. */
  function Insert(e: LogEntry, sorted: seq<LogEntry>): (r: seq<LogEntry>)
    requires NewestFirst(sorted)
    ensures NewestFirst(r)
    ensures multiset(r) == multiset(sorted) + multiset{e}
    ensures r[0] == e || (sorted != [] && r[0] == sorted[0])
  {
    if sorted == [] then [e]
    else if LexLessEq(sorted[0].timestamp, e.timestamp) then
      ConsNewestFirst(e, sorted);
      [e] + sorted
    else
      LexTotal(sorted[0].timestamp, e.timestamp);
      NewestFirstTail(sorted);
      var rest := Insert(e, sorted[1..]);
      assert sorted == [sorted[0]] + sorted[1..];
      assert LexLessEq(rest[0].timestamp, sorted[0].timestamp);
      ConsNewestFirst(sorted[0], rest);
      [sorted[0]] + rest
  }

  /** An entry no older than the head of a newest-first list may go in front of it. */
  lemma ConsNewestFirst(x: LogEntry, s: seq<LogEntry>)
    requires NewestFirst(s)
    requires s != [] ==> LexLessEq(s[0].timestamp, x.timestamp)
    ensures NewestFirst([x] + s)
  {
    var r := [x] + s;
    forall k | 0 <= k < |r| - 1 ensures LexLessEq(r[k + 1].timestamp, r[k].timestamp) {
      if k > 0 { assert r[k] == s[k - 1] && r[k + 1] == s[k]; }
    }
  }

  lemma NewestFirstTail(s: seq<LogEntry>)
    requires NewestFirst(s) && s != []
    ensures NewestFirst(s[1..])
  {
    var t := s[1..];
    forall k | 0 <= k < |t| - 1 ensures LexLessEq(t[k + 1].timestamp, t[k].timestamp) {
      assert t[k] == s[k + 1] && t[k + 1] == s[k + 2];
    }
  }

  /** The entries stamped `t`, in their order: what a stable sort must not reorder. */
  function WithTimestamp(s: seq<LogEntry>, t: string): seq<LogEntry> {
    if s == [] then [] else (if s[0].timestamp == t then [s[0]] else []) + WithTimestamp(s[1..], t)
  }

  /** Insertion puts the new entry before every entry with the same timestamp, so the
      entries of each timestamp keep the order of `[e] + sorted`. */
  lemma InsertStable(e: LogEntry, sorted: seq<LogEntry>)
    requires NewestFirst(sorted)
    ensures forall t :: WithTimestamp(Insert(e, sorted), t) == WithTimestamp([e] + sorted, t)
  {
    forall t ensures WithTimestamp(Insert(e, sorted), t) == WithTimestamp([e] + sorted, t) {
      InsertStableAt(e, sorted, t);
    }
  }

  lemma {:induction false} InsertStableAt(e: LogEntry, sorted: seq<LogEntry>, t: string)
    requires NewestFirst(sorted)
    ensures WithTimestamp(Insert(e, sorted), t) == WithTimestamp([e] + sorted, t)
  {
    if sorted == [] {
      assert [e] + sorted == [e];
    } else if LexLessEq(sorted[0].timestamp, e.timestamp) {
      assert Insert(e, sorted) == [e] + sorted;
    } else {
      LexReflexive(e.timestamp);
      var x, rest := sorted[0], sorted[1..];
      NewestFirstTail(sorted);
      InsertStableAt(e, rest, t);
      assert Insert(e, sorted) == [x] + Insert(e, rest);
      assert sorted == [x] + rest;
      WithTimestampCons(x, Insert(e, rest), t);
      WithTimestampCons(e, rest, t);
      WithTimestampCons(e, sorted, t);
      WithTimestampCons(x, rest, t);
      StampsCommute(e, x, t, WithTimestamp(rest, t));
    }
  }

  lemma WithTimestampCons(x: LogEntry, s: seq<LogEntry>, t: string)
    ensures WithTimestamp([x] + s, t) == (if x.timestamp == t then [x] else []) + WithTimestamp(s, t)
  {
    assert ([x] + s)[1..] == s;
  }

  /** Entries of different timestamps never both pass the same filter, so their order
      does not matter to it. */
  lemma StampsCommute(e: LogEntry, x: LogEntry, t: string, others: seq<LogEntry>)
    requires e.timestamp != x.timestamp
    ensures var ex, xx := (if e.timestamp == t then [e] else []), (if x.timestamp == t then [x] else []);
      xx + (ex + others) == ex + (xx + others)
  {
    if e.timestamp == t {
      assert [] + ([e] + others) == [e] + ([] + others);
    } else if x.timestamp == t {
      assert [x] + ([] + others) == [] + ([x] + others);
    }
  }

  /** `sortedByDescending { it.timestamp }`: a stable sort, newest first. */
  function SortNewestFirst(s: seq<LogEntry>): (r: seq<LogEntry>)
    ensures NewestFirst(r)
    ensures multiset(r) == multiset(s)
    ensures forall t :: WithTimestamp(r, t) == WithTimestamp(s, t)
  {
    if s == [] then []
    else
      assert s == [s[0]] + s[1..];
      var sorted := SortNewestFirst(s[1..]);
      InsertStable(s[0], sorted);
      assert ([s[0]] + sorted)[1..] == sorted;
      Insert(s[0], sorted)
  }

  /** `loadLogEntriesFlow`: the stored entries, newest first. */
  function LoadLogEntries(stored: seq<LogEntry>): (r: seq<LogEntry>)
    ensures multiset(r) == multiset(stored) && |r| == |stored|
    ensures forall i, j :: 0 <= i < j < |r| ==> LexLessEq(r[j].timestamp, r[i].timestamp)
    ensures forall t :: WithTimestamp(r, t) == WithTimestamp(stored, t)
  {
    var r := SortNewestFirst(stored);
    assert |r| == |multiset(r)| == |multiset(stored)| == |stored|;
    NewestFirstPairwise(r);
    r
  }

  /** Neighbour-wise order gives order between any two positions. */
  lemma NewestFirstPairwise(s: seq<LogEntry>)
    requires NewestFirst(s)
    ensures forall i, j :: 0 <= i < j < |s| ==> LexLessEq(s[j].timestamp, s[i].timestamp)
  {
    forall i, j | 0 <= i < j < |s| ensures LexLessEq(s[j].timestamp, s[i].timestamp) {
      NewestFirstFrom(s, i, j);
    }
  }

  lemma {:induction false} NewestFirstFrom(s: seq<LogEntry>, i: nat, j: nat)
    requires NewestFirst(s) && i <= j < |s|
    ensures LexLessEq(s[j].timestamp, s[i].timestamp)
    decreases j - i
  {
    if i == j {
      LexReflexive(s[i].timestamp);
    } else {
      NewestFirstFrom(s, i + 1, j);
      LexTransitive(s[j].timestamp, s[i + 1].timestamp, s[i].timestamp);
    }
  }

  lemma {:induction false} LexReflexive(a: string)
    ensures LexLessEq(a, a)
    decreases |a|
  {
    if a != [] { LexReflexive(a[1..]); }
  }

  lemma {:induction false} LexTransitive(a: string, b: string, c: string)
    requires LexLessEq(a, b) && LexLessEq(b, c)
    ensures LexLessEq(a, c)
    decreases |a|
  {
    if a != [] && b != [] && c != [] && a[0] == b[0] && b[0] == c[0] {
      LexTransitive(a[1..], b[1..], c[1..]);
    }
  }

  // ----- notification text -----

  const TimeLabel := "\U{1F552} Time: "
  const ReceiverLabel := "\U{1F3E2} Receiver: "
  const SystemLabel := "\U{1F4BE} System: "
  const ActionLabel := "\U{1F4CB} Action: "

  /** `formatExpandedNotification`; `displayTime` stands for `formatDisplayTime`, whose
      result depends on the device locale. */
  function FormatExpandedNotification(entry: LogEntry, displayTime: string -> string): (r: string)
    ensures r == Join([TimeLabel + displayTime(entry.timestamp), ReceiverLabel + entry.receiver,
                       SystemLabel + entry.infoSystem, ActionLabel + entry.action], '\n')
  {
    JoinFour(TimeLabel + displayTime(entry.timestamp), ReceiverLabel + entry.receiver,
             SystemLabel + entry.infoSystem, ActionLabel + entry.action, '\n');
    TimeLabel + displayTime(entry.timestamp) + "\n"
    + ReceiverLabel + entry.receiver + "\n"
    + SystemLabel + entry.infoSystem + "\n"
    + ActionLabel + entry.action
  }

  /** The text is four labelled lines, Time, Receiver, System and Action, in that order. */
  lemma ExpandedNotificationLines(entry: LogEntry, displayTime: string -> string)
    requires '\n' !in displayTime(entry.timestamp)
    requires '\n' !in entry.receiver && '\n' !in entry.infoSystem && '\n' !in entry.action
    ensures Split(FormatExpandedNotification(entry, displayTime), '\n') ==
      [TimeLabel + displayTime(entry.timestamp), ReceiverLabel + entry.receiver,
       SystemLabel + entry.infoSystem, ActionLabel + entry.action]
  {
    LabelsAvoidNewline();
    var time, receiver := TimeLabel + displayTime(entry.timestamp), ReceiverLabel + entry.receiver;
    var system, action := SystemLabel + entry.infoSystem, ActionLabel + entry.action;
    assert FormatExpandedNotification(entry, displayTime) ==
      time + ['\n'] + receiver + ['\n'] + system + ['\n'] + action;
    SplitFour(time, receiver, system, action, '\n');
  }

  lemma LabelsAvoidNewline()
    ensures '\n' !in TimeLabel && '\n' !in ReceiverLabel && '\n' !in SystemLabel && '\n' !in ActionLabel
  {
  }
}
