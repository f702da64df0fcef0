/** The second revision of the log-entry manager (app/.../access_logs/LogEntryManager.kt):
    the JSON object is first decoded into `LogEntryJson` with nullable fields, and only
    the fields that are present are copied into the record, which keeps its other
    fields, and its content hash, at "". */
module AccessLogEntries {
  import opened Wrappers
  import opened LogEntries

  /** `LogEntryJson`: each field is absent (`null`) or a string. */
  datatype LogEntryJson = LogEntryJson(
    logTime: Option<string>,
    receiver: Option<string>,
    infoSystemCode: Option<string>,
    action: Option<string>)

  /** `parseLogEntry`: the builder starts from the default record and each non-null
      field is set on it. */
  function ParseLogEntry(json: LogEntryJson): (r: LogEntry)
    ensures json.logTime.Some? ==> r.timestamp == json.logTime.value
    ensures json.receiver.Some? ==> r.receiver == json.receiver.value
    ensures json.infoSystemCode.Some? ==> r.infoSystem == json.infoSystemCode.value
    ensures json.action.Some? ==> r.action == json.action.value
    ensures json.logTime.None? ==> r.timestamp == ""
    ensures json.receiver.None? ==> r.receiver == ""
    ensures json.infoSystemCode.None? ==> r.infoSystem == ""
    ensures json.action.None? ==> r.action == ""
    ensures r.contentHash == ""
  {
    var empty := LogEntry("", "", "", "", "");
    var b1 := if json.logTime.Some? then empty.(timestamp := json.logTime.value) else empty;
    var b2 := if json.receiver.Some? then b1.(receiver := json.receiver.value) else b1;
    var b3 := if json.infoSystemCode.Some? then b2.(infoSystem := json.infoSystemCode.value) else b2;
    if json.action.Some? then b3.(action := json.action.value) else b3
  }

  /** Since the hash is never set, two parsed records are equal exactly when their four
      fields are. */
  lemma ParsedEqualityByFields(a: LogEntryJson, b: LogEntryJson)
    ensures ParseLogEntry(a) == ParseLogEntry(b) <==>
      && ParseLogEntry(a).timestamp == ParseLogEntry(b).timestamp
      && ParseLogEntry(a).receiver == ParseLogEntry(b).receiver
      && ParseLogEntry(a).infoSystem == ParseLogEntry(b).infoSystem
      && ParseLogEntry(a).action == ParseLogEntry(b).action
  {
  }

  /** `parseLogEntries`: one record per element, in order. */
  function ParseLogEntries(elements: seq<LogEntryJson>): (r: seq<LogEntry>)
    ensures |r| == |elements|
    ensures forall k :: 0 <= k < |elements| ==> r[k] == ParseLogEntry(elements[k])
  {
    if elements == [] then []
    else [ParseLogEntry(elements[0])] + ParseLogEntries(elements[1..])
  }

  /** `loadLogEntriesFlow`: the stored records, newest first (the same ordering as in the
      first revision). */
  function LoadLogEntries(stored: seq<LogEntry>): (r: seq<LogEntry>)
    ensures multiset(r) == multiset(stored)
    ensures forall i, j :: 0 <= i < j < |r| ==> Text.LexLessEq(r[j].timestamp, r[i].timestamp)
    ensures forall t :: LogEntries.WithTimestamp(r, t) == LogEntries.WithTimestamp(stored, t)
  {
    LogEntries.LoadLogEntries(stored)
  }

  /** `formatExpandedNotification`: the same four labelled lines as the first revision;
      only `formatDisplayTime`, passed as `displayTime`, differs. */
  lemma ExpandedNotificationLines(json: LogEntryJson, displayTime: string -> string)
    requires var e := ParseLogEntry(json);
      '\n' !in displayTime(e.timestamp) && '\n' !in e.receiver && '\n' !in e.infoSystem && '\n' !in e.action
    ensures var e := ParseLogEntry(json);
      Text.Split(FormatExpandedNotification(e, displayTime), '\n') ==
        [TimeLabel + displayTime(e.timestamp), ReceiverLabel + e.receiver,
         SystemLabel + e.infoSystem, ActionLabel + e.action]
  {
    LogEntries.ExpandedNotificationLines(ParseLogEntry(json), displayTime);
  }
}
