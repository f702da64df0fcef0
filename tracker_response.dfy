/** The data tracker's usage response, as both polling components read it
    (ForegroundServiceMain.kt:96-114 and JwtExtentionWorker.kt:77-96): the
    `findUsageResponses` array of an object body, less the records the user caused. */
module TrackerResponse {
  import opened Wrappers
  import opened Collections
  import opened Text
  import opened Json

  /** A response body: a JSON document, or text that `parseToJsonElement` rejects. */
  datatype Body = Document(value: JsonValue) | NotJson

  /** Why parsing the response throws. */
  datatype PollError =
    | MalformedBody        // `parseToJsonElement` fails
    | BodyNotAnObject      // `.jsonObject` on the top-level element
    | RecordNotAnObject    // `.jsonObject` on a record inside the array
    | NoPersonalCode       // the stored personal code is absent (`!!`)

  const UsagesKey := "findUsageResponses"
  const ReceiverKey := "receiver"

  /** The records of the body's `findUsageResponses` array; a missing key or a value
      that is not an array gives no records. */
  function UsageRecords(body: Body): (r: Result<seq<JsonValue>, PollError>)
    ensures body.NotJson? <==> r == Err(MalformedBody)
    ensures body.Document? && !body.value.JObject? <==> r == Err(BodyNotAnObject)
    ensures r.Ok? && r.value != [] ==>
      body.Document? && body.value.JObject? && UsagesKey in body.value.fields
      && body.value.fields[UsagesKey] == JArray(r.value)
    ensures (body.Document? && body.value.JObject? && UsagesKey in body.value.fields
             && body.value.fields[UsagesKey].JArray?) ==> r == Ok(body.value.fields[UsagesKey].items)
    ensures (body.Document? && body.value.JObject?
             && !(UsagesKey in body.value.fields && body.value.fields[UsagesKey].JArray?)) ==> r == Ok([])
  {
    match body
    case NotJson => Err(MalformedBody)
    case Document(v) =>
      if !v.JObject? then Err(BodyNotAnObject)
      else if UsagesKey in v.fields && v.fields[UsagesKey].JArray? then Ok(v.fields[UsagesKey].items)
      else Ok([])
  }

  /** A record the user caused: its `receiver`, rendered as JSON text (`toString`, so a
      string keeps its quotes), contains the personal code. */
  predicate SelfCaused(record: JsonValue, personalCode: string, render: JsonValue -> string) {
    record.JObject? && ReceiverKey in record.fields
    && Contains(render(record.fields[ReceiverKey]), personalCode)
  }

  /** `filterNot` over the records. The personal code is read, and each record is taken
      as an object, only while a record is examined, so an empty array never fails. */
  function DropSelfCaused(records: seq<JsonValue>, personalCode: Option<string>, render: JsonValue -> string)
    : (r: Result<seq<JsonValue>, PollError>)
    ensures r.Ok? <==>
      records == [] || (personalCode.Some? && forall k :: 0 <= k < |records| ==> records[k].JObject?)
    ensures records == [] ==> r == Ok([])
    ensures r.Err? && personalCode.None? ==> r.error == NoPersonalCode
    ensures r.Err? && personalCode.Some? ==> r.error == RecordNotAnObject
    ensures r.Ok? && records != [] ==>
      r.value == Filter((e: JsonValue) => !SelfCaused(e, personalCode.value, render), records)
  {
    if records == [] then Ok([])
    else if personalCode.None? then Err(NoPersonalCode)
    else if !records[0].JObject? then Err(RecordNotAnObject)
    else
      var rest := DropSelfCaused(records[1..], personalCode, render);
      if rest.Err? then rest
      else if SelfCaused(records[0], personalCode.value, render) then rest
      else Ok([records[0]] + rest.value)
  }

  /** The records that `parseDataTrackerResponseBody` keeps, in their order. */
  function KeptRecords(body: Body, personalCode: Option<string>, render: JsonValue -> string)
    : (r: Result<seq<JsonValue>, PollError>)
    ensures body.NotJson? ==> r == Err(MalformedBody)
    ensures r.Ok? ==> body.Document? && body.value.JObject?
    ensures r.Ok? ==> forall k :: 0 <= k < |r.value| ==> r.value[k] in UsageRecords(body).value
  {
    var records := UsageRecords(body);
    if records.Err? then Err(records.error) else DropSelfCaused(records.value, personalCode, render)
  }

  /** Every kept record is one of the body's records that the user did not cause, and
      every such record is kept. */
  lemma KeptRecordsAreOthers(body: Body, personalCode: Option<string>, render: JsonValue -> string)
    requires KeptRecords(body, personalCode, render).Ok?
    requires UsageRecords(body).Ok?
    ensures var kept := KeptRecords(body, personalCode, render).value;
      var records := UsageRecords(body).value;
      (forall k :: 0 <= k < |kept| ==> kept[k] in records && !SelfCaused(kept[k], personalCode.value, render))
      && (forall k :: 0 <= k < |records| && !SelfCaused(records[k], personalCode.value, render) ==>
            records[k] in kept)
  {
  }

  /** A body without usable `findUsageResponses` yields no records, whatever is stored. */
  lemma NoArrayNoRecords(fields: map<string, JsonValue>, personalCode: Option<string>, render: JsonValue -> string)
    requires UsagesKey !in fields || !fields[UsagesKey].JArray?
    ensures KeptRecords(Document(JObject(fields)), personalCode, render) == Ok([])
  {
  }

  /** `map { it.toString() }`: the text of each record. */
  function Texts(records: seq<JsonValue>, render: JsonValue -> string): (r: seq<string>)
    ensures |r| == |records|
    ensures forall k :: 0 <= k < |records| ==> r[k] == render(records[k])
  {
    seq(|records|, k requires 0 <= k < |records| => render(records[k]))
  }
}
