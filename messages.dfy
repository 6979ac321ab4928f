/** The bodies of the queue messages the exporter consumes:
    `ExperimentMessage` (exporter/terra/experiment/message.py, and its copy
    with `as_dict` in exporter/terra/listener.py) and
    `SubmissionExportMessage` (exporter/terra/submission/message.py). */
module Messages {
  import opened Wrappers
  import opened Json

  /** `json.loads(body)`: the decoded document, or None when the body is not
      JSON. */
  function Loads(body: Option<Json>): (r: Result<Json>)
    ensures r.Err? <==> body.None?
    ensures r.Err? ==> r.error == JsonDecodeError
  {
    if body.Some? then Ok(body.value) else Err(JsonDecodeError)
  }

  // ------------------------------------------------------- experiment message

  /** The values are copied without type checks. */
  datatype ExperimentMessage = ExperimentMessage(
    processId: Json,
    processUuid: Json,
    submissionUuid: Json,
    experimentIndex: Json,
    total: Json,
    jobId: Json)

  const ExperimentKeys: set<string> := {"documentId", "documentUuid", "envelopeUuid", "index", "total", "exportJobId"}

  /** `ExperimentMessage.from_dict`: six lookups, in order; a missing key or
      a body that is not a dict raises `ExperimentMessageParseException`. */
  function ExperimentFromDict(data: Json): (r: Result<ExperimentMessage>)
    ensures r.Err? ==> r.error == ExperimentMessageParseException
  {
    ConvertLookupError(
      var processId :- Get(data, "documentId");
      var processUuid :- Get(data, "documentUuid");
      var submissionUuid :- Get(data, "envelopeUuid");
      var index :- Get(data, "index");
      var total :- Get(data, "total");
      var jobId :- Get(data, "exportJobId");
      Ok(ExperimentMessage(processId, processUuid, submissionUuid, index, total, jobId)),
      ExperimentMessageParseException)
  }

  /** `ExperimentMessage.as_dict` */
  function ExperimentAsDict(m: ExperimentMessage): Json {
    JObj(map[
      "documentId" := m.processId,
      "documentUuid" := m.processUuid,
      "envelopeUuid" := m.submissionUuid,
      "index" := m.experimentIndex,
      "total" := m.total,
      "exportJobId" := m.jobId])
  }

  /** A body decodes exactly when it is a dict holding the six keys, and
      then each field is the value under its key. */
  lemma ExperimentFromDictSpec(data: Json)
    ensures ExperimentFromDict(data).Ok? <==> data.JObj? && ExperimentKeys <= data.fields.Keys
    ensures ExperimentFromDict(data).Ok? ==>
      var m := ExperimentFromDict(data).value;
      && m.processId == data.fields["documentId"]
      && m.processUuid == data.fields["documentUuid"]
      && m.submissionUuid == data.fields["envelopeUuid"]
      && m.experimentIndex == data.fields["index"]
      && m.total == data.fields["total"]
      && m.jobId == data.fields["exportJobId"]
  {
  }

  /** Encoding then decoding gives the message back. */
  lemma ExperimentRoundTrip(m: ExperimentMessage)
    ensures ExperimentFromDict(ExperimentAsDict(m)) == Ok(m)
  {
  }

  /** Decoding then encoding gives the body restricted to the six keys:
      other keys are dropped. */
  lemma ExperimentAsDictFromDict(data: Json)
    requires ExperimentFromDict(data).Ok?
    ensures ExperimentAsDict(ExperimentFromDict(data).value) ==
      JObj(map k | k in data.fields && k in ExperimentKeys :: data.fields[k])
  {
    ExperimentFromDictSpec(data);
    var lhs := ExperimentAsDict(ExperimentFromDict(data).value).fields;
    var rhs := map k | k in data.fields && k in ExperimentKeys :: data.fields[k];
    assert lhs.Keys == rhs.Keys;
  }

  // ------------------------------------------------------- submission message

  /** `SubmissionExportMessage` (and, by the same `get`-based decoding, the
      spreadsheet messages): every field may be None. */
  datatype SubmissionExportMessage = SubmissionExportMessage(
    jobId: Json,
    submissionUuid: Json,
    projectUuid: Json,
    callbackLink: Json,
    context: Json)

  const SubmissionKeys: set<string> := {"exportJobId", "submissionUuid", "projectUuid", "callbackLink", "context"}

  /** `SubmissionExportMessage(msg)`: five `msg.get` calls; only a dict has
      `get`. */
  function SubmissionFromDict(msg: Json): Result<SubmissionExportMessage> {
    var jobId :- DictGet(msg, "exportJobId");
    var submissionUuid :- DictGet(msg, "submissionUuid");
    var projectUuid :- DictGet(msg, "projectUuid");
    var callbackLink :- DictGet(msg, "callbackLink");
    var context :- DictGet(msg, "context");
    Ok(SubmissionExportMessage(jobId, submissionUuid, projectUuid, callbackLink, context))
  }

  /** Decoding a dict never raises; a missing key gives None; keys other
      than the five are ignored. */
  lemma SubmissionFromDictSpec(fields: map<string, Json>)
    ensures SubmissionFromDict(JObj(fields)).Ok?
    ensures var m := SubmissionFromDict(JObj(fields)).value;
      && m.jobId == (if "exportJobId" in fields then fields["exportJobId"] else JNull)
      && m.submissionUuid == (if "submissionUuid" in fields then fields["submissionUuid"] else JNull)
      && m.projectUuid == (if "projectUuid" in fields then fields["projectUuid"] else JNull)
      && m.callbackLink == (if "callbackLink" in fields then fields["callbackLink"] else JNull)
      && m.context == (if "context" in fields then fields["context"] else JNull)
    ensures SubmissionFromDict(JObj(fields)) ==
      SubmissionFromDict(JObj(map k | k in fields && k in SubmissionKeys :: fields[k]))
  {
  }

  /** Only a dict can be decoded. */
  lemma SubmissionFromNonDict(msg: Json)
    requires !msg.JObj?
    ensures SubmissionFromDict(msg) == Err(AttributeError)
  {
  }
}
