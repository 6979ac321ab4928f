/** Export jobs and their entities as the ingest API represents them
    (exporter/ingest/export_job.py). */
module ExportJobs {
  import opened Wrappers
  import opened Json
  import opened Strings

  // --------------------------------------------------------------- entities

  datatype ExportError = ExportError(message: string)

  /** One exported assay, with the errors met while exporting it. */
  datatype ExportEntity = ExportEntity(assayProcessId: Json, errors: seq<ExportError>)

  function ErrorToDict(e: ExportError): Json {
    JObj(map["message" := JStr(e.message), "errorCode" := JInt(-1), "details" := JObj(map[])])
  }

  function ErrorsToJson(errors: seq<ExportError>): (r: seq<Json>)
    ensures |r| == |errors|
    ensures forall i :: 0 <= i < |errors| ==> r[i] == ErrorToDict(errors[i])
  {
    seq(|errors|, i requires 0 <= i < |errors| => ErrorToDict(errors[i]))
  }

  /** `ExportEntity.to_dict` */
  function EntityToDict(e: ExportEntity): Json {
    JObj(map[
      "status" := JStr(StateValue(Exported)),
      "context" := JObj(map["assayProcessId" := e.assayProcessId]),
      "errors" := JArr(ErrorsToJson(e.errors))])
  }

  /** An error read back from its serialisation. */
  function ErrorOfDict(j: Json): Option<ExportError> {
    match Get(j, "message")
    case Ok(JStr(m)) => Some(ExportError(m))
    case _ => None
  }

  /** An entity read back from its serialisation. */
  function EntityOfDict(j: Json): Option<ExportEntity> {
    match (GetPath(j, ["context", "assayProcessId"]), Get(j, "errors"))
    case (Ok(id), Ok(JArr(items))) =>
      if forall i :: 0 <= i < |items| ==> ErrorOfDict(items[i]).Some? then
        Some(ExportEntity(id, seq(|items|, i requires 0 <= i < |items| => ErrorOfDict(items[i]).value)))
      else None
    case _ => None
  }

  /** Every entity is sent as EXPORTED; each error carries code -1 and empty
      details; and nothing is lost: the entity, its errors in order, reads
      back from what is sent. */
  lemma EntityToDictSpec(e: ExportEntity)
    ensures var d := EntityToDict(e);
      && Get(d, "status") == Ok(JStr("EXPORTED"))
      && GetPath(d, ["context", "assayProcessId"]) == Ok(e.assayProcessId)
      && (forall i :: 0 <= i < |e.errors| ==>
            Get(d.fields["errors"].items[i], "errorCode") == Ok(JInt(-1))
            && Get(d.fields["errors"].items[i], "details") == Ok(JObj(map[])))
      && EntityOfDict(d) == Some(e)
  {
    var d := EntityToDict(e);
    GetPathTwo(d, "context", "assayProcessId");
    ErrorsReadBack(e.errors);
  }

  lemma ErrorsReadBack(errors: seq<ExportError>)
    ensures var items := ErrorsToJson(errors);
      && (forall i :: 0 <= i < |items| ==> ErrorOfDict(items[i]) == Some(errors[i]))
      && seq(|items|, i requires 0 <= i < |items| => ErrorOfDict(items[i]).value) == errors
  {
    var items := ErrorsToJson(errors);
    assert forall i :: 0 <= i < |items| ==> ErrorOfDict(items[i]) == Some(errors[i]);
  }

  // ------------------------------------------------------------------- jobs

  datatype ExportJobState = Exporting | Exported | Deprecated | Failed

  function StateValue(s: ExportJobState): string {
    match s
    case Exporting => "EXPORTING"
    case Exported => "EXPORTED"
    case Deprecated => "DEPRECATED"
    case Failed => "FAILED"
  }

  /** `ExportJobState(value)`: ValueError for anything but the four values. */
  function ParseState(value: string): (r: Result<ExportJobState>)
    ensures r.Err? ==> r.error == ValueError
  {
    if value == "EXPORTING" then Ok(Exporting)
    else if value == "EXPORTED" then Ok(Exported)
    else if value == "DEPRECATED" then Ok(Deprecated)
    else if value == "FAILED" then Ok(Failed)
    else Err(ValueError)
  }

  /** The four values name the four states, and nothing else does. */
  lemma ParseStateInverse(value: string, s: ExportJobState)
    ensures ParseState(StateValue(s)) == Ok(s)
    ensures ParseState(value).Ok? ==> StateValue(ParseState(value).value) == value
  {
  }

  /** `int(j)` for the values a count may take: an integer, a boolean, or a
      string of decimal digits with an optional '-'; ValueError for another
      string, TypeError for None, a list or a dict. */
  function PyInt(j: Json): (r: Result<int>)
    ensures r.Err? ==> r.error == (if j.JStr? then ValueError else TypeError)
  {
    match j
    case JInt(i) => Ok(i)
    case JBool(b) => Ok(if b then 1 else 0)
    case JStr(s) =>
      if |s| > 0 && AllDigits(s) then Ok(DigitsValue(s))
      else if |s| > 1 && s[0] == '-' && AllDigits(s[1..]) then Ok(0 - DigitsValue(s[1..]))
      else Err(ValueError)
    case _ => Err(TypeError)
  }

  /** A count rendered by `str` reads back as itself. */
  lemma PyIntOfString(i: int)
    ensures PyInt(JStr(IntToString(i))) == Ok(i)
  {
    if i < 0 {
      var s := "-" + NatToString(-i);
      assert s[1..] == NatToString(-i);
      assert !IsDigit(s[0]);
    }
  }

  datatype ExportJob = ExportJob(
    jobId: string,
    numExpectedAssays: int,
    exportState: ExportJobState,
    isDataTransferComplete: Json)

  /** Everything `from_dict` reads after the job id, in order: the count,
      the transfer flag and the state. */
  function JobFields(data: Json): Result<(int, Json, ExportJobState)> {
    var countValue :- GetPath(data, ["context", "totalAssayCount"]);
    var count :- PyInt(countValue);
    var context := data.fields["context"];
    var transfer := if "isDataTransferComplete" in context.fields then context.fields["isDataTransferComplete"] else JNull;
    var status :- Get(data, "status");
    if !status.JStr? then Err(AttributeError)
    else
      var state :- ParseState(Upper(status.s));
      Ok((count, transfer, state))
  }

  function JobOfDict(data: Json, jobId: string): Result<ExportJob> {
    var (count, transfer, state) :- JobFields(data);
    Ok(ExportJob(jobId, count, state, transfer))
  }

  /** `ExportJob.from_dict` as written: the job id is the text before the
      first '/' of the self link. */
  function FromDictAsWritten(data: Json): Result<ExportJob> {
    var href :- GetPath(data, ["_links", "self", "href"]);
    JobOfDict(data, JobIdAsWritten(PyStrText(href)))
  }

  /** `str(href).split("/")[0]` */
  function JobIdAsWritten(text: string): string {
    Split(text, "/")[0]
  }

  /** Of a URL, that is its scheme. */
  lemma JobIdAsWrittenOfUrl(scheme: string, rest: string)
    requires '/' !in scheme
    ensures JobIdAsWritten(scheme + "/" + rest) == scheme
  {
    var href := scheme + "/" + rest;
    assert href[..|scheme|] == scheme && href[|scheme|..|scheme| + 1] == "/";
    NoOccurrenceInPrefix(href, scheme, "/");
    SplitAtFirst(href, "/", |scheme|);
  }

  /** `ExportJob.from_dict` with the job id taken as the last segment of the
      self link, '.../exportJobs/{id}'. */
  function FromDict(data: Json): Result<ExportJob> {
    var href :- GetPath(data, ["_links", "self", "href"]);
    JobOfDict(data, LastSegment(PyStrText(href)))
  }

  /** A job as the ingest API lists it. */
  function JobDict(href: string, count: Json, status: string, context: map<string, Json>): Json {
    JObj(map[
      "_links" := JObj(map["self" := JObj(map["href" := JStr(href)])]),
      "context" := JObj(context["totalAssayCount" := count]),
      "status" := JStr(status)])
  }

  /** The last segment of '{api}/exportJobs/{id}' is the id. */
  lemma LastSegmentOfJobUrl(api: string, id: string)
    requires '/' !in id
    ensures LastSegment(api + "/exportJobs/" + id) == id
  {
    var s := api + "/exportJobs/" + id;
    var r := LastSegment(s);
    assert s[|s| - |id|..] == id;
    assert s[|s| - |id| - 1] == '/';
  }

  /** Reading a job listed under '{api}/exportJobs/{id}': its id, its
      expected count, its state whatever the case of the status, and its
      transfer flag, None when absent.  An unknown status raises
      ValueError. */
  lemma FromDictOfJob(api: string, id: string, count: int, status: string, context: map<string, Json>)
    requires '/' !in id
    ensures var r := FromDict(JobDict(api + "/exportJobs/" + id, JInt(count), status, context));
      && (r.Ok? <==> ParseState(Upper(status)).Ok?)
      && (r.Err? ==> r.error == ValueError)
      && (r.Ok? ==>
            && r.value.jobId == id
            && r.value.numExpectedAssays == count
            && StateValue(r.value.exportState) == Upper(status)
            && r.value.isDataTransferComplete ==
                 (if "isDataTransferComplete" in context then context["isDataTransferComplete"] else JNull))
  {
    var href := api + "/exportJobs/" + id;
    JobDictHref(href, JInt(count), status, context);
    JobDictFields(href, count, status, context);
    LastSegmentOfJobUrl(api, id);
    if ParseState(Upper(status)).Ok? {
      ParseStateInverse(Upper(status), ParseState(Upper(status)).value);
    }
  }

  lemma JobDictHref(href: string, count: Json, status: string, context: map<string, Json>)
    ensures GetPath(JobDict(href, count, status, context), ["_links", "self", "href"]) == Ok(JStr(href))
  {
    var d := JobDict(href, count, status, context);
    GetPathThree(d, "_links", "self", "href");
    GetPathTwo(d.fields["_links"], "self", "href");
  }

  lemma JobDictFields(href: string, count: int, status: string, context: map<string, Json>)
    ensures JobFields(JobDict(href, JInt(count), status, context))
         == (if ParseState(Upper(status)).Ok? then
               Ok((count, if "isDataTransferComplete" in context then context["isDataTransferComplete"] else JNull,
                   ParseState(Upper(status)).value))
             else Err(ValueError))
  {
    var d := JobDict(href, JInt(count), status, context);
    GetPathTwo(d, "context", "totalAssayCount");
  }

  /** 'Exported' is read as EXPORTED. */
  lemma StatusCaseIgnored()
    ensures ParseState(Upper("Exported")) == Ok(Exported)
  {
    assert Upper("Exported") == "EXPORTED";
  }

  /** A job without a context, or without a count in it, cannot be read. */
  lemma FromDictNoCount(links: Json, context: map<string, Json>, status: Json)
    requires "totalAssayCount" !in context
    ensures FromDict(JObj(map["_links" := links, "status" := status])).Err?
    ensures FromDict(JObj(map["_links" := links, "context" := JObj(context), "status" := status])).Err?
  {
    NoCount(JObj(map["_links" := links, "status" := status]));
    NoCount(JObj(map["_links" := links, "context" := JObj(context), "status" := status]));
  }

  lemma NoCount(d: Json)
    requires d.JObj? && ("context" !in d.fields || (d.fields["context"].JObj? && "totalAssayCount" !in d.fields["context"].fields))
    ensures FromDict(d).Err?
  {
    GetPathTwo(d, "context", "totalAssayCount");
  }

  /** The two readings agree on everything but the job id. */
  lemma AsWrittenDiffersOnlyInId(data: Json)
    ensures FromDictAsWritten(data).Ok? <==> FromDict(data).Ok?
    ensures FromDict(data).Ok? ==>
      var text := PyStrText(GetPath(data, ["_links", "self", "href"]).value);
      FromDictAsWritten(data) == Ok(FromDict(data).value.(jobId := JobIdAsWritten(text)))
  {
  }

  /** As written, the id of a job listed under 'http://x/exportJobs/j1' is
      'http:'. */
  lemma ExampleJobIdAsWritten(scheme: string, rest: string)
    requires scheme == "http:" && rest == "//x/exportJobs/j1"
    ensures JobIdAsWritten(scheme + rest) == "http:"
  {
    assert rest == "/" + rest[1..];
    assert scheme + rest == scheme + "/" + rest[1..];
    JobIdAsWrittenOfUrl(scheme, rest[1..]);
  }

  /** Its last segment is 'j1'. */
  lemma ExampleJobIdCorrected(api: string, id: string)
    requires api == "http://x" && id == "j1"
    ensures LastSegment(api + "/exportJobs/" + id) == "j1"
  {
    LastSegmentOfJobUrl(api, id);
  }
}
