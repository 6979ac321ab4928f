/** The four queue-message handlers: experiment export
    (exporter/terra/experiment/handler.py), data-file transfer
    (exporter/terra/submission/handler.py), spreadsheet export
    (exporter/terra/spreadsheet/handler.py) and spreadsheet generation
    (exporter/ingest/spreadsheet/handler.py).  Each builds a logging context
    from the body and handles the message by a fixed sequence of calls on
    its collaborators, ending with the ack. */
module Handlers {
  import opened Wrappers
  import opened Json
  import opened Strings
  import opened Effects
  import opened Messages

  datatype HandlerKind =
    | ExperimentHandler
    | SubmissionHandler
    | SpreadsheetExportHandler
    | SpreadsheetGenerationHandler

  // ----------------------------------------------------------------- context

  /** `body.get(key)` of a dict. */
  function Field(fields: map<string, Json>, key: string): Json {
    if key in fields then fields[key] else JNull
  }

  /** `set_context`: the body's `get` values under the context's names; only
      a dict has `get`. */
  function ContextOf(kind: HandlerKind, body: Json): (r: Result<map<string, Json>>)
    ensures r.Err? <==> !body.JObj?
    ensures r.Err? ==> r.error == AttributeError
  {
    if !body.JObj? then Err(AttributeError)
    else if kind == ExperimentHandler then
      var index := Field(body.fields, "index");
      var total := Field(body.fields, "total");
      Ok(map[
        "submission_uuid" := Field(body.fields, "envelopeUuid"),
        "export_job_id" := Field(body.fields, "exportJobId"),
        "project_uuid" := Field(body.fields, "projectUuid"),
        "process_uuid" := Field(body.fields, "documentUuid"),
        "index" := JStr(PyStrText(index) + "/" + PyStrText(total))])
    else
      Ok(map[
        "submission_uuid" := Field(body.fields, "submissionUuid"),
        "export_job_id" := Field(body.fields, "exportJobId"),
        "project_uuid" := Field(body.fields, "projectUuid")])
  }

  /** Every handler's context names the submission, the export job and the
      project; the experiment handler's also names the process and the
      message's place in the experiment. */
  lemma ContextSpec(kind: HandlerKind, fields: map<string, Json>)
    ensures var r := ContextOf(kind, JObj(fields));
      && r.Ok?
      && r.value["export_job_id"] == Field(fields, "exportJobId")
      && r.value["project_uuid"] == Field(fields, "projectUuid")
      && (kind == ExperimentHandler ==>
            && r.value.Keys == {"submission_uuid", "export_job_id", "project_uuid", "process_uuid", "index"}
            && r.value["submission_uuid"] == Field(fields, "envelopeUuid")
            && r.value["process_uuid"] == Field(fields, "documentUuid"))
      && (kind != ExperimentHandler ==>
            && r.value.Keys == {"submission_uuid", "export_job_id", "project_uuid"}
            && r.value["submission_uuid"] == Field(fields, "submissionUuid"))
  {
  }

  /** The experiment's place reads 'index/total', and splits back into the
      two numbers. */
  lemma ContextIndex(fields: map<string, Json>, index: nat, total: nat)
    requires Field(fields, "index") == JInt(index) && Field(fields, "total") == JInt(total)
    ensures var text := ContextOf(ExperimentHandler, JObj(fields)).value["index"];
      && text == JStr(NatToString(index) + "/" + NatToString(total))
      && Split(text.s, "/") == [NatToString(index), NatToString(total)]
  {
    var a, b := NatToString(index), NatToString(total);
    CharFree(a, '/');
    CharFree(b, '/');
    SplitAfterFirst(a, "/", b);
    SplitFree(b, "/");
  }

  // ----------------------------------------------------------------- calls

  /** The experiment handler's calls: export the process, record the assay
      on the export job, publish the body unchanged, ack. */
  function ExperimentCalls(body: Json, m: ExperimentMessage): seq<Call> {
    [ExportExperiment(m.processUuid), CreateExportEntity(m.jobId, m.processId), Publish(body), Ack]
  }

  /** The transfer handler's calls: start the transfer, record STARTED, ack. */
  function SubmissionCalls(m: SubmissionExportMessage): seq<Call> {
    [StartDataFileTransfer(m.jobId, m.submissionUuid, m.projectUuid), SetDataFileTransfer(m.jobId, Started), Ack]
  }

  /** The spreadsheet export handler's calls: record STARTED, export the
      spreadsheet, record COMPLETE, ack. */
  function SpreadsheetExportCalls(m: SubmissionExportMessage): seq<Call> {
    [SetSpreadsheetGeneration(m.jobId, Started), ExportSpreadsheet(m.projectUuid, m.submissionUuid),
     SetSpreadsheetGeneration(m.jobId, Complete), Ack]
  }

  /** The spreadsheet generation handler's calls after starting the
      generation: record the generation's id on the export job, ack. */
  function GenerationCalls(m: SubmissionExportMessage, generationId: Json): seq<Call> {
    [SetSpreadsheetGenerationId(m.jobId, generationId), Ack]
  }

  /** What `handle_message` does, given how the calls go. */
  function Handle(kind: HandlerKind, body: Json, env: Env): Execution {
    match kind
    case ExperimentHandler =>
      var m := ExperimentFromDict(body);
      if m.Err? then Execution([], Err(m.error))
      else Run(Sequence(ExperimentCalls(body, m.value)), env)
    case SubmissionHandler =>
      var m := SubmissionFromDict(body);
      if m.Err? then Execution([], Err(m.error))
      else Run(Sequence(SubmissionCalls(m.value)), env)
    case SpreadsheetExportHandler =>
      var m := SubmissionFromDict(body);
      if m.Err? then Execution([], Err(m.error))
      else Run(Sequence(SpreadsheetExportCalls(m.value)), env)
    case SpreadsheetGenerationHandler =>
      var m := SubmissionFromDict(body);
      if m.Err? then Execution([], Err(m.error))
      else Generate(m.value, env)
  }

  /** The spreadsheet generation handler once the message is decoded: the
      generation is started and its answer is the id recorded next. */
  function Generate(m: SubmissionExportMessage, env: Env): Execution {
    var start := StartSpreadsheetGeneration(m.submissionUuid);
    var generationId := Outcome(start, env);
    if generationId.Err? then Execution([start], Err(generationId.error))
    else
      var rest := Run(Sequence(GenerationCalls(m, generationId.value)), env);
      Execution([start] + rest.trace, rest.result)
  }

  // ---------------------------------------------------------------- lemmas

  /** The experiment handler: a body missing a message field raises before
      anything is exported; otherwise the calls are made in order up to the
      first that raises, so a failed export is followed by nothing, and the
      message is acked only after everything else succeeded. */
  lemma ExperimentHandlerSpec(body: Json, env: Env)
    ensures var x := Handle(ExperimentHandler, body, env);
      && (ExperimentFromDict(body).Err? ==> x == Execution([], Err(ExperimentMessageParseException)))
      && (ExperimentFromDict(body).Ok? ==>
            var calls := ExperimentCalls(body, ExperimentFromDict(body).value);
            && 1 <= |x.trace| && x.trace <= calls
            && (calls[0] in env.failures ==> x.trace == [calls[0]] && x.result.Err?)
            && (Ack in x.trace ==> x.trace == calls)
            && (x.result.Ok? <==> forall i :: 0 <= i < |calls| ==> calls[i] !in env.failures))
  {
    if ExperimentFromDict(body).Ok? {
      var calls := ExperimentCalls(body, ExperimentFromDict(body).value);
      RunSequence(calls, env);
      RunSequenceOk(calls, env);
      RunSequenceCons(calls[0], calls[1..], env);
      assert [calls[0]] + calls[1..] == calls;
    }
  }

  /** The transfer handler: STARTED is recorded only after the transfer
      started, the ack comes last, and the job's transfer is only ever set
      to STARTED. */
  lemma SubmissionHandlerSpec(fields: map<string, Json>, env: Env)
    ensures var x := Handle(SubmissionHandler, JObj(fields), env);
      var calls := SubmissionCalls(SubmissionFromDict(JObj(fields)).value);
      && SubmissionFromDict(JObj(fields)).Ok?
      && 1 <= |x.trace| && x.trace <= calls
      && (calls[0] in env.failures ==> x.trace == [calls[0]] && x.result.Err?)
      && (Ack in x.trace ==> x.trace == calls)
      && (x.result.Ok? <==> forall i :: 0 <= i < |calls| ==> calls[i] !in env.failures)
      && forall c :: c in x.trace && c.SetDataFileTransfer? ==> c.state == Started
  {
    SubmissionFromDictSpec(fields);
    var calls := SubmissionCalls(SubmissionFromDict(JObj(fields)).value);
    ThreeCalls(calls, env);
  }

  /** A sequence of three calls runs a prefix of them; the first failing
      stops the run there; the last call is made only when all three are;
      the run succeeds exactly when none fails. */
  lemma ThreeCalls(calls: seq<Call>, env: Env)
    requires |calls| == 3
    ensures var x := Run(Sequence(calls), env);
      && 1 <= |x.trace| && x.trace <= calls
      && (calls[0] in env.failures ==> x.trace == [calls[0]] && x.result.Err?)
      && (calls[2] in x.trace && calls[2] !in calls[..2] ==> x.trace == calls)
      && (x.result.Ok? <==> forall i :: 0 <= i < |calls| ==> calls[i] !in env.failures)
  {
    RunSequence(calls, env);
    RunSequenceOk(calls, env);
    RunSequenceCons(calls[0], calls[1..], env);
    assert [calls[0]] + calls[1..] == calls;
  }

  /** The spreadsheet export handler: STARTED is recorded first; a failed
      export leaves STARTED recorded and COMPLETE never; both records are
      for the message's job; the ack comes last. */
  lemma SpreadsheetExportHandlerSpec(fields: map<string, Json>, env: Env)
    ensures var x := Handle(SpreadsheetExportHandler, JObj(fields), env);
      var m := SubmissionFromDict(JObj(fields)).value;
      var calls := SpreadsheetExportCalls(m);
      && SubmissionFromDict(JObj(fields)).Ok?
      && 1 <= |x.trace| && x.trace <= calls
      && (calls[0] !in env.failures && calls[1] in env.failures ==>
            x.trace == [SetSpreadsheetGeneration(m.jobId, Started), calls[1]] && x.result.Err?)
      && (Ack in x.trace ==> x.trace == calls)
      && (x.result.Ok? <==> forall i :: 0 <= i < |calls| ==> calls[i] !in env.failures)
      && forall c :: c in x.trace && c.SetSpreadsheetGeneration? ==> c.jobId == Field(fields, "exportJobId")
  {
    SubmissionFromDictSpec(fields);
    var m := SubmissionFromDict(JObj(fields)).value;
    var calls := SpreadsheetExportCalls(m);
    var x := Run(Sequence(calls), env);
    assert Handle(SpreadsheetExportHandler, JObj(fields), env) == x;
    FourCalls(calls, env);
    assert calls[..3] == [calls[0], calls[1], calls[2]];
    forall c | c in x.trace && c.SetSpreadsheetGeneration?
      ensures c.jobId == Field(fields, "exportJobId")
    {
      var i :| 0 <= i < |x.trace| && x.trace[i] == c;
      assert calls[i] == c;
    }
  }

  /** A sequence of four calls runs a prefix of them; the second failing
      after the first succeeded stops the run there; the last call is made
      only when all four are; the run succeeds exactly when none fails. */
  lemma FourCalls(calls: seq<Call>, env: Env)
    requires |calls| == 4
    ensures var x := Run(Sequence(calls), env);
      && 1 <= |x.trace| && x.trace <= calls
      && (calls[0] !in env.failures && calls[1] in env.failures ==>
            x.trace == [calls[0], calls[1]] && x.result.Err?)
      && (calls[3] in x.trace && calls[3] !in calls[..3] ==> x.trace == calls)
      && (x.result.Ok? <==> forall i :: 0 <= i < |calls| ==> calls[i] !in env.failures)
  {
    RunSequence(calls, env);
    RunSequenceOk(calls, env);
    RunSequenceCons(calls[0], calls[1..], env);
    RunSequenceCons(calls[1], calls[2..], env);
    assert [calls[0]] + calls[1..] == calls;
    assert [calls[1]] + calls[2..] == calls[1..];
  }

  /** The spreadsheet generation handler: generation starts for the
      message's submission; the id it answers is recorded on the message's
      job; the ack comes only after both calls succeed. */
  lemma GenerationHandlerSpec(fields: map<string, Json>, env: Env)
    ensures var x := Handle(SpreadsheetGenerationHandler, JObj(fields), env);
      var start := StartSpreadsheetGeneration(Field(fields, "submissionUuid"));
      && x.trace[0] == start
      && (start in env.failures ==> x == Execution([start], Err(env.failures[start])))
      && (start !in env.failures ==>
            var record := SetSpreadsheetGenerationId(Field(fields, "exportJobId"), Outcome(start, env).value);
            && x.trace[1] == record
            && (record in env.failures ==> x == Execution([start, record], Err(env.failures[record]))))
      && (Ack in x.trace ==>
            && x.trace[|x.trace| - 1] == Ack && start !in env.failures
            && SetSpreadsheetGenerationId(Field(fields, "exportJobId"), Outcome(start, env).value) !in env.failures)
  {
    SubmissionFromDictSpec(fields);
    GenerateSteps(SubmissionFromDict(JObj(fields)).value, env);
  }

  /** The generation handler's calls, one failure at a time: a failed start
      stops it, a failed record stops it after the start, otherwise the ack
      follows. */
  lemma GenerateSteps(m: SubmissionExportMessage, env: Env)
    ensures var start := StartSpreadsheetGeneration(m.submissionUuid);
      Generate(m, env) ==
        if start in env.failures then Execution([start], Err(env.failures[start]))
        else
          var record := SetSpreadsheetGenerationId(m.jobId, Outcome(start, env).value);
          if record in env.failures then Execution([start, record], Err(env.failures[record]))
          else Execution([start, record, Ack], if Ack in env.failures then Err(env.failures[Ack]) else Ok(()))
  {
    var start := StartSpreadsheetGeneration(m.submissionUuid);
    if start !in env.failures {
      var record := SetSpreadsheetGenerationId(m.jobId, Outcome(start, env).value);
      assert Sequence(GenerationCalls(m, Outcome(start, env).value)) == [Do(record), Do(Ack)];
      RunPair(record, Ack, env);
    }
  }

  /** No handler rejects or nacks; that is the listener's job. */
  lemma HandlersNeverReject(kind: HandlerKind, body: Json, env: Env)
    ensures forall c :: c in Handle(kind, body, env).trace ==> !c.Reject? && c != Nack
  {
    match kind
    case ExperimentHandler =>
      if ExperimentFromDict(body).Ok? {
        RunSequence(ExperimentCalls(body, ExperimentFromDict(body).value), env);
      }
    case SubmissionHandler =>
      if SubmissionFromDict(body).Ok? {
        RunSequence(SubmissionCalls(SubmissionFromDict(body).value), env);
      }
    case SpreadsheetExportHandler =>
      if SubmissionFromDict(body).Ok? {
        RunSequence(SpreadsheetExportCalls(SubmissionFromDict(body).value), env);
      }
    case SpreadsheetGenerationHandler =>
      var m := SubmissionFromDict(body);
      if m.Ok? {
        GenerateSteps(m.value, env);
      }
  }

  // ---------------------------------------------------------------- handlers

  /** What a listener hands the handler for publishing. */
  datatype Producer = Producer(connection: string)

  /** One of the four handlers, with the producer it publishes through. */
  class MessageHandler {
    const kind: HandlerKind
    const world: World
    var producer: Option<Producer>

    constructor(kind: HandlerKind, world: World)
      ensures this.kind == kind && this.world == world && producer == None
    {
      this.kind := kind;
      this.world := world;
      producer := None;
    }

    /** `add_producer` */
    method AddProducer(p: Producer)
      modifies this
      ensures producer == Some(p)
    {
      producer := Some(p);
    }

    /** `handle_message` */
    method HandleMessage(body: Json) returns (r: Result<()>)
      modifies world
      ensures world.trace == old(world.trace) + Handle(kind, body, world.env).trace
      ensures r == Handle(kind, body, world.env).result
    {
      match kind
      case ExperimentHandler =>
        var m := ExperimentFromDict(body);
        if m.Err? {
          return Err(m.error);
        }
        r := world.FireAll(ExperimentCalls(body, m.value));
      case SubmissionHandler =>
        var m := SubmissionFromDict(body);
        if m.Err? {
          return Err(m.error);
        }
        r := world.FireAll(SubmissionCalls(m.value));
      case SpreadsheetExportHandler =>
        var m := SubmissionFromDict(body);
        if m.Err? {
          return Err(m.error);
        }
        r := world.FireAll(SpreadsheetExportCalls(m.value));
      case SpreadsheetGenerationHandler =>
        var m := SubmissionFromDict(body);
        if m.Err? {
          return Err(m.error);
        }
        var generationId := world.Perform(StartSpreadsheetGeneration(m.value.submissionUuid));
        if generationId.Err? {
          return Err(generationId.error);
        }
        r := world.FireAll(GenerationCalls(m.value, generationId.value));
    }
  }
}
