/** `TerraSubmissionExporter` (exporter/terra/submission/exporter.py): the
    data-file transfer of a submission starts only when the submission asks
    for an export. */
module SubmissionExporters {
  import opened Wrappers
  import opened Json
  import opened Effects
  import TransferJobs
  import TransferClients
  import GcsTransfers

  /** `"Export" in submission.get("submitActions", [])`. */
  function ExportRequested(submission: Json): Result<bool> {
    var actions :- DictGetOr(submission, "submitActions", JArr([]));
    PyContains(actions, "Export")
  }

  /** A submission listing its actions asks for an export exactly when
      "Export" is one of them; one listing none does not. */
  lemma ExportRequestedSpec(fields: map<string, Json>, actions: seq<Json>)
    ensures ExportRequested(JObj(fields["submitActions" := JArr(actions)])) == Ok(JStr("Export") in actions)
    ensures "submitActions" !in fields ==> ExportRequested(JObj(fields)) == Ok(false)
  {
  }

  /** The calls `start_data_file_transfer` makes after fetching the
      submission, and what it returns. */
  function AfterFetch(submission: Json, config: TransferClients.TransferClientConfig, jobId: string,
                      projectUuid: string, today: TransferJobs.Day, env: Env): Execution
  {
    var requested := ExportRequested(submission);
    if requested.Err? then Execution([], Err(requested.error))
    else if !requested.value then Execution([], Err(SubmissionDoesNotHaveRequiredAction))
    else
      var req := TransferClients.TransferRequest(config, submission, projectUuid, jobId, today);
      if req.Err? then Execution([], Err(req.error))
      else Execution([CreateTransferJob(req.value)], GcsTransfers.StartOutcome(req.value, env))
  }

  /** The whole of `start_data_file_transfer`. */
  function StartTransfer(config: TransferClients.TransferClientConfig, jobId: string, submissionUuid: string,
                         projectUuid: string, today: TransferJobs.Day, env: Env): Execution
  {
    var fetch := GetEntity("submissionEnvelopes", JStr(submissionUuid));
    var submission := Outcome(fetch, env);
    if submission.Err? then Execution([fetch], Err(submission.error))
    else
      var rest := AfterFetch(submission.value, config, jobId, projectUuid, today, env);
      Execution([fetch] + rest.trace, rest.result)
  }

  /** The submission is fetched first; a failed fetch starts nothing; a
      submission that does not ask for an export raises
      `SubmissionDoesNotHaveRequiredAction` and starts nothing; otherwise at
      most one transfer job is requested, for this export job's name.  The
      export job itself is never touched. */
  lemma StartTransferSpec(config: TransferClients.TransferClientConfig, jobId: string, submissionUuid: string,
                          projectUuid: string, today: TransferJobs.Day, env: Env)
    ensures var x := StartTransfer(config, jobId, submissionUuid, projectUuid, today, env);
      var fetch := GetEntity("submissionEnvelopes", JStr(submissionUuid));
      && 1 <= |x.trace| <= 2 && x.trace[0] == fetch
      && (fetch in env.failures ==> x == Execution([fetch], Err(env.failures[fetch])))
      && (fetch !in env.failures && ExportRequested(Outcome(fetch, env).value) == Ok(false) ==>
            x == Execution([fetch], Err(SubmissionDoesNotHaveRequiredAction)))
      && (|x.trace| == 2 ==>
            && ExportRequested(Outcome(fetch, env).value) == Ok(true)
            && x.trace[1].CreateTransferJob?
            && TransferJobs.JobOfDict(x.trace[1].spec).Some?
            && TransferJobs.JobOfDict(x.trace[1].spec).value.name == TransferClients.JobName(jobId))
      && forall c :: c in x.trace ==> !c.SetDataFileTransfer? && !c.SetDataTransferComplete?
  {
    var fetch := GetEntity("submissionEnvelopes", JStr(submissionUuid));
    var x := StartTransfer(config, jobId, submissionUuid, projectUuid, today, env);
    if fetch !in env.failures {
      var submission := Outcome(fetch, env).value;
      var rest := AfterFetch(submission, config, jobId, projectUuid, today, env);
      AfterFetchSpec(submission, config, jobId, projectUuid, today, env);
      assert x.trace == [fetch] + rest.trace;
      if |x.trace| == 2 {
        assert x.trace[1] == rest.trace[0];
      }
    }
  }

  /** After the fetch: nothing when the submission does not ask for an
      export, and at most the one transfer job, for this export job's
      name. */
  lemma AfterFetchSpec(submission: Json, config: TransferClients.TransferClientConfig, jobId: string,
                       projectUuid: string, today: TransferJobs.Day, env: Env)
    ensures var y := AfterFetch(submission, config, jobId, projectUuid, today, env);
      && |y.trace| <= 1
      && (ExportRequested(submission) == Ok(false) ==> y == Execution([], Err(SubmissionDoesNotHaveRequiredAction)))
      && (|y.trace| == 1 ==>
            && ExportRequested(submission) == Ok(true)
            && y.trace[0].CreateTransferJob?
            && TransferJobs.JobOfDict(y.trace[0].spec).Some?
            && TransferJobs.JobOfDict(y.trace[0].spec).value.name == TransferClients.JobName(jobId))
  {
    var y := AfterFetch(submission, config, jobId, projectUuid, today, env);
    if |y.trace| == 1 {
      var area := GetPath(submission, ["stagingDetails", "stagingAreaLocation", "value"]);
      assert area.Ok? && area.value.JStr?;
      TransferClients.TransferRequestOfArea(config, submission, area.value.s, projectUuid, jobId, today);
    }
  }

  class TerraSubmissionExporter {
    const client: TransferClients.TerraTransferClient

    constructor(client: TransferClients.TerraTransferClient)
      ensures this.client == client
    {
      this.client := client;
    }

    /** `start_data_file_transfer` */
    method StartDataFileTransfer(jobId: string, submissionUuid: string, projectUuid: string, today: TransferJobs.Day)
      returns (r: Result<()>)
      modifies client.gcs.world
      ensures var x := StartTransfer(client.config, jobId, submissionUuid, projectUuid, today, client.gcs.world.env);
        client.gcs.world.trace == old(client.gcs.world.trace) + x.trace && r == x.result
    {
      var world := client.gcs.world;
      var submission := world.Perform(GetEntity("submissionEnvelopes", JStr(submissionUuid)));
      if submission.Err? {
        return Err(submission.error);
      }
      var requested := ExportRequested(submission.value);
      if requested.Err? {
        return Err(requested.error);
      }
      if !requested.value {
        return Err(SubmissionDoesNotHaveRequiredAction);
      }
      ghost var t1 := world.trace;
      r := client.TransferDataFiles(submission.value, projectUuid, jobId, today);
      ghost var rest := AfterFetch(submission.value, client.config, jobId, projectUuid, today, world.env);
      assert world.trace == t1 + rest.trace && r == rest.result;
    }
  }
}
