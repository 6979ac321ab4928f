/** `TerraExporter` (exporter/terra/exporter.py): exports one experiment,
    first moving the submission's data files when the submission asks for
    them and no worker has moved them yet. */
module TerraExporters {
  import opened Wrappers
  import opened Json
  import opened Effects
  import Resource
  import TerraStorages
  import IngestServices
  import ExperimentExporters

  // --------------------------------------------------------- wait schedule

  /** `max_wait_interval_sec`: ten minutes. */
  const MaxWaitIntervalSec: nat := 10 * 60
  /** `max_wait_time_sec`: six hours. */
  const MaxWaitTimeSec: nat := 60 * 60 * 6
  /** `start_wait_time_sec` */
  const StartWaitTimeSec: nat := 2

  /** `compute_wait_time`: twice the last wait, capped at ten minutes. */
  function ComputeWaitTime(startWaitTimeSec: int): int {
    if startWaitTimeSec * 2 <= MaxWaitIntervalSec then startWaitTimeSec * 2 else MaxWaitIntervalSec
  }

  /** The wait is the smaller of the doubled wait and the cap. */
  lemma ComputeWaitTimeSpec(t: int)
    ensures ComputeWaitTime(t) <= 2 * t && ComputeWaitTime(t) <= MaxWaitIntervalSec
    ensures ComputeWaitTime(t) == 2 * t || ComputeWaitTime(t) == MaxWaitIntervalSec
  {
  }

  /** The `n`-th wait, from the start on. */
  function WaitTime(n: nat): int {
    if n == 0 then StartWaitTimeSec else ComputeWaitTime(WaitTime(n - 1))
  }

  function Pow2(n: nat): nat {
    if n == 0 then 1 else 2 * Pow2(n - 1)
  }

  lemma {:induction false} Pow2Monotone(a: nat, b: nat)
    requires a <= b
    ensures Pow2(a) <= Pow2(b)
    decreases b
  {
    if a < b {
      Pow2Monotone(a, b - 1);
    }
  }

  /** From the two-second start the waits are 2, 4, ..., 512 seconds, and ten
      minutes from then on. */
  lemma {:induction false} WaitTimes(n: nat)
    ensures WaitTime(n) == if n <= 8 then Pow2(n + 1) else MaxWaitIntervalSec
    decreases n
  {
    if n > 0 {
      WaitTimes(n - 1);
      if n <= 8 {
        Pow2Monotone(n, 8);
        assert Pow2(8) == 256;
      } else if n == 9 {
        assert Pow2(9) == 512;
      }
    }
  }

  /** So no wait is longer than ten minutes, and the waits never shrink. */
  lemma WaitTimesBounded(n: nat)
    ensures 0 < WaitTime(n) <= MaxWaitIntervalSec
    ensures WaitTime(n) <= WaitTime(n + 1)
  {
    WaitTimes(n);
    WaitTimes(n + 1);
    if n + 1 <= 8 {
      Pow2Monotone(n + 1, 8);
      assert Pow2(8) == 256;
    } else if n <= 8 {
      Pow2Monotone(n + 1, 9);
      assert Pow2(9) == 512;
    }
  }

  // -------------------------------------------------------- data transfer

  /** `"Export metadata" not in submission.get("submitActions", [])`. */
  function ExportData(submission: Json): Result<bool> {
    var actions :- DictGetOr(submission, "submitActions", JArr([]));
    var metadataOnly :- PyContains(actions, "Export metadata");
    Ok(!metadataOnly)
  }

  /** Data files are exported unless the submission's action list names
      "Export metadata"; a submission without the list exports them. */
  lemma ExportDataSpec(fields: map<string, Json>)
    ensures "submitActions" !in fields ==> ExportData(JObj(fields)) == Ok(true)
    ensures "submitActions" in fields && fields["submitActions"].JArr? ==>
      ExportData(JObj(fields)) == Ok(JStr("Export metadata") !in fields["submitActions"].items)
  {
  }

  /** `transfer_job_spec, success = ...`: the answer is a pair. */
  function UnpackTransfer(answer: Json): Result<(Json, bool)> {
    if !answer.JArr? then Err(TypeError)
    else if |answer.items| != 2 then Err(ValueError)
    else Ok((answer.items[0], Truthy(answer.items[1])))
  }

  /** `transfer_job_spec.name` */
  function JobName(spec: Json): Result<Json> {
    if spec.JObj? && "name" in spec.fields then Ok(spec.fields["name"]) else Err(AttributeError)
  }

  /** `_wait_for_data_transfer_to_complete`: the worker that created the
      transfer waits on the transfer service and then marks the transfer
      complete; any other waits on the job's state. */
  function WaitSteps(jobId: Json, success: bool, spec: Json): seq<Step> {
    if success then
      match JobName(spec)
      case Err(e) => [Raise(e)]
      case Ok(name) => [Do(WaitForTransfer(name, StartWaitTimeSec, MaxWaitTimeSec)), Do(SetDataTransferComplete(jobId))]
    else [Do(WaitForDataTransferState(jobId, StartWaitTimeSec, MaxWaitTimeSec))]
  }

  /** Both waits start at two seconds and give up after six hours; only the
      creator marks the transfer complete, and only once its wait is over. */
  lemma WaitSpec(jobId: Json, success: bool, spec: Json, env: Env)
    ensures var x := Run(WaitSteps(jobId, success, spec), env);
      && (success && JobName(spec).Ok? ==>
            var waiting := WaitForTransfer(JobName(spec).value, 2, 21600);
            && x.trace[0] == waiting
            && (waiting in env.failures ==> x == Execution([waiting], Err(env.failures[waiting])))
            && (waiting !in env.failures ==> x.trace == [waiting, SetDataTransferComplete(jobId)]))
      && (success && JobName(spec).Err? ==> x == Execution([], Err(AttributeError)))
      && (!success ==> x.trace == [WaitForDataTransferState(jobId, 2, 21600)])
      && (SetDataTransferComplete(jobId) in x.trace ==> success && x.trace[0].WaitForTransfer? && x.trace[0] !in env.failures)
  {
    if success && JobName(spec).Ok? {
      RunPair(WaitForTransfer(JobName(spec).value, 2, 21600), SetDataTransferComplete(jobId), env);
    } else if !success {
      RunOne(WaitForDataTransferState(jobId, 2, 21600), env);
    }
  }

  /** The data-file part of `export`, once the submission is fetched. */
  function TransferPhase(submission: Json, projectUuid: string, jobId: Json, env: Env): Execution {
    match ExportData(submission)
    case Err(e) => Execution([], Err(e))
    case Ok(exportData) =>
      if !exportData then Execution([], Ok(()))
      else
        var check := IsDataTransferComplete(jobId);
        var done := Outcome(check, env);
        if done.Err? then Execution([check], Err(done.error))
        else if Truthy(done.value) then Execution([check], Ok(()))
        else
          var start := TransferDataFiles(submission, projectUuid, jobId);
          var started := Outcome(start, env);
          if started.Err? then Execution([check, start], Err(started.error))
          else match UnpackTransfer(started.value)
            case Err(e) => Execution([check, start], Err(e))
            case Ok(pair) =>
              var w := Run(WaitSteps(jobId, pair.1, pair.0), env);
              Execution([check, start] + w.trace, w.result)
  }

  /** A transfer is started exactly when the data files are to be exported
      and the job's transfer is not yet complete; the completion is checked
      only when the data files are to be exported, and then first. */
  lemma TransferPhaseSpec(submission: Json, projectUuid: string, jobId: Json, env: Env)
    ensures var t := TransferPhase(submission, projectUuid, jobId, env);
      var check := IsDataTransferComplete(jobId);
      var start := TransferDataFiles(submission, projectUuid, jobId);
      && (ExportData(submission) == Ok(false) ==> t == Execution([], Ok(())))
      && (ExportData(submission) == Ok(true) ==> t.trace[0] == check)
      && (start in t.trace <==>
            && ExportData(submission) == Ok(true) && check !in env.failures
            && !Truthy(Outcome(check, env).value))
      && (start in t.trace ==> t.trace[..2] == [check, start])
  {
    var t := TransferPhase(submission, projectUuid, jobId, env);
    var check := IsDataTransferComplete(jobId);
    var start := TransferDataFiles(submission, projectUuid, jobId);
    if ExportData(submission) == Ok(true) && check !in env.failures && !Truthy(Outcome(check, env).value) {
      assert t.trace[1] == start;
    }
  }

  // ---------------------------------------------------------------- export

  /** What `export` does, given how the calls go. */
  function ExportRun(processUuid: string, submissionUuid: string, jobId: Json, crawler: ExperimentExporters.Crawler,
                     config: TerraStorages.StorageConfig, env: Env): Execution
  {
    var p := IngestServices.FetchMetadata("processes", processUuid, env);
    if p.value.Err? then Execution(p.trace, Err(p.value.error))
    else
      var q := IngestServices.FetchProjectForProcess(p.value.value, env);
      if q.value.Err? then Execution(p.trace + q.trace, Err(q.value.error))
      else
        var getSubmission := GetEntity("submissionEnvelopes", JStr(submissionUuid));
        var submission := Outcome(getSubmission, env);
        var fetched := p.trace + q.trace + [getSubmission];
        if submission.Err? then Execution(fetched, Err(submission.error))
        else
          var t := TransferPhase(submission.value, q.value.value.uuid, jobId, env);
          if t.result.Err? then Execution(fetched + t.trace, t.result)
          else
            var w := ExperimentExporters.GraphRun(p.value.value, q.value.value, processUuid, crawler, config, env);
            Execution(fetched + t.trace + w.trace, w.result)
  }

  /** `export` fetches the process, its first related project and the
      submission, in that order. */
  lemma ExportFetches(processUuid: string, submissionUuid: string, jobId: Json, crawler: ExperimentExporters.Crawler,
                      config: TerraStorages.StorageConfig, env: Env, process: Resource.MetadataResource, project: Resource.MetadataResource)
    requires IngestServices.FetchMetadata("processes", processUuid, env).value == Ok(process)
    requires IngestServices.FetchProjectForProcess(process, env).value == Ok(project)
    ensures var x := ExportRun(processUuid, submissionUuid, jobId, crawler, config, env);
      var getSubmission := GetEntity("submissionEnvelopes", JStr(submissionUuid));
      [GetEntity("processes", JStr(processUuid)), GetRelatedProjects(process.fullResource), getSubmission] <= x.trace
  {
    var getSubmission := GetEntity("submissionEnvelopes", JStr(submissionUuid));
    if getSubmission in env.failures {
      ExportSubmissionFails(processUuid, submissionUuid, jobId, crawler, config, env, process, project);
    } else {
      ExportAfterSubmission(processUuid, submissionUuid, jobId, crawler, config, env, process, project);
      var fetched := [GetEntity("processes", JStr(processUuid)), GetRelatedProjects(process.fullResource), getSubmission];
      var t := TransferPhase(Outcome(getSubmission, env).value, project.uuid, jobId, env);
      var w := ExperimentExporters.GraphRun(process, project, processUuid, crawler, config, env);
      AppendAssoc(fetched, t.trace, w.trace);
    }
  }

  /** A submission that cannot be fetched stops the export right there. */
  lemma ExportSubmissionFails(processUuid: string, submissionUuid: string, jobId: Json, crawler: ExperimentExporters.Crawler,
                              config: TerraStorages.StorageConfig, env: Env, process: Resource.MetadataResource, project: Resource.MetadataResource)
    requires IngestServices.FetchMetadata("processes", processUuid, env).value == Ok(process)
    requires IngestServices.FetchProjectForProcess(process, env).value == Ok(project)
    requires GetEntity("submissionEnvelopes", JStr(submissionUuid)) in env.failures
    ensures var x := ExportRun(processUuid, submissionUuid, jobId, crawler, config, env);
      var getSubmission := GetEntity("submissionEnvelopes", JStr(submissionUuid));
      x == Execution([GetEntity("processes", JStr(processUuid)), GetRelatedProjects(process.fullResource), getSubmission],
                     Err(env.failures[getSubmission]))
  {
    var p := IngestServices.FetchMetadata("processes", processUuid, env);
    var q := IngestServices.FetchProjectForProcess(process, env);
    assert p.trace == [GetEntity("processes", JStr(processUuid))];
    assert q.trace == [GetRelatedProjects(process.fullResource)];
  }

  /** After the submission, the data-file part runs; the metadata is
      exported only once it completes, and nothing is crawled or written
      when it fails. */
  lemma ExportAfterSubmission(processUuid: string, submissionUuid: string, jobId: Json, crawler: ExperimentExporters.Crawler,
                              config: TerraStorages.StorageConfig, env: Env, process: Resource.MetadataResource, project: Resource.MetadataResource)
    requires IngestServices.FetchMetadata("processes", processUuid, env).value == Ok(process)
    requires IngestServices.FetchProjectForProcess(process, env).value == Ok(project)
    requires GetEntity("submissionEnvelopes", JStr(submissionUuid)) !in env.failures
    ensures var x := ExportRun(processUuid, submissionUuid, jobId, crawler, config, env);
      var submission := Outcome(GetEntity("submissionEnvelopes", JStr(submissionUuid)), env).value;
      var t := TransferPhase(submission, project.uuid, jobId, env);
      var w := ExperimentExporters.GraphRun(process, project, processUuid, crawler, config, env);
      var fetched := [GetEntity("processes", JStr(processUuid)), GetRelatedProjects(process.fullResource),
                      GetEntity("submissionEnvelopes", JStr(submissionUuid))];
      && (t.result.Err? ==> x == Execution(fetched + t.trace, t.result))
      && (t.result.Ok? ==> x == Execution(fetched + t.trace + w.trace, w.result))
  {
    var p := IngestServices.FetchMetadata("processes", processUuid, env);
    var q := IngestServices.FetchProjectForProcess(process, env);
    assert p.trace + q.trace + [GetEntity("submissionEnvelopes", JStr(submissionUuid))] ==
      [GetEntity("processes", JStr(processUuid)), GetRelatedProjects(process.fullResource),
       GetEntity("submissionEnvelopes", JStr(submissionUuid))];
  }

  /** A process or project that cannot be fetched stops the export before
      the submission is fetched. */
  lemma ExportFetchFails(processUuid: string, submissionUuid: string, jobId: Json, crawler: ExperimentExporters.Crawler,
                         config: TerraStorages.StorageConfig, env: Env)
    ensures var x := ExportRun(processUuid, submissionUuid, jobId, crawler, config, env);
      var p := IngestServices.FetchMetadata("processes", processUuid, env);
      && (p.value.Err? ==> x == Execution([GetEntity("processes", JStr(processUuid))], Err(p.value.error)))
      && (p.value.Ok? && IngestServices.FetchProjectForProcess(p.value.value, env).value.Err? ==>
            x == Execution([GetEntity("processes", JStr(processUuid)), GetRelatedProjects(p.value.value.fullResource)],
                           Err(IngestServices.FetchProjectForProcess(p.value.value, env).value.error)))
  {
    IngestServices.FetchMetadataSpec("processes", processUuid, env);
    var p := IngestServices.FetchMetadata("processes", processUuid, env);
    if p.value.Ok? {
      IngestServices.FetchProjectForProcessSpec(p.value.value, env);
    }
  }

  /** When the submission's transfer fails, nothing is crawled or written. */
  lemma TransferFailureWritesNothing(submission: Json, projectUuid: string, jobId: Json, env: Env)
    ensures var t := TransferPhase(submission, projectUuid, jobId, env);
      forall c :: c in t.trace ==> !c.Crawl? && !c.StagingWrite?
  {
    var t := TransferPhase(submission, projectUuid, jobId, env);
    if ExportData(submission) == Ok(true) {
      var check := IsDataTransferComplete(jobId);
      var done := Outcome(check, env);
      if done.Ok? && !Truthy(done.value) {
        var started := Outcome(TransferDataFiles(submission, projectUuid, jobId), env);
        if started.Ok? && UnpackTransfer(started.value).Ok? {
          var pair := UnpackTransfer(started.value).value;
          RunTracePrefix(WaitSteps(jobId, pair.1, pair.0), env);
        }
      }
    }
  }

  class TerraExporter {
    const ingest: IngestServices.IngestService
    const crawler: ExperimentExporters.Crawler
    const terra: TerraStorages.TerraStorageClient

    /** The ingest client and service and the storage client act on the same
        world. */
    constructor(ingest: IngestServices.IngestService, crawler: ExperimentExporters.Crawler, terra: TerraStorages.TerraStorageClient)
      requires ingest.world == terra.world
      ensures this.ingest == ingest && this.crawler == crawler && this.terra == terra
    {
      this.ingest := ingest;
      this.crawler := crawler;
      this.terra := terra;
    }

    /** `_wait_for_data_transfer_to_complete` */
    method WaitForDataTransferToComplete(jobId: Json, success: bool, spec: Json) returns (r: Result<()>)
      modifies ingest.world
      ensures ingest.world.trace == old(ingest.world.trace) + Run(WaitSteps(jobId, success, spec), ingest.world.env).trace
      ensures r == Run(WaitSteps(jobId, success, spec), ingest.world.env).result
    {
      if success {
        var name := JobName(spec);
        if name.Err? {
          return Err(name.error);
        }
        r := ingest.world.FireAll([WaitForTransfer(name.value, StartWaitTimeSec, MaxWaitTimeSec), SetDataTransferComplete(jobId)]);
        assert Sequence([WaitForTransfer(name.value, StartWaitTimeSec, MaxWaitTimeSec), SetDataTransferComplete(jobId)])
          == WaitSteps(jobId, success, spec);
      } else {
        RunOne(WaitForDataTransferState(jobId, StartWaitTimeSec, MaxWaitTimeSec), ingest.world.env);
        r := ingest.world.Fire(WaitForDataTransferState(jobId, StartWaitTimeSec, MaxWaitTimeSec));
      }
    }

    /** The data-file part of `export`. */
    method ExportDataFiles(submission: Json, projectUuid: string, jobId: Json) returns (r: Result<()>)
      modifies ingest.world
      ensures ingest.world.trace == old(ingest.world.trace) + TransferPhase(submission, projectUuid, jobId, ingest.world.env).trace
      ensures r == TransferPhase(submission, projectUuid, jobId, ingest.world.env).result
    {
      var exportData := ExportData(submission);
      if exportData.Err? {
        return Err(exportData.error);
      }
      if !exportData.value {
        return Ok(());
      }
      var done := ingest.world.Perform(IsDataTransferComplete(jobId));
      if done.Err? {
        return Err(done.error);
      }
      if Truthy(done.value) {
        return Ok(());
      }
      var started := ingest.world.Perform(TransferDataFiles(submission, projectUuid, jobId));
      if started.Err? {
        return Err(started.error);
      }
      var pair := UnpackTransfer(started.value);
      if pair.Err? {
        return Err(pair.error);
      }
      r := WaitForDataTransferToComplete(jobId, pair.value.1, pair.value.0);
    }

    /** `export` */
    method Export(processUuid: string, submissionUuid: string, jobId: Json) returns (r: Result<()>)
      requires ingest.world == terra.world
      modifies ingest.world
      ensures ingest.world.trace == old(ingest.world.trace) + ExportRun(processUuid, submissionUuid, jobId, crawler, terra.config, ingest.world.env).trace
      ensures r == ExportRun(processUuid, submissionUuid, jobId, crawler, terra.config, ingest.world.env).result
    {
      ghost var t0 := ingest.world.trace;
      ghost var p := IngestServices.FetchMetadata("processes", processUuid, ingest.world.env);
      var process := ingest.GetMetadata("processes", processUuid);
      if process.Err? {
        return Err(process.error);
      }
      ghost var q := IngestServices.FetchProjectForProcess(process.value, ingest.world.env);
      var project := ingest.ProjectForProcess(process.value);
      AppendAssoc(t0, p.trace, q.trace);
      if project.Err? {
        return Err(project.error);
      }
      var getSubmission := GetEntity("submissionEnvelopes", JStr(submissionUuid));
      var submission := ingest.world.Perform(getSubmission);
      AppendAssoc(t0, p.trace + q.trace, [getSubmission]);
      if submission.Err? {
        return Err(submission.error);
      }
      ghost var fetched := p.trace + q.trace + [getSubmission];
      ghost var t := TransferPhase(submission.value, project.value.uuid, jobId, ingest.world.env);
      r := ExportDataFiles(submission.value, project.value.uuid, jobId);
      AppendAssoc(t0, fetched, t.trace);
      if r.Err? {
        return;
      }
      ghost var w := ExperimentExporters.GraphRun(process.value, project.value, processUuid, crawler, terra.config, ingest.world.env);
      r := ExperimentExporters.ExportGraph(terra, crawler, process.value, project.value, processUuid);
      AppendAssoc(t0, fetched + t.trace, w.trace);
    }
  }
}
