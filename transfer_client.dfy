/** `TerraTransferClient` (exporter/terra/submission/client.py): the
    transfer job for one export job, built from the submission's upload area,
    and its start and completion queries. */
module TransferClients {
  import opened Wrappers
  import opened Json
  import opened Strings
  import opened Effects
  import TerraStorages
  import TransferJobs
  import GcsTransfers

  datatype TransferClientConfig = TransferClientConfig(
    awsAccessKeyId: string,
    awsAccessKeySecret: string,
    gcsProjectId: string,
    gcsDestBucket: string,
    gcsBucketPrefix: string)

  /** The transfer job name of an export job. */
  function JobName(exportJobId: string): (name: string)
    ensures StartsWith(name, "transferJobs/") && name[|"transferJobs/"|..] == exportJobId
  {
    "transferJobs/" + exportJobId
  }

  /** The same export job always gives the same name, and different export
      jobs give different names. */
  lemma JobNameInjective(a: string, b: string)
    ensures JobName(a) == JobName(b) <==> a == b
  {
    if JobName(a) == JobName(b) {
      assert a == JobName(a)[13..];
    }
  }

  /** `__get_transfer_job`, with `bucket_and_key_for_upload_area` -- the
      same split as `TerraStorageClient`'s. */
  function TransferJobFor(config: TransferClientConfig, uploadArea: string, projectUuid: string, exportJobId: string)
    : (r: Result<TransferJobs.TransferJob>)
    ensures r.Err? <==> TerraStorages.BucketAndKeyForUploadArea(uploadArea).Err?
    ensures r.Ok? ==>
              && r.value.name == JobName(exportJobId) && r.value.projectId == config.gcsProjectId
              && r.value.destBucket == config.gcsDestBucket
              && r.value.awsAccessKeyId == config.awsAccessKeyId
              && r.value.awsAccessKeySecret == config.awsAccessKeySecret
  {
    var (bucket, key) :- TerraStorages.BucketAndKeyForUploadArea(uploadArea);
    Ok(TransferJobs.TransferJob(
      JobName(exportJobId),
      "Transfer job for ingest upload-service area " + key + " and export-job-id " + exportJobId,
      config.gcsProjectId,
      bucket,
      key + "/",
      config.awsAccessKeyId,
      config.awsAccessKeySecret,
      config.gcsDestBucket,
      config.gcsBucketPrefix + "/" + projectUuid + "/data/"))
  }

  /** For an upload area 'scheme://bucket/key...', the job copies the area's
      key directory of that bucket into '{prefix}/{project}/data/', and its
      description names the key and the export job. */
  lemma TransferJobForArea(config: TransferClientConfig, scheme: string, bucket: string, key: string, tail: string,
                           projectUuid: string, exportJobId: string)
    requires '/' !in scheme && '/' !in bucket && '/' !in key
    requires tail == [] || tail[0] == '/'
    requires !Contains("/" + (key + tail), "//")
    ensures var r := TransferJobFor(config, scheme + "//" + bucket + "/" + (key + tail), projectUuid, exportJobId);
      && r.Ok?
      && r.value.sourceBucket == bucket
      && r.value.sourcePath == key + "/"
      && r.value.destPath == config.gcsBucketPrefix + "/" + projectUuid + "/data/"
      && r.value.description == "Transfer job for ingest upload-service area " + key + " and export-job-id " + exportJobId
  {
    TerraStorages.BucketAndKeyOfArea(scheme, bucket, key, tail);
  }

  /** 's3fake://bucket/key' is copied from bucket 'bucket', path 'key/'. */
  lemma ExampleTransferJob(config: TransferClientConfig, projectUuid: string, exportJobId: string,
                            scheme: string, bucket: string, key: string)
    requires scheme == "s3fake:" && bucket == "bucket" && key == "key"
    ensures var r := TransferJobFor(config, scheme + "//" + bucket + "/" + key, projectUuid, exportJobId);
      r.Ok? && r.value.sourceBucket == "bucket" && r.value.sourcePath == "key/"
  {
    TerraStorages.ExampleUploadArea(scheme, bucket, key);
  }

  /** The creation request `transfer_data_files` sends for a submission, or
      the error raised before anything is sent: the upload area is
      `stagingDetails.stagingAreaLocation.value`, and only a string can be
      split. */
  function TransferRequest(config: TransferClientConfig, submission: Json, projectUuid: string, exportJobId: string,
                           today: TransferJobs.Day): Result<Json>
  {
    var area :- GetPath(submission, ["stagingDetails", "stagingAreaLocation", "value"]);
    if !area.JStr? then Err(AttributeError)
    else
      var job :- TransferJobFor(config, area.s, projectUuid, exportJobId);
      Ok(TransferJobs.ToDict(job, today))
  }

  /** A submission without an upload area raises the lookup error, so no job
      is requested. */
  lemma TransferRequestNoArea(config: TransferClientConfig, fields: map<string, Json>, projectUuid: string,
                              exportJobId: string, today: TransferJobs.Day)
    requires "stagingDetails" !in fields
    ensures TransferRequest(config, JObj(fields), projectUuid, exportJobId, today) == Err(KeyError("stagingDetails"))
  {
  }

  /** With an upload area that splits, the request describes exactly the job
      built for it. */
  lemma TransferRequestOfArea(config: TransferClientConfig, submission: Json, area: string, projectUuid: string,
                              exportJobId: string, today: TransferJobs.Day)
    requires GetPath(submission, ["stagingDetails", "stagingAreaLocation", "value"]) == Ok(JStr(area))
    requires TerraStorages.BucketAndKeyForUploadArea(area).Ok?
    ensures var r := TransferRequest(config, submission, projectUuid, exportJobId, today);
      && r.Ok?
      && TransferJobs.JobOfDict(r.value) == Some(TransferJobFor(config, area, projectUuid, exportJobId).value)
  {
    TransferJobs.ToDictRoundTrip(TransferJobFor(config, area, projectUuid, exportJobId).value, today);
  }

  /** `is_transfer_done` filters the listing by the export job id itself,
      while the job it started is named `JobName` of that id: the two never
      coincide. */
  lemma QueriedNameIsNotJobName(exportJobId: string)
    ensures JobName(exportJobId) != exportJobId
  {
    assert |JobName(exportJobId)| > |exportJobId|;
  }

  class TerraTransferClient {
    const config: TransferClientConfig
    const gcs: GcsTransfers.GcsTransfer

    constructor(config: TransferClientConfig, gcs: GcsTransfers.GcsTransfer)
      ensures this.config == config && this.gcs == gcs
    {
      this.config := config;
      this.gcs := gcs;
    }

    /** `transfer_data_files`: builds the job, then starts it; nothing is
        requested when building fails. */
    method TransferDataFiles(submission: Json, projectUuid: string, exportJobId: string, today: TransferJobs.Day)
      returns (r: Result<()>)
      modifies gcs.world
      ensures var req := TransferRequest(config, submission, projectUuid, exportJobId, today);
        && (req.Err? ==> gcs.world.trace == old(gcs.world.trace) && r == Err(req.error))
        && (req.Ok? ==> gcs.world.trace == old(gcs.world.trace) + [CreateTransferJob(req.value)]
                        && r == GcsTransfers.StartOutcome(req.value, gcs.world.env))
    {
      var area := GetPath(submission, ["stagingDetails", "stagingAreaLocation", "value"]);
      if area.Err? {
        return Err(area.error);
      }
      if !area.value.JStr? {
        return Err(AttributeError);
      }
      var job := TransferJobFor(config, area.value.s, projectUuid, exportJobId);
      if job.Err? {
        return Err(job.error);
      }
      r := gcs.StartJob(job.value, today);
    }

    /** `is_transfer_done`: the listing for the export job id in the
        configured project. */
    method IsTransferDone(exportJobId: string) returns (r: Result<Json>)
      modifies gcs.world
      ensures gcs.world.trace == old(gcs.world.trace) + [ListTransferOperations(config.gcsProjectId, exportJobId)]
      ensures r == GcsTransfers.CompletionOutcome(config.gcsProjectId, exportJobId, gcs.world.env)
    {
      r := gcs.IsJobComplete(config.gcsProjectId, exportJobId);
    }
  }
}
