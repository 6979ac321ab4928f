/** `TransferJob` (exporter/terra/gcs/transfer_job.py): the Storage Transfer
    job that copies an upload area's data files from S3 into the staging
    bucket, and the request body that creates it. */
module TransferJobs {
  import opened Wrappers
  import opened Json

  /** The calendar day `datetime.now()` falls on, passed in. */
  datatype Day = Day(day: nat, month: nat, year: nat)

  datatype TransferJob = TransferJob(
    name: string,
    description: string,
    projectId: string,
    sourceBucket: string,
    sourcePath: string,
    awsAccessKeyId: string,
    awsAccessKeySecret: string,
    destBucket: string,
    destPath: string)

  function DayJson(d: Day): Json {
    JObj(map["day" := JInt(d.day), "month" := JInt(d.month), "year" := JInt(d.year)])
  }

  /** `to_dict`, on the day it is called. */
  function ToDict(job: TransferJob, today: Day): Json {
    JObj(map[
      "name" := JStr(job.name),
      "description" := JStr(job.description),
      "status" := JStr("ENABLED"),
      "projectId" := JStr(job.projectId),
      "schedule" := ScheduleJson(today),
      "transferSpec" := SpecJson(job)])
  }

  function ScheduleJson(today: Day): Json {
    JObj(map["scheduleStartDate" := DayJson(today), "scheduleEndDate" := DayJson(today)])
  }

  function SpecJson(job: TransferJob): Json {
    JObj(map[
      "awsS3DataSource" := SourceJson(job),
      "gcsDataSink" := SinkJson(job),
      "transferOptions" := JObj(map["overwriteObjectsAlreadyExistingInSink" := JBool(false)])])
  }

  function SourceJson(job: TransferJob): Json {
    JObj(map[
      "bucketName" := JStr(job.sourceBucket),
      "awsAccessKey" := JObj(map[
        "accessKeyId" := JStr(job.awsAccessKeyId),
        "secretAccessKey" := JStr(job.awsAccessKeySecret)]),
      "path" := JStr(job.sourcePath)])
  }

  function SinkJson(job: TransferJob): Json {
    JObj(map["bucketName" := JStr(job.destBucket), "path" := JStr(job.destPath)])
  }

  /** The string found at `path`, if there is one. */
  function StrAt(d: Json, path: seq<string>): Option<string> {
    match GetPath(d, path)
    case Ok(JStr(s)) => Some(s)
    case _ => None
  }

  /** The job a creation request describes, read back field by field. */
  function JobOfDict(d: Json): Option<TransferJob> {
    var name := StrAt(d, ["name"]);
    var description := StrAt(d, ["description"]);
    var projectId := StrAt(d, ["projectId"]);
    var sourceBucket := StrAt(d, ["transferSpec", "awsS3DataSource", "bucketName"]);
    var sourcePath := StrAt(d, ["transferSpec", "awsS3DataSource", "path"]);
    var keyId := StrAt(d, ["transferSpec", "awsS3DataSource", "awsAccessKey", "accessKeyId"]);
    var secret := StrAt(d, ["transferSpec", "awsS3DataSource", "awsAccessKey", "secretAccessKey"]);
    var destBucket := StrAt(d, ["transferSpec", "gcsDataSink", "bucketName"]);
    var destPath := StrAt(d, ["transferSpec", "gcsDataSink", "path"]);
    if name.Some? && description.Some? && projectId.Some? && sourceBucket.Some? && sourcePath.Some?
      && keyId.Some? && secret.Some? && destBucket.Some? && destPath.Some?
    then Some(TransferJob(name.value, description.value, projectId.value, sourceBucket.value, sourcePath.value,
      keyId.value, secret.value, destBucket.value, destPath.value))
    else None
  }

  /** Every field of the job is copied into the request unchanged: reading
      the request back gives the job. */
  lemma ToDictRoundTrip(job: TransferJob, today: Day)
    ensures JobOfDict(ToDict(job, today)) == Some(job)
  {
    var d := ToDict(job, today);
    assert GetPath(d, ["name"]) == Ok(JStr(job.name));
    assert GetPath(d, ["description"]) == Ok(JStr(job.description));
    assert GetPath(d, ["projectId"]) == Ok(JStr(job.projectId));
    SourcePaths(job, today);
    SinkPaths(job, today);
  }

  lemma SourcePaths(job: TransferJob, today: Day)
    ensures StrAt(ToDict(job, today), ["transferSpec", "awsS3DataSource", "bucketName"]) == Some(job.sourceBucket)
    ensures StrAt(ToDict(job, today), ["transferSpec", "awsS3DataSource", "path"]) == Some(job.sourcePath)
    ensures StrAt(ToDict(job, today), ["transferSpec", "awsS3DataSource", "awsAccessKey", "accessKeyId"]) == Some(job.awsAccessKeyId)
    ensures StrAt(ToDict(job, today), ["transferSpec", "awsS3DataSource", "awsAccessKey", "secretAccessKey"]) == Some(job.awsAccessKeySecret)
  {
    var d := ToDict(job, today);
    GetPathThreeFound(d, "transferSpec", "awsS3DataSource", "bucketName");
    GetPathThreeFound(d, "transferSpec", "awsS3DataSource", "path");
    GetPathFourFound(d, "transferSpec", "awsS3DataSource", "awsAccessKey", "accessKeyId");
    GetPathFourFound(d, "transferSpec", "awsS3DataSource", "awsAccessKey", "secretAccessKey");
  }

  lemma SinkPaths(job: TransferJob, today: Day)
    ensures StrAt(ToDict(job, today), ["transferSpec", "gcsDataSink", "bucketName"]) == Some(job.destBucket)
    ensures StrAt(ToDict(job, today), ["transferSpec", "gcsDataSink", "path"]) == Some(job.destPath)
  {
    var d := ToDict(job, today);
    GetPathThreeFound(d, "transferSpec", "gcsDataSink", "bucketName");
    GetPathThreeFound(d, "transferSpec", "gcsDataSink", "path");
  }

  /** Whatever the job, the request enables it, schedules it to start and end
      on the same day -- so it runs once -- and never overwrites objects
      already in the sink. */
  lemma ToDictFixed(job: TransferJob, today: Day)
    ensures GetPath(ToDict(job, today), ["status"]) == Ok(JStr("ENABLED"))
    ensures GetPath(ToDict(job, today), ["schedule", "scheduleStartDate"]) == Ok(DayJson(today))
    ensures GetPath(ToDict(job, today), ["schedule", "scheduleEndDate"]) == Ok(DayJson(today))
    ensures GetPath(ToDict(job, today), ["transferSpec", "transferOptions", "overwriteObjectsAlreadyExistingInSink"])
      == Ok(JBool(false))
    ensures ToDict(job, today).fields.Keys == {"name", "description", "status", "projectId", "schedule", "transferSpec"}
  {
    var d := ToDict(job, today);
    GetPathTwo(d, "schedule", "scheduleStartDate");
    GetPathTwo(d, "schedule", "scheduleEndDate");
    GetPathThreeFound(d, "transferSpec", "transferOptions", "overwriteObjectsAlreadyExistingInSink");
  }
}
