/** `IngestService` (exporter/ingest/service.py): recording exported assays
    on an export job in the ingest API, and completing the job once every
    expected assay is recorded.  All state lives behind the API; the calls
    are `ApiPost`, `ApiGet`, `ApiPatch` and `ApiCheck` on full URLs. */
module IngestServices {
  import opened Wrappers
  import opened Json
  import opened Effects
  import ExportJobs
  import Resource

  // ------------------------------------------------------------------ URLs

  /** `get_job_url`: the API's base URL followed by '/exportJobs/{id}'. */
  function JobUrl(base: string, jobId: string): string {
    base + "/exportJobs/" + jobId
  }

  /** `get_export_entities_url` */
  function EntitiesUrl(base: string, jobId: string): string {
    base + "/exportJobs/" + jobId + "/entities"
  }

  /** The query for the job's entities with status EXPORTED. */
  function ExportedEntitiesUrl(base: string, jobId: string): string {
    EntitiesUrl(base, jobId) + "?status=" + ExportJobs.StateValue(ExportJobs.Exported)
  }

  /** The entity collection and its query live under the job's URL, and
      different jobs have different URLs. */
  lemma UrlsSpec(base: string, a: string, b: string)
    ensures EntitiesUrl(base, a) == JobUrl(base, a) + "/entities"
    ensures ExportedEntitiesUrl(base, a) == JobUrl(base, a) + "/entities?status=EXPORTED"
    ensures JobUrl(base, a) == JobUrl(base, b) <==> a == b
  {
    var prefix := base + "/exportJobs/";
    assert JobUrl(base, a) == prefix + a && JobUrl(base, b) == prefix + b;
    if JobUrl(base, a) == JobUrl(base, b) {
      assert a == JobUrl(base, a)[|prefix|..];
    }
  }

  // ----------------------------------------------------------------- calls

  /** The entity posted for one assay: EXPORTED, without errors. */
  function EntityPost(base: string, jobId: string, assayProcessId: Json): Call {
    ApiPost(EntitiesUrl(base, jobId), ExportJobs.EntityToDict(ExportJobs.ExportEntity(assayProcessId, [])))
  }

  /** `complete_job`'s patch; it depends on nothing but the job, so
      completing a job twice writes the same status twice. */
  function CompletePatch(base: string, jobId: string): (c: Call)
    ensures c.ApiPatch? && c.url == JobUrl(base, jobId) && c.body == JObj(map["status" := JStr("EXPORTED")])
  {
    ApiPatch(JobUrl(base, jobId), JObj(map["status" := JStr(ExportJobs.StateValue(ExportJobs.Exported))]))
  }

  /** `DataTransferState`'s values. */
  function ProgressValue(p: Progress): string {
    match p
    case Started => "STARTED"
    case Complete => "COMPLETE"
  }

  /** `set_data_file_transfer`'s patch: only `dataFileTransfer`, on the
      job's context. */
  function TransferPatch(base: string, jobId: string, state: Progress): (c: Call)
    ensures c.ApiPatch? && c.url == JobUrl(base, jobId) + "/context"
    ensures c.body.JObj? && c.body.fields.Keys == {"dataFileTransfer"}
  {
    ApiPatch(JobUrl(base, jobId) + "/context", JObj(map["dataFileTransfer" := JStr(ProgressValue(state))]))
  }

  /** `int(response["page"]["totalElements"])` */
  function CountOf(response: Json): Result<int> {
    var total :- GetPath(response, ["page", "totalElements"]);
    ExportJobs.PyInt(total)
  }

  /** Python's `==` between the job's expected count and an int. */
  predicate EqualsInt(j: Json, n: int) {
    match j
    case JInt(i) => i == n
    case JBool(b) => (if b then 1 else 0) == n
    case _ => false
  }

  // ------------------------------------------------------------- executions

  /** `_maybe_complete_job`: the job is read, then the number of exported
      entities, and the job is completed when the two agree. */
  function MaybeComplete(base: string, jobId: string, env: Env): Execution {
    var getJob := GetExportJob(jobId);
    var getCount := ApiGet(ExportedEntitiesUrl(base, jobId));
    if getJob in env.failures then Execution([getJob], Err(env.failures[getJob]))
    else if getCount in env.failures then Execution([getJob, getCount], Err(env.failures[getCount]))
    else
      var count := CountOf(Outcome(getCount, env).value);
      if count.Err? then Execution([getJob, getCount], Err(count.error))
      else if !EqualsInt(Outcome(getJob, env).value, count.value) then Execution([getJob, getCount], Ok(()))
      else
        var patch := CompletePatch(base, jobId);
        Execution([getJob, getCount, patch], if patch in env.failures then Err(env.failures[patch]) else Ok(()))
  }

  /** `create_export_entity` */
  function CreateEntity(base: string, jobId: string, assayProcessId: Json, env: Env): Execution {
    var post := EntityPost(base, jobId, assayProcessId);
    if post in env.failures then Execution([post], Err(env.failures[post]))
    else
      var rest := MaybeComplete(base, jobId, env);
      Execution([post] + rest.trace, rest.result)
  }

  /** After the entity is posted, the job is read and the exported entities
      counted afresh, and the job is patched to EXPORTED exactly when the
      expected count equals the exported count. */
  lemma CreateEntityCompletes(base: string, jobId: string, assayProcessId: Json, env: Env)
    ensures var x := CreateEntity(base, jobId, assayProcessId, env);
      var post := EntityPost(base, jobId, assayProcessId);
      var getJob := GetExportJob(jobId);
      var getCount := ApiGet(ExportedEntitiesUrl(base, jobId));
      && x.trace[0] == post
      && (post !in env.failures ==> x.trace[1] == getJob)
      && (post !in env.failures && getJob !in env.failures ==> x.trace[2] == getCount)
      && (CompletePatch(base, jobId) in x.trace <==>
            && post !in env.failures && getJob !in env.failures && getCount !in env.failures
            && CountOf(Outcome(getCount, env).value).Ok?
            && EqualsInt(Outcome(getJob, env).value, CountOf(Outcome(getCount, env).value).value))
  {
    var x := CreateEntity(base, jobId, assayProcessId, env);
    var post := EntityPost(base, jobId, assayProcessId);
    var getJob := GetExportJob(jobId);
    var getCount := ApiGet(ExportedEntitiesUrl(base, jobId));
    var patch := CompletePatch(base, jobId);
    assert post != patch && getJob != patch && getCount != patch;
  }

  /** The test is equality: more exported entities than expected never
      complete the job. */
  lemma OverCountNeverCompletes(base: string, jobId: string, assayProcessId: Json, env: Env, expected: int)
    requires GetExportJob(jobId) !in env.failures && Outcome(GetExportJob(jobId), env).value == JInt(expected)
    requires var o := Outcome(ApiGet(ExportedEntitiesUrl(base, jobId)), env);
      o.Ok? && CountOf(o.value).Ok? ==> CountOf(o.value).value > expected
    ensures CompletePatch(base, jobId) !in CreateEntity(base, jobId, assayProcessId, env).trace
  {
    CreateEntityCompletes(base, jobId, assayProcessId, env);
  }

  /** The posted entity is EXPORTED, carries the assay and no errors, and
      goes to the job's entity collection. */
  lemma EntityPostSpec(base: string, jobId: string, assayProcessId: Json)
    ensures var c := EntityPost(base, jobId, assayProcessId);
      && c.url == JobUrl(base, jobId) + "/entities"
      && Get(c.body, "status") == Ok(JStr("EXPORTED"))
      && ExportJobs.EntityOfDict(c.body) == Some(ExportJobs.ExportEntity(assayProcessId, []))
  {
    ExportJobs.EntityToDictSpec(ExportJobs.ExportEntity(assayProcessId, []));
  }

  // ------------------------------------------------------------ metadata

  /** `get_metadata`: the entity of that type and uuid, read by
      `MetadataResource.from_dict`. */
  function FetchMetadata(entityType: string, uuid: string, env: Env): Fetched<Resource.MetadataResource> {
    var c := GetEntity(entityType, JStr(uuid));
    var answer := Outcome(c, env);
    Fetched([c], if answer.Err? then Err(answer.error) else Resource.FromDict(answer.value))
  }

  /** `list(related)[0]`: the related entities come back as a list. */
  function FirstRelated(related: Json): Result<Json> {
    if !related.JArr? then Err(TypeError)
    else if related.items == [] then Err(IndexError)
    else Ok(related.items[0])
  }

  /** `project_for_process`: the first project related to the process's
      full document. */
  function FetchProjectForProcess(process: Resource.MetadataResource, env: Env): Fetched<Resource.MetadataResource> {
    var c := GetRelatedProjects(process.fullResource);
    var answer := Outcome(c, env);
    Fetched([c],
      if answer.Err? then Err(answer.error)
      else match FirstRelated(answer.value)
        case Err(e) => Err(e)
        case Ok(first) => Resource.FromDict(first))
  }

  /** One call fetches the entity by type and uuid; the resource keeps the
      whole document and its uuid; a failed call's error is passed on, and a
      document `from_dict` cannot read gives that error instead. */
  lemma FetchMetadataSpec(entityType: string, uuid: string, env: Env)
    ensures var f := FetchMetadata(entityType, uuid, env);
      var c := GetEntity(entityType, JStr(uuid));
      && f.trace == [c]
      && (c in env.failures ==> f.value == Err(env.failures[c]))
      && (c !in env.failures ==>
            && (f.value.Ok? <==> Resource.FromDict(Outcome(c, env).value).Ok?)
            && (f.value.Ok? ==>
                  && f.value.value.fullResource == Outcome(c, env).value
                  && Outcome(c, env).value.fields["uuid"].fields["uuid"] == JStr(f.value.value.uuid)))
  {
    var c := GetEntity(entityType, JStr(uuid));
    if c !in env.failures && Resource.FromDict(Outcome(c, env).value).Ok? {
      Resource.FromDictFields(Outcome(c, env).value);
    }
  }

  /** The project is read from the first of the related entities and from
      nothing else; no related project is an IndexError. */
  lemma FetchProjectForProcessSpec(process: Resource.MetadataResource, env: Env)
    ensures var f := FetchProjectForProcess(process, env);
      var c := GetRelatedProjects(process.fullResource);
      var answer := Outcome(c, env);
      && f.trace == [c]
      && (answer.Ok? && answer.value == JArr([]) ==> f.value == Err(IndexError))
      && (f.value.Ok? <==>
            && answer.Ok? && answer.value.JArr? && |answer.value.items| > 0
            && Resource.FromDict(answer.value.items[0]).Ok?)
      && (f.value.Ok? ==> f.value.value.fullResource == answer.value.items[0])
  {
    var answer := Outcome(GetRelatedProjects(process.fullResource), env);
    if answer.Ok? && answer.value.JArr? && |answer.value.items| > 0 && Resource.FromDict(answer.value.items[0]).Ok? {
      Resource.FromDictFields(answer.value.items[0]);
    }
  }

  class IngestService {
    const base: string
    const world: World

    constructor(base: string, world: World)
      ensures this.base == base && this.world == world
    {
      this.base := base;
      this.world := world;
    }

    /** `create_export_entity` */
    method CreateExportEntity(jobId: string, assayProcessId: Json) returns (r: Result<()>)
      modifies world
      ensures world.trace == old(world.trace) + CreateEntity(base, jobId, assayProcessId, world.env).trace
      ensures r == CreateEntity(base, jobId, assayProcessId, world.env).result
    {
      var posted := world.Perform(EntityPost(base, jobId, assayProcessId));
      if posted.Err? {
        return Err(posted.error);
      }
      r := MaybeCompleteJob(jobId);
    }

    /** `_maybe_complete_job` */
    method MaybeCompleteJob(jobId: string) returns (r: Result<()>)
      modifies world
      ensures world.trace == old(world.trace) + MaybeComplete(base, jobId, world.env).trace
      ensures r == MaybeComplete(base, jobId, world.env).result
    {
      var job := world.Perform(GetExportJob(jobId));
      if job.Err? {
        return Err(job.error);
      }
      var count := GetNumCompleteEntitiesForJob(jobId);
      if count.Err? {
        return Err(count.error);
      }
      if EqualsInt(job.value, count.value) {
        r := CompleteJob(jobId);
      } else {
        r := Ok(());
      }
    }

    /** `get_num_complete_entities_for_job` */
    method GetNumCompleteEntitiesForJob(jobId: string) returns (r: Result<int>)
      modifies world
      ensures world.trace == old(world.trace) + [ApiGet(ExportedEntitiesUrl(base, jobId))]
      ensures var response := Outcome(ApiGet(ExportedEntitiesUrl(base, jobId)), world.env);
        r == if response.Err? then Err(response.error) else CountOf(response.value)
    {
      var response := world.Perform(ApiGet(ExportedEntitiesUrl(base, jobId)));
      if response.Err? {
        return Err(response.error);
      }
      r := CountOf(response.value);
    }

    /** `complete_job` */
    method CompleteJob(jobId: string) returns (r: Result<()>)
      modifies world
      ensures world.trace == old(world.trace) + [CompletePatch(base, jobId)]
      ensures r == Run([Do(CompletePatch(base, jobId))], world.env).result
    {
      var answer := world.Perform(CompletePatch(base, jobId));
      r := if answer.Err? then Err(answer.error) else Ok(());
    }

    /** `job_exists`: whether the job's URL answers OK. */
    method JobExists(jobId: string) returns (r: Result<bool>)
      modifies world
      ensures world.trace == old(world.trace) + [ApiCheck(JobUrl(base, jobId))]
      ensures var answer := Outcome(ApiCheck(JobUrl(base, jobId)), world.env);
        r == if answer.Err? then Err(answer.error) else Ok(Truthy(answer.value))
    {
      var answer := world.Perform(ApiCheck(JobUrl(base, jobId)));
      if answer.Err? {
        return Err(answer.error);
      }
      r := Ok(Truthy(answer.value));
    }

    /** `set_data_file_transfer` */
    method SetDataFileTransfer(jobId: string, state: Progress) returns (r: Result<()>)
      modifies world
      ensures world.trace == old(world.trace) + [TransferPatch(base, jobId, state)]
      ensures r == Run([Do(TransferPatch(base, jobId, state))], world.env).result
    {
      var answer := world.Perform(TransferPatch(base, jobId, state));
      r := if answer.Err? then Err(answer.error) else Ok(());
    }

    /** `get_metadata` */
    method GetMetadata(entityType: string, uuid: string) returns (r: Result<Resource.MetadataResource>)
      modifies world
      ensures world.trace == old(world.trace) + FetchMetadata(entityType, uuid, world.env).trace
      ensures r == FetchMetadata(entityType, uuid, world.env).value
    {
      var answer := world.Perform(GetEntity(entityType, JStr(uuid)));
      if answer.Err? {
        return Err(answer.error);
      }
      r := Resource.FromDict(answer.value);
    }

    /** `project_for_process` */
    method ProjectForProcess(process: Resource.MetadataResource) returns (r: Result<Resource.MetadataResource>)
      modifies world
      ensures world.trace == old(world.trace) + FetchProjectForProcess(process, world.env).trace
      ensures r == FetchProjectForProcess(process, world.env).value
    {
      var answer := world.Perform(GetRelatedProjects(process.fullResource));
      if answer.Err? {
        return Err(answer.error);
      }
      var first := FirstRelated(answer.value);
      if first.Err? {
        return Err(first.error);
      }
      r := Resource.FromDict(first.value);
    }
  }
}
