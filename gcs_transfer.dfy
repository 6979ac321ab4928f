/** `GcsTransfer` (exporter/terra/gcs/transfer.py): starting a Storage
    Transfer job and reading whether it has completed.  The transfer service
    is seen through the calls `CreateTransferJob` and `ListTransferOperations`
    made on the `World`. */
module GcsTransfers {
  import opened Wrappers
  import opened Json
  import opened Effects
  import TransferJobs

  /** `start_job`'s exception mapping: an `HttpError` with status 409
      (Conflict, section 15.5.10 of RFC 9110) means the job already exists,
      any other `HttpError` that it could not start; other exceptions are
      not caught. */
  function ClassifyCreateError(e: Exception): (r: Exception)
    ensures e.HttpError? ==> (r == FileTransferAlreadyExists <==> e.status == 409)
    ensures e.HttpError? ==> (r == FileTransferCouldNotStart <==> e.status != 409)
    ensures !e.HttpError? ==> r == e
  {
    if e.HttpError? then
      if e.status == 409 then FileTransferAlreadyExists else FileTransferCouldNotStart
    else e
  }

  /** What `start_job` does with the outcome of the create call for `body`. */
  function StartOutcome(body: Json, env: Env): Result<()> {
    var answer := Outcome(CreateTransferJob(body), env);
    if answer.Err? then Err(ClassifyCreateError(answer.error)) else Ok(())
  }

  /** A create that succeeds raises nothing; a create rejected with 409
      raises `FileTransferAlreadyExists` and no other status does. */
  lemma StartOutcomeSpec(body: Json, env: Env)
    ensures StartOutcome(body, env).Ok? <==> CreateTransferJob(body) !in env.failures
    ensures StartOutcome(body, env) == Err(FileTransferAlreadyExists) <==>
      CreateTransferJob(body) in env.failures &&
        (env.failures[CreateTransferJob(body)] == HttpError(409)
         || env.failures[CreateTransferJob(body)] == FileTransferAlreadyExists)
  {
  }

  // ------------------------------------------------------------ completion

  /** `len(j)`: lists, strings and dicts have a length. */
  function PyLen(j: Json): (r: Result<nat>)
    ensures r.Ok? <==> j.JArr? || j.JStr? || j.JObj?
  {
    match j
    case JArr(items) => Ok(|items|)
    case JStr(s) => Ok(|s|)
    case JObj(m) => Ok(|m.Keys|)
    case _ => Err(TypeError)
  }

  /** `j[0]` on a value of non-zero length: the first element of a list, the
      first character of a string, and the key 0 -- never a string key -- of
      a dict. */
  function FirstItem(j: Json): Result<Json>
    requires PyLen(j).Ok? && PyLen(j).value > 0
  {
    match j
    case JArr(items) => Ok(items[0])
    case JStr(s) => Ok(JStr([s[0]]))
    case JObj(_) => Err(KeyError("0"))
  }

  /** `except (KeyError, IndexError)`: both become a
      `TransferOperationsParseError`. */
  function ConvertParseError<T>(r: Result<T>): (c: Result<T>)
    ensures r.Ok? ==> c == r
    ensures r.Err? ==> c.Err?
  {
    if r.Err? && (r.error.KeyError? || r.error == IndexError) then Err(TransferOperationsParseError) else r
  }

  /** `is_job_complete`'s reading of the listed operations: the first
      operation's `done` (False when absent), the first operation itself when
      it is falsy, and None when there is none. */
  function JobCompletion(response: Json): Result<Json> {
    ConvertParseError(
      var operations :- DictGetOr(response, "operations", JArr([]));
      var n :- PyLen(operations);
      if n == 0 then Ok(JNull)
      else
        var operation :- FirstItem(operations);
        if !Truthy(operation) then Ok(operation)
        else DictGetOr(operation, "done", JBool(false)))
  }

  /** With the operations listed, the job counts as complete exactly when
      the first operation is a dict whose `done` is truthy; a first operation
      that is neither a dict nor falsy raises. */
  lemma JobCompletionOfList(response: Json, ops: seq<Json>)
    requires response.JObj? && "operations" in response.fields && response.fields["operations"] == JArr(ops)
    ensures JobCompletion(response).Ok? <==> ops == [] || ops[0].JObj? || !Truthy(ops[0])
    ensures JobCompletion(response).Ok? ==>
      (Truthy(JobCompletion(response).value) <==>
        ops != [] && ops[0].JObj? && "done" in ops[0].fields && Truthy(ops[0].fields["done"]))
  {
    if ops != [] && ops[0].JObj? && Truthy(ops[0]) {
      assert DictGetOr(ops[0], "done", JBool(false)).Ok?;
    }
  }

  /** Operations after the first are never read. */
  lemma JobCompletionFirstOnly(fields: map<string, Json>, ops: seq<Json>)
    requires ops != []
    ensures JobCompletion(JObj(fields["operations" := JArr(ops)]))
      == JobCompletion(JObj(fields["operations" := JArr([ops[0]])]))
  {
  }

  /** A response that lists no operations, or none yet, is not complete. */
  lemma JobCompletionNoOperations(fields: map<string, Json>)
    ensures JobCompletion(JObj(fields["operations" := JArr([])])) == Ok(JNull)
    ensures "operations" !in fields ==> JobCompletion(JObj(fields)) == Ok(JNull)
  {
  }

  /** A dict where the operation list belongs raises
      `TransferOperationsParseError`, as does reading `[0]` from it. */
  lemma JobCompletionOfDict(fields: map<string, Json>, ops: map<string, Json>)
    requires ops != map[]
    ensures JobCompletion(JObj(fields["operations" := JObj(ops)])) == Err(TransferOperationsParseError)
  {
    var k :| k in ops;
    assert k in ops.Keys;
    assert |ops.Keys| > 0;
  }

  /** What `is_job_complete` returns: the listing's failure, or its
      reading. */
  function CompletionOutcome(projectId: string, jobName: string, env: Env): Result<Json> {
    var answer := Outcome(ListTransferOperations(projectId, jobName), env);
    if answer.Err? then Err(answer.error) else JobCompletion(answer.value)
  }

  class GcsTransfer {
    const world: World

    constructor(world: World)
      ensures this.world == world
    {
      this.world := world;
    }

    /** `start_job`: one create call carrying the job's request body. */
    method StartJob(job: TransferJobs.TransferJob, today: TransferJobs.Day) returns (r: Result<()>)
      modifies world
      ensures world.trace == old(world.trace) + [CreateTransferJob(TransferJobs.ToDict(job, today))]
      ensures r == StartOutcome(TransferJobs.ToDict(job, today), world.env)
    {
      var body := TransferJobs.ToDict(job, today);
      var answer := world.Perform(CreateTransferJob(body));
      if answer.Err? {
        r := Err(ClassifyCreateError(answer.error));
      } else {
        r := Ok(());
      }
    }

    /** `is_job_complete`: one listing filtered by project and job name. */
    method IsJobComplete(projectId: string, jobName: string) returns (r: Result<Json>)
      modifies world
      ensures world.trace == old(world.trace) + [ListTransferOperations(projectId, jobName)]
      ensures r == CompletionOutcome(projectId, jobName, world.env)
    {
      var response := world.Perform(ListTransferOperations(projectId, jobName));
      if response.Err? {
        return Err(response.error);
      }
      r := JobCompletion(response.value);
    }
  }
}
