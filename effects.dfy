/** The collaborators the exporter's orchestration code talks to -- the
    message broker, the ingest REST API, the staging bucket, the transfer
    service, the graph crawler and the exporters a handler delegates to --
    seen through the calls made on them.  A `World` records every call in
    order; a call may raise (its exception is fixed in advance) and may
    answer a JSON value. */
module Effects {
  import opened Wrappers
  import opened Json
  import GcsStorages

  /** `DataTransferState` and `ExportContextState`: both use the values
      "STARTED" and "COMPLETE". */
  datatype Progress = Started | Complete

  datatype Call =
    // message broker
    | Ack
    | Nack
    | Reject(requeue: bool)
    | Publish(body: Json)
    // staging bucket
    | StagingWrite(bucket: string, key: string, data: GcsStorages.Payload)
    // ingest API
    | GetEntity(entityType: string, uuid: Json)
    | GetRelatedProjects(resource: Json)
    | GetLatestSchemaUrl(highLevel: string, domain: string, concrete: string)
    | CreateExportEntity(jobId: Json, assayProcessId: Json)
    | SetDataFileTransfer(jobId: Json, state: Progress)
    | SetSpreadsheetGeneration(jobId: Json, state: Progress)
    | StartSpreadsheetGeneration(submissionUuid: Json)
    | SetSpreadsheetGenerationId(jobId: Json, generationId: Json)
    | JobExists(exportJobId: string)
    | ApiPost(url: string, body: Json)
    | ApiGet(url: string)
    | ApiPatch(url: string, body: Json)
    | ApiCheck(url: string)
    | GetExportJob(exportJobId: string)
    | IsDataTransferComplete(jobId: Json)
    | SetDataTransferComplete(jobId: Json)
    | WaitForDataTransferState(jobId: Json, startWaitSec: nat, maxWaitSec: nat)
    // exporters and services a caller keeps abstract
    | ExportExperiment(processUuid: Json)
    | StartDataFileTransfer(jobId: Json, submissionUuid: Json, projectUuid: Json)
    | ExportSpreadsheet(projectUuid: Json, submissionUuid: Json)
    | ExportManifest(processUuid: Json, submissionUuid: Json)
    | NotifyStateTracker(body: Json)
    | TerraExport(processUuid: Json, submissionUuid: Json, jobId: Json)
    | Crawl(process: Json, project: Json)
    | GetWorkbook(submissionUuid: Json)
    // data transfer
    | CreateTransferJob(spec: Json)
    | ListTransferOperations(projectId: string, transferJobName: string)
    | TransferDataFiles(submission: Json, projectId: string, jobId: Json)
    | WaitForTransfer(jobName: Json, startWaitSec: nat, maxWaitSec: nat)

  /** Which calls raise, and what the others answer (None when absent). */
  datatype Env = Env(failures: map<Call, Exception>, answers: map<Call, Json>)

  /** The outcome of one call. */
  function Outcome(c: Call, env: Env): (r: Result<Json>)
    ensures r.Err? <==> c in env.failures
  {
    if c in env.failures then Err(env.failures[c])
    else Ok(if c in env.answers then env.answers[c] else JNull)
  }

  class World {
    /** The calls made so far, including the ones that raised. */
    var trace: seq<Call>
    const env: Env

    constructor(env: Env)
      ensures this.env == env && trace == []
    {
      this.env := env;
      trace := [];
    }

    method Perform(c: Call) returns (r: Result<Json>)
      modifies this
      ensures trace == old(trace) + [c]
      ensures r == Outcome(c, env)
    {
      trace := trace + [c];
      r := Outcome(c, env);
    }

    /** A call whose answer is not used. */
    method Fire(c: Call) returns (r: Result<()>)
      modifies this
      ensures trace == old(trace) + [c]
      ensures r == if c in env.failures then Err(env.failures[c]) else Ok(())
    {
      trace := trace + [c];
      r := if c in env.failures then Err(env.failures[c]) else Ok(());
    }

    /** Straight-line statements making `calls` one after the other. */
    method FireAll(calls: seq<Call>) returns (r: Result<()>)
      modifies this
      ensures trace == old(trace) + Run(Sequence(calls), env).trace
      ensures r == Run(Sequence(calls), env).result
      decreases |calls|
    {
      if calls == [] {
        return Ok(());
      }
      RunSequenceCons(calls[0], calls[1..], env);
      assert [calls[0]] + calls[1..] == calls;
      r := Fire(calls[0]);
      if r.Err? {
        return;
      }
      r := FireAll(calls[1..]);
    }
  }

  /** Straight-line code that makes `calls` in order and nothing else. */
  function Sequence(calls: seq<Call>): (steps: seq<Step>)
    ensures |steps| == |calls| && forall i :: 0 <= i < |calls| ==> steps[i] == Do(calls[i])
  {
    seq(|calls|, i requires 0 <= i < |calls| => Do(calls[i]))
  }

  /** One step of straight-line code: a call, or an exception raised by the
      code itself (a failed lookup or parse). */
  datatype Step = Do(call: Call) | Raise(error: Exception)

  datatype Execution = Execution(trace: seq<Call>, result: Result<()>)

  /** The calls a lookup made and what it gave back. */
  datatype Fetched<T> = Fetched(trace: seq<Call>, value: Result<T>)

  /** Straight-line code: each step in order, up to the first that raises. */
  function Run(steps: seq<Step>, env: Env): (x: Execution)
    decreases |steps|
  {
    if steps == [] then Execution([], Ok(()))
    else match steps[0]
      case Raise(e) => Execution([], Err(e))
      case Do(c) =>
        if c in env.failures then Execution([c], Err(env.failures[c]))
        else
          var rest := Run(steps[1..], env);
          Execution([c] + rest.trace, rest.result)
  }

  /** The step at `i` neither raises nor fails. */
  predicate Succeeds(steps: seq<Step>, i: int, env: Env)
    requires 0 <= i < |steps|
  {
    steps[i].Do? && steps[i].call !in env.failures
  }

  /** The calls of the steps. */
  function Calls(steps: seq<Step>): (cs: seq<Call>)
    ensures |cs| <= |steps|
    decreases |steps|
  {
    if steps == [] then []
    else (if steps[0].Do? then [steps[0].call] else []) + Calls(steps[1..])
  }

  /** Straight-line code completes, having made every call in order,
      exactly when no step raises. */
  lemma {:induction false} RunOk(steps: seq<Step>, env: Env)
    ensures Run(steps, env).result.Ok? <==> forall i :: 0 <= i < |steps| ==> Succeeds(steps, i, env)
    ensures Run(steps, env).result.Ok? ==> Run(steps, env).trace == Calls(steps)
    decreases |steps|
  {
    if steps != [] && Succeeds(steps, 0, env) {
      RunOk(steps[1..], env);
      forall i | 1 <= i < |steps|
        ensures Succeeds(steps, i, env) == Succeeds(steps[1..], i - 1, env)
      {
        assert steps[1..][i - 1] == steps[i];
      }
      if forall i :: 0 <= i < |steps[1..]| ==> Succeeds(steps[1..], i, env) {
        forall i | 0 <= i < |steps|
          ensures Succeeds(steps, i, env)
        {
          if i > 0 {
            assert Succeeds(steps[1..], i - 1, env);
          }
        }
      } else {
        var j :| 0 <= j < |steps[1..]| && !Succeeds(steps[1..], j, env);
        assert !Succeeds(steps, j + 1, env);
      }
    } else if steps != [] {
      assert !Succeeds(steps, 0, env);
    }
  }

  /** Otherwise it stops at the first step that raises: the calls made are
      those of the steps before it plus the call that failed, and the error
      is that step's. */
  lemma {:induction false} RunStops(steps: seq<Step>, k: int, env: Env)
    requires 0 <= k < |steps| && FailsFirstAt(steps, k, env)
    ensures Run(steps, env) == Stopped(steps, k, env)
    decreases |steps|
  {
    if k == 0 {
      assert steps[..0] == [];
    } else {
      assert Succeeds(steps, 0, env);
      assert steps[1..][k - 1] == steps[k];
      forall i | 0 <= i < k - 1
        ensures Succeeds(steps[1..], i, env)
      {
        assert steps[1..][i] == steps[i + 1];
        assert Succeeds(steps, i + 1, env);
      }
      assert FailsFirstAt(steps[1..], k - 1, env);
      RunStops(steps[1..], k - 1, env);
      var prefix := steps[..k];
      assert prefix[0] == steps[0] && prefix[1..] == steps[1..][..k - 1];
      assert Calls(prefix) == [steps[0].call] + Calls(steps[1..][..k - 1]);
    }
  }

  /** `k` is the first step that raises or fails. */
  predicate FailsFirstAt(steps: seq<Step>, k: int, env: Env)
    requires 0 <= k < |steps|
  {
    !Succeeds(steps, k, env) && forall i :: 0 <= i < k ==> Succeeds(steps, i, env)
  }

  /** Where the code stops when step `k` is the first to raise. */
  function Stopped(steps: seq<Step>, k: int, env: Env): Execution
    requires 0 <= k < |steps| && !Succeeds(steps, k, env)
  {
    var failed := if steps[k].Do? then [steps[k].call] else [];
    var error := if steps[k].Do? then env.failures[steps[k].call] else steps[k].error;
    Execution(Calls(steps[..k]) + failed, Err(error))
  }

  /** A sequence of calls stops at the first call that raises: what is made
      is a prefix of the calls, every call in it but the last succeeded, and
      when the code completes every call was made. */
  lemma {:induction false} RunSequence(calls: seq<Call>, env: Env)
    ensures var x := Run(Sequence(calls), env);
      && x.trace <= calls
      && (x.result.Ok? ==> x.trace == calls)
      && (x.result.Err? ==>
            |x.trace| >= 1 && x.trace[|x.trace| - 1] in env.failures
            && x.result == Err(env.failures[x.trace[|x.trace| - 1]]))
      && forall i :: 0 <= i < |x.trace| - 1 ==> x.trace[i] !in env.failures
    decreases |calls|
  {
    if calls != [] {
      var c, rest := calls[0], calls[1..];
      assert [c] + rest == calls;
      RunSequenceCons(c, rest, env);
      if c !in env.failures {
        RunSequence(rest, env);
        var y := Run(Sequence(rest), env);
        var x := Run(Sequence(calls), env);
        assert x.trace == [c] + y.trace;
        forall i | 0 < i < |x.trace| - 1
          ensures x.trace[i] !in env.failures
        {
          assert x.trace[i] == y.trace[i - 1];
        }
      }
    }
  }

  /** The sequence completes exactly when none of its calls raises. */
  lemma {:induction false} RunSequenceOk(calls: seq<Call>, env: Env)
    ensures Run(Sequence(calls), env).result.Ok? <==> forall i :: 0 <= i < |calls| ==> calls[i] !in env.failures
    decreases |calls|
  {
    if calls != [] {
      var c, rest := calls[0], calls[1..];
      assert [c] + rest == calls;
      RunSequenceCons(c, rest, env);
      RunSequenceOk(rest, env);
      if c !in env.failures && !(forall i :: 0 <= i < |rest| ==> rest[i] !in env.failures) {
        var j :| 0 <= j < |rest| && rest[j] in env.failures;
        assert calls[j + 1] in env.failures;
      }
    }
  }

  /** The first call of a sequence is made first; the rest runs only if it
      succeeds. */
  lemma RunSequenceCons(c: Call, rest: seq<Call>, env: Env)
    ensures Run(Sequence([c] + rest), env) ==
      if c in env.failures then Execution([c], Err(env.failures[c]))
      else Execution([c] + Run(Sequence(rest), env).trace, Run(Sequence(rest), env).result)
  {
    assert Sequence([c] + rest)[1..] == Sequence(rest);
  }

  /** The calls a run makes are the first calls of its steps. */
  lemma {:induction false} RunTracePrefix(steps: seq<Step>, env: Env)
    ensures Run(steps, env).trace <= Calls(steps)
    decreases |steps|
  {
    if steps != [] && steps[0].Do? && steps[0].call !in env.failures {
      RunTracePrefix(steps[1..], env);
    }
  }

  /** Code made of two pieces runs the second only if the first completes. */
  lemma {:induction false} RunAppend(a: seq<Step>, b: seq<Step>, env: Env)
    ensures Run(a + b, env) ==
      if Run(a, env).result.Err? then Run(a, env)
      else Execution(Run(a, env).trace + Run(b, env).trace, Run(b, env).result)
    decreases |a|
  {
    if a == [] {
      assert a + b == b;
    } else {
      assert (a + b)[1..] == a[1..] + b;
      RunAppend(a[1..], b, env);
    }
  }

  lemma CallsAppend(a: seq<Step>, b: seq<Step>)
    ensures Calls(a + b) == Calls(a) + Calls(b)
    decreases |a|
  {
    if a != [] {
      var ab := a + b;
      assert ab[0] == a[0];
      assert ab[1..] == a[1..] + b;
      CallsAppend(a[1..], b);
      assert Calls(ab) == (if a[0].Do? then [a[0].call] else []) + Calls(ab[1..]);
    } else {
      assert a + b == b;
    }
  }

  /** A call performed in the world after `steps` ran extends the run by one
      step. */
  lemma RunOne(c: Call, env: Env)
    ensures Run([Do(c)], env) == Execution([c], if c in env.failures then Err(env.failures[c]) else Ok(()))
  {
  }

  /** Two calls in a row: the second is made only if the first succeeds. */
  lemma RunPair(a: Call, b: Call, env: Env)
    ensures Run([Do(a), Do(b)], env) ==
      if a in env.failures then Execution([a], Err(env.failures[a]))
      else Execution([a, b], if b in env.failures then Err(env.failures[b]) else Ok(()))
  {
    var steps := [Do(a), Do(b)];
    assert steps[0] == Do(a) && steps[1..] == [Do(b)];
    RunOne(b, env);
  }

  /** Sequence concatenation is associative; stated once so that callers
      with large contexts need not rediscover it. */
  lemma AppendAssoc<T>(a: seq<T>, b: seq<T>, c: seq<T>)
    ensures (a + b) + c == a + (b + c)
  {
  }
}
