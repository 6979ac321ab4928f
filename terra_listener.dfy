/** `_TerraListener` (exporter/terra/listener.py): the listener that exports
    one experiment per message.  The whole handling sits in an outer `try`
    whose handler rejects the message; the export and what follows sit in
    an inner `try` whose handler rejects it too. */
module TerraListeners {
  import opened Wrappers
  import opened Json
  import opened Effects
  import opened Messages

  /** The inner `try`: export the experiment, then `log_complete_experiment`
      (record the assay, republish the message, ack). */
  function ExportCalls(m: ExperimentMessage): seq<Call> {
    [TerraExport(m.processUuid, m.submissionUuid, m.jobId)] + CompleteCalls(m)
  }

  /** `log_complete_experiment` */
  function CompleteCalls(m: ExperimentMessage): seq<Call> {
    [CreateExportEntity(m.jobId, m.processId), Publish(ExperimentAsDict(m)), Ack]
  }

  /** The message as `_experiment_message_handler` decodes it. */
  function Decode(body: Option<Json>): (r: Result<ExperimentMessage>)
    ensures r.Err? ==> r.error == (if body.None? then JsonDecodeError else ExperimentMessageParseException)
  {
    var d :- Loads(body);
    ExperimentFromDict(d)
  }

  /** What `_experiment_message_handler` does, given how the calls go.  A
      reject that raises inside the inner handler is caught by the outer
      one, which rejects again; the same call raises again. */
  function HandleExperiment(body: Option<Json>, env: Env): Execution {
    var reject := Reject(false);
    var m := Decode(body);
    if m.Err? then
      Execution([reject], if reject in env.failures then Err(env.failures[reject]) else Ok(()))
    else
      Rescued(Run(Sequence(ExportCalls(m.value)), env), env)
  }

  /** The inner `try` and its handler: a failed run is followed by a
      reject, and by a second one when the first raises. */
  function Rescued(inner: Execution, env: Env): Execution {
    var reject := Reject(false);
    if inner.result.Ok? then inner
    else if reject !in env.failures then Execution(inner.trace + [reject], Ok(()))
    else Execution(inner.trace + [reject, reject], Err(env.failures[reject]))
  }

  /** A body that cannot be decoded is rejected, once and without
      requeueing, and nothing is exported. */
  lemma UnparseableRejected(body: Option<Json>, env: Env)
    requires Decode(body).Err?
    ensures HandleExperiment(body, env).trace == [Reject(false)]
  {
  }

  /** Otherwise the exporter is called first, with the process, the
      submission and the job; the run completes, having recorded the assay,
      republished the message and acked it in that order, exactly when none
      of these calls raises. */
  lemma HandleExperimentOk(body: Option<Json>, env: Env)
    requires Decode(body).Ok?
    ensures var m := Decode(body).value;
      var x := HandleExperiment(body, env);
      var calls := ExportCalls(m);
      && x.trace[0] == TerraExport(m.processUuid, m.submissionUuid, m.jobId)
      && ((forall i :: 0 <= i < |calls| ==> calls[i] !in env.failures) <==> x == Execution(calls, Ok(())))
  {
    RescuedRuns(ExportCalls(Decode(body).value), env);
  }

  /** A rescued run starts with its first call, and completes with exactly
      its calls when none of them raises. */
  lemma RescuedRuns(calls: seq<Call>, env: Env)
    requires calls != [] && calls[|calls| - 1] != Reject(false)
    ensures var x := Rescued(Run(Sequence(calls), env), env);
      && x.trace[0] == calls[0]
      && ((forall i :: 0 <= i < |calls| ==> calls[i] !in env.failures) <==> x == Execution(calls, Ok(())))
  {
    RunSequence(calls, env);
    RunSequenceOk(calls, env);
    var inner := Run(Sequence(calls), env);
    if inner.result.Ok? {
      OkUnit(inner.result);
    } else {
      var x := Rescued(inner, env);
      assert inner.trace[0] == calls[0];
      assert x.trace[|x.trace| - 1] == Reject(false);
    }
  }

  /** If any of them raises, the message is rejected without requeueing;
      it is left unrejected only when everything succeeded; and an ack is
      attempted only after the export, the record and the republish. */
  lemma HandleExperimentRejects(body: Option<Json>, env: Env)
    requires Decode(body).Ok?
    ensures var x := HandleExperiment(body, env);
      var calls := ExportCalls(Decode(body).value);
      && (Reject(false) !in x.trace <==> x == Execution(calls, Ok(())))
      && (x.trace != calls ==> x.trace[|x.trace| - 1] == Reject(false))
      && (Ack in x.trace ==> calls <= x.trace)
  {
    var calls := ExportCalls(Decode(body).value);
    assert Reject(false) !in calls && calls[|calls| - 1] == Ack && Ack !in calls[..|calls| - 1];
    RescuedRejects(calls, env);
  }

  /** The same for any calls that hold no reject and end with the only
      ack. */
  lemma RescuedRejects(calls: seq<Call>, env: Env)
    requires calls != [] && Reject(false) !in calls
    requires calls[|calls| - 1] == Ack && Ack !in calls[..|calls| - 1]
    ensures var x := Rescued(Run(Sequence(calls), env), env);
      && (Reject(false) !in x.trace <==> x == Execution(calls, Ok(())))
      && (x.trace != calls ==> x.trace[|x.trace| - 1] == Reject(false))
      && (Ack in x.trace ==> calls <= x.trace)
  {
    RunSequence(calls, env);
    var inner := Run(Sequence(calls), env);
    if inner.result.Ok? {
      OkUnit(inner.result);
    } else {
      assert Reject(false) !in inner.trace;
      if Ack in inner.trace {
        var k :| 0 <= k < |inner.trace| && inner.trace[k] == Ack;
        assert calls[k] == Ack;
        assert inner.trace == calls;
      }
    }
  }

  class TerraListener {
    const world: World

    constructor(world: World)
      ensures this.world == world
    {
      this.world := world;
    }

    /** `_experiment_message_handler` */
    method ExperimentMessageHandler(body: Option<Json>) returns (r: Result<()>)
      modifies world
      ensures world.trace == old(world.trace) + HandleExperiment(body, world.env).trace
      ensures r == HandleExperiment(body, world.env).result
    {
      var m := Decode(body);
      if m.Err? {
        r := world.Fire(Reject(false));
        return;
      }
      var exported := ExportExperiment(m.value);
      if exported.Err? {
        r := world.Fire(Reject(false));
        if r.Err? {
          r := world.Fire(Reject(false));
        }
      } else {
        r := exported;
      }
    }

    /** The body of the inner `try`: export, then `log_complete_experiment`. */
    method ExportExperiment(m: ExperimentMessage) returns (r: Result<()>)
      modifies world
      ensures world.trace == old(world.trace) + Run(Sequence(ExportCalls(m)), world.env).trace
      ensures r == Run(Sequence(ExportCalls(m)), world.env).result
    {
      r := world.Fire(TerraExport(m.processUuid, m.submissionUuid, m.jobId));
      RunSequenceCons(ExportCalls(m)[0], CompleteCalls(m), world.env);
      if r.Ok? {
        r := LogCompleteExperiment(m);
      }
    }

    /** `log_complete_experiment` */
    method LogCompleteExperiment(m: ExperimentMessage) returns (r: Result<()>)
      modifies world
      ensures world.trace == old(world.trace) + Run(Sequence(CompleteCalls(m)), world.env).trace
      ensures r == Run(Sequence(CompleteCalls(m)), world.env).result
    {
      r := world.FireAll(CompleteCalls(m));
    }
  }
}
