/** `TerraTransferResponder.handle_message`
    (exporter/terra/submission/responder.py): a transfer-service
    notification that a transfer job succeeded marks the export job's data
    files as transferred.  A notification carries string attributes; the
    reply to the broker is `Ack` or `Nack`. */
module Responders {
  import opened Wrappers
  import opened Json
  import opened Strings
  import opened Effects
  import TransferClients

  const SuccessEvent := "TRANSFER_OPERATION_SUCCESS"
  const JobPrefix := "transferJobs/"

  /** `attributes.get(key, "")` */
  function Attribute(attributes: map<string, string>, key: string): string {
    if key in attributes then attributes[key] else ""
  }

  /** The export job a success notification is about, if it names one. */
  function NotifiedJob(attributes: map<string, string>): Option<string> {
    if Attribute(attributes, "eventType") != SuccessEvent then None
    else
      var name := Attribute(attributes, "transferJobName");
      if !StartsWith(name, JobPrefix) then None
      else Some(ReplaceAll(name, JobPrefix, ""))
  }

  /** Removing the prefix inverts the job naming of the transfer client for
      every export job id that does not itself contain the prefix. */
  lemma NotifiedJobOfName(attributes: map<string, string>, exportJobId: string)
    requires Attribute(attributes, "eventType") == SuccessEvent
    requires Attribute(attributes, "transferJobName") == TransferClients.JobName(exportJobId)
    requires !Contains(exportJobId, JobPrefix)
    ensures NotifiedJob(attributes) == Some(exportJobId)
  {
    var name := JobPrefix + exportJobId;
    assert Attribute(attributes, "transferJobName") == name;
    SplitAfterPrefix(JobPrefix, exportJobId);
    SplitFree(exportJobId, JobPrefix);
    var parts := Split(name, JobPrefix);
    assert parts == ["", exportJobId];
    assert parts[1..] == [exportJobId];
    assert Join(parts, "") == "" + "" + exportJobId;
    assert ReplaceAll(name, JobPrefix, "") == exportJobId;
    assert name[..|JobPrefix|] == JobPrefix;
    assert StartsWith(name, JobPrefix);
  }

  /** A notification is about an export job exactly when it reports success
      and names a transfer job. */
  lemma NotifiedJobSpec(attributes: map<string, string>)
    ensures NotifiedJob(attributes).Some? <==>
      Attribute(attributes, "eventType") == SuccessEvent && StartsWith(Attribute(attributes, "transferJobName"), JobPrefix)
  {
  }

  /** What `handle_message` does, given how the calls go. */
  function Respond(attributes: map<string, string>, env: Env): Execution {
    var job := NotifiedJob(attributes);
    if job.None? then Run([Do(Nack)], env)
    else
      var found := Outcome(JobExists(job.value), env);
      if found.Err? then Execution([JobExists(job.value)], Err(found.error))
      else if !Truthy(found.value) then
        var nack := Run([Do(Nack)], env);
        Execution([JobExists(job.value)] + nack.trace, nack.result)
      else
        var done := Run([Do(SetDataFileTransfer(JStr(job.value), Complete)), Do(Ack)], env);
        Execution([JobExists(job.value)] + done.trace, done.result)
  }

  /** A notification that is not a success, or names no transfer job, or
      names an export job unknown here, is nacked and changes nothing; no
      other call is made. */
  lemma RespondNack(attributes: map<string, string>, env: Env)
    ensures NotifiedJob(attributes).None? ==> Respond(attributes, env).trace == [Nack]
    ensures NotifiedJob(attributes).Some? ==>
      var id := NotifiedJob(attributes).value;
      JobExists(id) !in env.failures && !Truthy(Outcome(JobExists(id), env).value) ==>
        Respond(attributes, env).trace == [JobExists(id), Nack]
  {
  }

  /** Otherwise the data-file transfer is set to COMPLETE, and only then is
      the message acked; if recording fails it is neither acked nor nacked.
      The job's current state is never read, so a repeated notification sets
      COMPLETE again. */
  lemma RespondComplete(attributes: map<string, string>, env: Env)
    requires NotifiedJob(attributes).Some?
    ensures var id := NotifiedJob(attributes).value;
      var x := Respond(attributes, env);
      var patch := SetDataFileTransfer(JStr(id), Complete);
      JobExists(id) !in env.failures && Truthy(Outcome(JobExists(id), env).value) ==>
        && (patch !in env.failures ==> x.trace == [JobExists(id), patch, Ack])
        && (patch in env.failures ==> x == Execution([JobExists(id), patch], Err(env.failures[patch])))
  {
    var id := NotifiedJob(attributes).value;
    RunPair(SetDataFileTransfer(JStr(id), Complete), Ack, env);
  }

  /** The calls a notification can lead to: a nack alone; the lookup
      alone, when it fails; the lookup and a nack; the lookup and the
      record, when recording fails; or the lookup, the record and the ack. */
  lemma RespondTraces(attributes: map<string, string>, env: Env)
    ensures var x := Respond(attributes, env);
      var id := NotifiedJob(attributes);
      if id.None? then x.trace == [Nack]
      else
        var check := JobExists(id.value);
        var patch := SetDataFileTransfer(JStr(id.value), Complete);
        x.trace in {[check], [check, Nack], [check, patch], [check, patch, Ack]}
  {
    RunOne(Nack, env);
    var x := Respond(attributes, env);
    if NotifiedJob(attributes).Some? {
      var id := NotifiedJob(attributes).value;
      var check := JobExists(id);
      if check in env.failures {
        assert x.trace == [check];
      } else if !Truthy(Outcome(check, env).value) {
        assert x.trace == [check, Nack];
      } else {
        RespondComplete(attributes, env);
      }
    }
  }

  /** The broker hears back at most once, an ack only after COMPLETE was
      recorded for the notified job, and nothing but that job's
      `dataFileTransfer` is ever changed. */
  lemma RespondOrder(attributes: map<string, string>, env: Env)
    ensures var x := Respond(attributes, env);
      && |x.trace| <= 3
      && (Ack in x.trace ==>
            && x.trace[|x.trace| - 1] == Ack && NotifiedJob(attributes).Some?
            && x.trace[|x.trace| - 2] == SetDataFileTransfer(JStr(NotifiedJob(attributes).value), Complete))
      && !(Ack in x.trace && Nack in x.trace)
      && forall c :: c in x.trace ==> c in {Ack, Nack} || c.JobExists? || c == SetDataFileTransfer(JStr(NotifiedJob(attributes).value), Complete)
  {
    RespondTraces(attributes, env);
    var x := Respond(attributes, env);
    if NotifiedJob(attributes).None? {
      assert x.trace == [Nack];
    } else {
      var id := NotifiedJob(attributes).value;
      OrderOfTraces(x.trace, JobExists(id), SetDataFileTransfer(JStr(id), Complete));
    }
  }

  lemma OrderOfTraces(t: seq<Call>, check: Call, patch: Call)
    requires check.JobExists? && patch.SetDataFileTransfer?
    requires t in {[check], [check, Nack], [check, patch], [check, patch, Ack]}
    ensures |t| <= 3
    ensures Ack in t ==> t[|t| - 1] == Ack && t[|t| - 2] == patch
    ensures !(Ack in t && Nack in t)
    ensures forall c :: c in t ==> c in {Ack, Nack} || c.JobExists? || c == patch
  {
  }

  class TerraTransferResponder {
    const world: World

    constructor(world: World)
      ensures this.world == world
    {
      this.world := world;
    }

    /** `handle_message` with `hande_data_transfer_complete` */
    method HandleMessage(attributes: map<string, string>) returns (r: Result<()>)
      modifies world
      ensures world.trace == old(world.trace) + Respond(attributes, world.env).trace
      ensures r == Respond(attributes, world.env).result
    {
      if Attribute(attributes, "eventType") != SuccessEvent {
        r := world.Fire(Nack);
        RunOne(Nack, world.env);
        return;
      }
      var name := Attribute(attributes, "transferJobName");
      if !StartsWith(name, JobPrefix) {
        r := world.Fire(Nack);
        RunOne(Nack, world.env);
        return;
      }
      var exportJobId := ReplaceAll(name, JobPrefix, "");
      var found := world.Perform(JobExists(exportJobId));
      if found.Err? {
        return Err(found.error);
      }
      if !Truthy(found.value) {
        r := world.Fire(Nack);
        RunOne(Nack, world.env);
        return;
      }
      RunPair(SetDataFileTransfer(JStr(exportJobId), Complete), Ack, world.env);
      r := world.Fire(SetDataFileTransfer(JStr(exportJobId), Complete));
      if r.Err? {
        return;
      }
      r := world.Fire(Ack);
    }
  }
}
