/** `ManifestReceiver.on_message` (manifest/receiver.py): exports the
    manifest of one process per message, then tells the state tracker and
    acks. */
module ManifestReceivers {
  import opened Wrappers
  import opened Json
  import opened Effects
  import opened Messages

  /** What the `try` reads before exporting: the callback link (which is
      concatenated to a string, so must be one), the index and the total,
      then the process and the submission to export. */
  function ManifestExport(d: Json): (r: Result<Call>)
    ensures r.Ok? <==>
      && d.JObj? && {"callbackLink", "index", "total", "documentUuid", "envelopeUuid"} <= d.fields.Keys
      && d.fields["callbackLink"].JStr?
    ensures r.Ok? ==> r.value == ExportManifest(d.fields["documentUuid"], d.fields["envelopeUuid"])
  {
    var link :- Get(d, "callbackLink");
    if !link.JStr? then Err(TypeError)
    else
      var index :- Get(d, "index");
      var total :- Get(d, "total");
      var process :- Get(d, "documentUuid");
      var submission :- Get(d, "envelopeUuid");
      Ok(ExportManifest(process, submission))
  }

  /** What `on_message` does, given how the calls go.  The body is decoded
      before the `try`; only the export sits inside it. */
  function Receive(body: Option<Json>, env: Env): Execution {
    var decoded := Loads(body);
    if decoded.Err? then Execution([], Err(decoded.error))
    else
      var d := decoded.value;
      var exporting := ManifestExport(d);
      var tried := if exporting.Err? then Execution([], Err(exporting.error)) else Run([Do(exporting.value)], env);
      if tried.result.Err? then
        var reject := Reject(false);
        Execution(tried.trace + [reject], if reject in env.failures then Err(env.failures[reject]) else Ok(()))
      else
        var rest := Run(Sequence([NotifyStateTracker(d), Ack]), env);
        Execution(tried.trace + rest.trace, rest.result)
  }

  /** Malformed JSON raises before the `try`: the message is neither acked
      nor rejected. */
  lemma MalformedNeitherAckedNorRejected(env: Env)
    ensures Receive(None, env) == Execution([], Err(JsonDecodeError))
  {
  }

  /** A body missing a field the `try` reads is rejected without
      requeueing, with nothing exported and no ack. */
  lemma MissingFieldRejected(d: Json, env: Env)
    requires ManifestExport(d).Err?
    ensures Receive(Some(d), env).trace == [Reject(false)]
  {
  }

  /** Otherwise the exporter is called with the document and envelope
      uuids; a failed export is rejected without requeueing; after a
      successful one the state tracker is told and then the message is
      acked, and a failed notification leaves it neither acked nor
      rejected. */
  lemma ExportedThenNotified(fields: map<string, Json>, env: Env)
    requires ManifestExport(JObj(fields)).Ok?
    ensures var d := JObj(fields);
      var exporting := ExportManifest(fields["documentUuid"], fields["envelopeUuid"]);
      var notify := NotifyStateTracker(d);
      var x := Receive(Some(d), env);
      && (exporting in env.failures ==> x.trace == [exporting, Reject(false)])
      && (exporting !in env.failures && notify in env.failures ==> x == Execution([exporting, notify], Err(env.failures[notify])))
      && (exporting !in env.failures && notify !in env.failures ==> x.trace == [exporting, notify, Ack])
  {
    var d := JObj(fields);
    RunOne(ExportManifest(fields["documentUuid"], fields["envelopeUuid"]), env);
    RunPair(NotifyStateTracker(d), Ack, env);
    assert Sequence([NotifyStateTracker(d), Ack]) == [Do(NotifyStateTracker(d)), Do(Ack)];
  }

  /** The message is acked only after a successful export and
      notification, and an acked message is never rejected. */
  lemma AckOnlyAfterNotify(body: Option<Json>, env: Env)
    ensures var x := Receive(body, env);
      Ack in x.trace ==>
        && body.Some? && |x.trace| == 3 && x.trace[1] == NotifyStateTracker(body.value) && x.trace[2] == Ack
        && x.trace[0] !in env.failures && Reject(false) !in x.trace
  {
    var x := Receive(body, env);
    if body.Some? {
      var d := body.value;
      if ManifestExport(d).Err? {
        MissingFieldRejected(d, env);
        assert Ack !in x.trace;
      } else {
        var exporting := ManifestExport(d).value;
        ExportedThenNotified(d.fields, env);
        if exporting in env.failures || NotifyStateTracker(d) in env.failures {
          assert Ack !in x.trace;
        } else {
          assert x.trace == [exporting, NotifyStateTracker(d), Ack];
        }
      }
    }
  }

  class ManifestReceiver {
    const world: World

    constructor(world: World)
      ensures this.world == world
    {
      this.world := world;
    }

    /** `on_message` */
    method OnMessage(body: Option<Json>) returns (r: Result<()>)
      modifies world
      ensures world.trace == old(world.trace) + Receive(body, world.env).trace
      ensures r == Receive(body, world.env).result
    {
      var decoded := Loads(body);
      if decoded.Err? {
        return Err(decoded.error);
      }
      var exporting := ManifestExport(decoded.value);
      var success := false;
      if exporting.Ok? {
        RunOne(exporting.value, world.env);
        var exported := world.Fire(exporting.value);
        success := exported.Ok?;
      }
      if !success {
        r := world.Fire(Reject(false));
        return;
      }
      r := world.FireAll([NotifyStateTracker(decoded.value), Ack]);
    }
  }
}
