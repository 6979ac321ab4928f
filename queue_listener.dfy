/** `QueueListener` (exporter/queue/listener.py): decodes each message body,
    builds the handler's context from it, runs the handler, and rejects the
    message without requeueing when the handler raises. */
module QueueListeners {
  import opened Wrappers
  import opened Json
  import opened Effects
  import opened Messages
  import opened Handlers

  /** What `try_handle_or_reject` does, given the handler and how the calls
      go.  The decoding and the context come before the `try`. */
  function HandleOrReject(kind: HandlerKind, body: Option<Json>, env: Env): Execution {
    var decoded := Loads(body);
    if decoded.Err? then Execution([], Err(decoded.error))
    else
      var context := ContextOf(kind, decoded.value);
      if context.Err? then Execution([], Err(context.error))
      else
        var handled := Handle(kind, decoded.value, env);
        if handled.result.Ok? then handled
        else
          var reject := Reject(false);
          Execution(handled.trace + [reject], if reject in env.failures then Err(env.failures[reject]) else Ok(()))
  }

  /** A body that is not JSON raises before the `try`: nothing is handled and
      nothing is rejected.  So does a body that is JSON but not a dict, whose
      context cannot be built. */
  lemma UndecodableNotRejected(kind: HandlerKind, body: Option<Json>, env: Env)
    ensures body.None? ==> HandleOrReject(kind, body, env) == Execution([], Err(JsonDecodeError))
    ensures body.Some? && !body.value.JObj? ==> HandleOrReject(kind, body, env) == Execution([], Err(AttributeError))
  {
  }

  /** Otherwise the handler runs on the decoded body; if it raises, the
      message is rejected exactly once, without requeueing, after the
      handler's calls; the listener itself never acks, so an ack is always
      the handler's. */
  lemma RejectsOnHandlerError(kind: HandlerKind, fields: map<string, Json>, env: Env)
    ensures var x := HandleOrReject(kind, Some(JObj(fields)), env);
      var handled := Handle(kind, JObj(fields), env);
      && (handled.result.Ok? ==> x == handled)
      && (handled.result.Err? ==> x.trace == handled.trace + [Reject(false)])
      && |set c | c in x.trace && c.Reject?| == (if handled.result.Err? then 1 else 0)
      && (Reject(false) in env.failures ==> x.result.Ok? == handled.result.Ok?)
      && (Reject(false) !in env.failures ==> x.result.Ok?)
      && (Ack in x.trace <==> Ack in handled.trace)
  {
    var x := HandleOrReject(kind, Some(JObj(fields)), env);
    var handled := Handle(kind, JObj(fields), env);
    HandlersNeverReject(kind, JObj(fields), env);
    if handled.result.Err? {
      assert (set c | c in x.trace && c.Reject?) == {Reject(false)};
    } else {
      assert (set c | c in x.trace && c.Reject?) == {};
    }
  }

  class QueueListener {
    var connection: Option<string>
    const handler: MessageHandler

    constructor(handler: MessageHandler)
      ensures this.handler == handler && connection == None
    {
      this.handler := handler;
      connection := None;
    }

    /** `add_connection`: the handler is given the producer of the new
        connection. */
    method AddConnection(connection: string)
      modifies this, handler
      ensures this.connection == Some(connection)
      ensures handler.producer == Some(Producer(connection))
    {
      this.connection := Some(connection);
      handler.AddProducer(Producer(connection));
    }

    /** `try_handle_or_reject` */
    method TryHandleOrReject(body: Option<Json>) returns (r: Result<()>)
      modifies handler.world
      ensures var x := HandleOrReject(handler.kind, body, handler.world.env);
        handler.world.trace == old(handler.world.trace) + x.trace && r == x.result
    {
      var decoded := Loads(body);
      if decoded.Err? {
        return Err(decoded.error);
      }
      var context := ContextOf(handler.kind, decoded.value);
      if context.Err? {
        return Err(context.error);
      }
      r := handler.HandleMessage(decoded.value);
      if r.Err? {
        r := handler.world.Fire(Reject(false));
      }
    }
  }
}
