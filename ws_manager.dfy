/** `WSManager` of server/wsmanager.py: it files each accepted socket under a uid,
    tells every registered handler about connects and disconnects, and routes inbound
    envelopes `{"handler": name, ...}` to the named handler. What a handler does with
    a call is modelled by the app classes of the Rewrite and Chat modules; here the
    calls themselves are recorded, in order. */
module ServerWsManager {
  import opened Common
  import opened WsEvents

  /** An accepted WebSocket. */
  datatype Socket = Socket(id: nat)

  /** One inbound JSON message, already decoded: an object, or any other JSON value. */
  datatype Inbound = Object(fields: map<string, Json>) | NonObject(value: Json)

  /** One awaited call of a handler coroutine. */
  datatype HandlerCall =
    | HConnect(handler: string, uid: Uid, send: Channel)
    | HMessage(handler: string, uid: Uid, data: map<string, Json>)
    | HDisconnect(handler: string, uid: Uid)

  /** The uid a connection is filed under: the caller's, else a fresh `uuid4`. */
  function ChooseUid(given: Option<Uid>, newUid: Uid): (r: Uid)
    ensures given.Some? ==> r == given.value
    ensures given.None? ==> r == newUid
  {
    if given.Some? then given.value else newUid
  }

  /** The `match` of `handle_messages`: an object whose "handler" is a string is routed
      to that name with the "handler" key removed; anything else is ignored. */
  function Route(msg: Inbound): (r: Option<(string, map<string, Json>)>)
    ensures r.Some? <==> msg.Object? && "handler" in msg.fields && msg.fields["handler"].JString?
    ensures r.Some? ==> r.value.0 == msg.fields["handler"].s
    ensures r.Some? ==> r.value.1.Keys == msg.fields.Keys - {"handler"}
    ensures r.Some? ==> forall k :: k in r.value.1 ==> r.value.1[k] == msg.fields[k]
  {
    match msg
    case NonObject(_) => None
    case Object(fields) =>
      if "handler" in fields && fields["handler"].JString? then Some((fields["handler"].s, fields - {"handler"}))
      else None
  }

  /** The calls `connect` is meant to make: each handler, in registration order, is
      told the uid and the connection's send callback. */
  function ConnectCalls(handlers: seq<string>, uid: Uid): (r: seq<HandlerCall>)
    ensures |r| == |handlers|
    ensures forall i :: 0 <= i < |r| ==> r[i] == HConnect(handlers[i], uid, Channel(uid))
  {
    seq(|handlers|, i requires 0 <= i < |handlers| => HConnect(handlers[i], uid, Channel(uid)))
  }

  /** The calls `disconnect` is meant to make, one per handler in registration order. */
  function DisconnectCalls(handlers: seq<string>, uid: Uid): (r: seq<HandlerCall>)
    ensures |r| == |handlers|
    ensures forall i :: 0 <= i < |r| ==> r[i] == HDisconnect(handlers[i], uid)
  {
    seq(|handlers|, i requires 0 <= i < |handlers| => HDisconnect(handlers[i], uid))
  }

  /** The manager's state: the `connections` dict and the handler calls made so far. */
  datatype ManagerModel = ManagerModel(connections: map<Uid, Socket>, calls: seq<HandlerCall>)

  datatype Step = Step(model: ManagerModel, err: Option<Error>)

  // ---------------------------------------------------------------------------
  // `asyncio.gather` as written.

  /** `asyncio.gather(generator)` as written: the generator is passed as one argument
      instead of being unpacked into coroutines, so gather raises and no handler body
      runs. Under Python 3.11 an empty generator is accepted as a legacy coroutine
      and finishes at once; a non-empty one makes the task fail on its first yield. */
  function GatherAsWritten(handlers: seq<string>): (r: Option<Error>)
    ensures r.Some? <==> |handlers| > 0
  {
    if |handlers| > 0 then Some(GatherRejected) else None
  }

  /** `connect` as written: the socket is filed, then gather raises. */
  function ConnectAsWritten(m: ManagerModel, handlers: seq<string>, ws: Socket, uid: Uid): (r: Step)
    ensures r.model.connections == m.connections[uid := ws]
    ensures r.model.calls == m.calls
    ensures r.err.Some? <==> |handlers| > 0
  {
    Step(m.(connections := m.connections[uid := ws]), GatherAsWritten(handlers))
  }

  /** `disconnect` as written: gather raises before the `del`, so the uid stays filed. */
  function DisconnectAsWritten(m: ManagerModel, handlers: seq<string>, uid: Uid): (r: Step)
    ensures |handlers| > 0 ==> r.model == m && r.err == Some(GatherRejected)
    ensures |handlers| == 0 ==> (r.err.None? <==> uid in m.connections)
    ensures |handlers| == 0 && uid in m.connections ==> r.model.connections == m.connections - {uid}
  {
    if |handlers| > 0 then Step(m, Some(GatherRejected))
    else if uid !in m.connections then Step(m, Some(KeyError(JString(uid))))
    else Step(m.(connections := m.connections - {uid}), None)
  }

  /** With a handler registered, a connection that comes and goes as written is never
      shown to any handler and is never removed from `connections`. */
  lemma ConnectionLeaksAsWritten(m: ManagerModel, handlers: seq<string>, ws: Socket, uid: Uid)
    requires |handlers| > 0
    ensures var c := ConnectAsWritten(m, handlers, ws, uid);
      var d := DisconnectAsWritten(c.model, handlers, uid);
      && c.err == Some(GatherRejected) && d.err == Some(GatherRejected)
      && uid in d.model.connections && d.model.calls == m.calls
  {
  }

  // ---------------------------------------------------------------------------
  // The evidently intended behaviour: every handler is awaited in turn.

  /** `connect`: the socket is filed under the uid, then every handler is called. */
  function ConnectStep(m: ManagerModel, handlers: seq<string>, ws: Socket, uid: Uid): (r: Step)
    ensures r.err == None
    ensures r.model.connections == m.connections[uid := ws]
    ensures r.model.calls == m.calls + ConnectCalls(handlers, uid)
  {
    Step(ManagerModel(m.connections[uid := ws], m.calls + ConnectCalls(handlers, uid)), None)
  }

  /** `disconnect`: every handler is called, then the `del` raises KeyError if the uid
      is not filed. */
  function DisconnectStep(m: ManagerModel, handlers: seq<string>, uid: Uid): (r: Step)
    ensures r.model.calls == m.calls + DisconnectCalls(handlers, uid)
    ensures r.err.None? <==> uid in m.connections
    ensures r.err.Some? ==> r.err.value == KeyError(JString(uid)) && r.model.connections == m.connections
    ensures r.err.None? ==> r.model.connections == m.connections - {uid}
  {
    var calls := m.calls + DisconnectCalls(handlers, uid);
    if uid !in m.connections then Step(m.(calls := calls), Some(KeyError(JString(uid))))
    else Step(ManagerModel(m.connections - {uid}, calls), None)
  }

  /** One inbound message from `uid`: routed to its handler, ignored, or KeyError
      (which ends `handle_messages`) for an unknown handler name. */
  function MessageStep(m: ManagerModel, handlers: seq<string>, uid: Uid, msg: Inbound): (r: Step)
    ensures r.model.connections == m.connections
    ensures Route(msg).None? ==> r == Step(m, None)
    ensures Route(msg).Some? && Route(msg).value.0 !in handlers ==>
      r == Step(m, Some(KeyError(JString(Route(msg).value.0))))
    ensures Route(msg).Some? && Route(msg).value.0 in handlers ==>
      r.err.None? && r.model.calls == m.calls + [HMessage(Route(msg).value.0, uid, Route(msg).value.1)]
  {
    match Route(msg)
    case None => Step(m, None)
    case Some((name, data)) =>
      if name !in handlers then Step(m, Some(KeyError(JString(name))))
      else Step(m.(calls := m.calls + [HMessage(name, uid, data)]), None)
  }

  /** The envelope key never reaches a handler, and every other key does unchanged. */
  lemma RouteStripsOnlyHandler(fields: map<string, Json>, name: string)
    requires "handler" in fields && fields["handler"] == JString(name)
    ensures Route(Object(fields)) == Some((name, fields - {"handler"}))
    ensures "handler" !in Route(Object(fields)).value.1
  {
  }

  /** A connection that comes and goes is filed and unfiled, and each handler sees its
      connect and then its disconnect. */
  lemma ConnectThenDisconnect(m: ManagerModel, handlers: seq<string>, ws: Socket, uid: Uid)
    ensures var c := ConnectStep(m, handlers, ws, uid);
      var d := DisconnectStep(c.model, handlers, uid);
      && d.err.None?
      && d.model.connections == m.connections - {uid}
      && d.model.calls == m.calls + ConnectCalls(handlers, uid) + DisconnectCalls(handlers, uid)
  {
  }

  /** `del self.connections[uid]` is not idempotent: a second disconnect still calls
      every handler, then raises KeyError. */
  lemma DisconnectTwiceRaises(m: ManagerModel, handlers: seq<string>, uid: Uid)
    requires uid in m.connections
    ensures var first := DisconnectStep(m, handlers, uid);
      var second := DisconnectStep(first.model, handlers, uid);
      && first.err.None?
      && second.err == Some(KeyError(JString(uid)))
      && second.model.connections == first.model.connections
  {
  }

  // ---------------------------------------------------------------------------
  // The mutable objects.

  /** The `handlers` dict: its names in registration order, and the calls made on it. */
  class Handlers {
    const names: seq<string>
    var calls: seq<HandlerCall>

    constructor (names: seq<string>)
      requires NoDup(names)
      ensures this.names == names && calls == []
    {
      this.names := names;
      calls := [];
    }
  }

  class WSManager {
    var connections: map<Uid, Socket>
    const handlers: Handlers

    function Model(): ManagerModel
      reads this, handlers
    {
      ManagerModel(connections, handlers.calls)
    }

    constructor (handlers: Handlers)
      ensures this.handlers == handlers && connections == map[]
    {
      connections := map[];
      this.handlers := handlers;
    }

    /** Files the socket under the given or a fresh uid, then calls every handler. */
    method Connect(ws: Socket, given: Option<Uid>, newUid: Uid) returns (uid: Uid)
      modifies this, handlers
      ensures uid == ChooseUid(given, newUid)
      ensures Model() == ConnectStep(old(Model()), handlers.names, ws, uid).model
    {
      uid := if given.Some? then given.value else newUid;
      connections := connections[uid := ws];
      for i := 0 to |handlers.names|
        invariant connections == old(connections)[uid := ws]
        invariant handlers.calls == old(handlers.calls) + ConnectCalls(handlers.names, uid)[..i]
      {
        handlers.calls := handlers.calls + [HConnect(handlers.names[i], uid, Channel(uid))];
        assert ConnectCalls(handlers.names, uid)[..i + 1]
          == ConnectCalls(handlers.names, uid)[..i] + [HConnect(handlers.names[i], uid, Channel(uid))];
      }
    }

    /** Calls every handler, then unfiles the uid (KeyError if it is not filed). */
    method Disconnect(uid: Uid) returns (err: Option<Error>)
      modifies this, handlers
      ensures var r := DisconnectStep(old(Model()), handlers.names, uid);
        Model() == r.model && err == r.err
    {
      for i := 0 to |handlers.names|
        invariant connections == old(connections)
        invariant handlers.calls == old(handlers.calls) + DisconnectCalls(handlers.names, uid)[..i]
      {
        handlers.calls := handlers.calls + [HDisconnect(handlers.names[i], uid)];
        assert DisconnectCalls(handlers.names, uid)[..i + 1]
          == DisconnectCalls(handlers.names, uid)[..i] + [HDisconnect(handlers.names[i], uid)];
      }
      if uid !in connections {
        return Some(KeyError(JString(uid)));
      }
      connections := connections - {uid};
      err := None;
    }

    /** One iteration of the receive loop of `handle_messages`. */
    method HandleMessage(uid: Uid, msg: Inbound) returns (err: Option<Error>)
      modifies handlers
      ensures var r := MessageStep(old(Model()), handlers.names, uid, msg);
        Model() == r.model && err == r.err
    {
      match Route(msg) {
        case None =>
          err := None;
        case Some((name, data)) =>
          if name !in handlers.names {
            return Some(KeyError(JString(name)));
          }
          handlers.calls := handlers.calls + [HMessage(name, uid, data)];
          err := None;
      }
    }
  }
}
