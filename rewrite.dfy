/** The "rewrite" feature of server/wsmanager.py: `RewriteState` (clients and
    controllers), and the two apps that turn connections and command dicts into
    calls on it. Every step is first given as a pure function on a `RewriteModel`
    value; the class methods are proved to perform exactly those steps. */
module Rewrite {
  import opened Common
  import opened WsEvents

  /** `RewriteClientState`: the client's send callback, its flag and its content. */
  datatype RewriteClient = RewriteClient(send: Channel, active: bool, content: Json)

  /** The fields of `RewriteState`. `order` is the insertion order of the
      `controllers` dict, which is the order in which controllers are called. */
  datatype RewriteModel = RewriteModel(
    clients: map<Uid, RewriteClient>,
    controllers: map<Uid, Channel>,
    order: seq<Uid>)

  predicate WellFormed(m: RewriteModel) {
    NoDup(m.order) && Elems(m.order) == m.controllers.Keys
  }

  /** The entry a fresh connection gets: inactive, empty content. */
  function FreshClient(send: Channel): RewriteClient {
    RewriteClient(send, false, JString(""))
  }

  /** The deliveries of `for controller in self.controllers.values(): controller(event)`:
      one per registered controller, in registration order. */
  function Fanout(controllers: map<Uid, Channel>, order: seq<Uid>, e: Event): (r: seq<Delivery>)
    requires NoDup(order) && Elems(order) == controllers.Keys
    ensures |r| == |controllers|
    ensures forall i :: 0 <= i < |r| ==> r[i].event == e
  {
    NoDupCard(order);
    seq(|order|, i requires 0 <= i < |order| => Delivery(controllers[order[i]], e))
  }

  /** Every registered controller is among the recipients of a fan-out. */
  lemma FanoutReaches(controllers: map<Uid, Channel>, order: seq<Uid>, e: Event, k: Uid)
    requires NoDup(order) && Elems(order) == controllers.Keys
    requires k in controllers
    ensures Delivery(controllers[k], e) in Fanout(controllers, order, e)
  {
    var r := Fanout(controllers, order, e);
    var i :| 0 <= i < |order| && order[i] == k;
    assert r[i] == Delivery(controllers[k], e);
  }

  /** The controllers of `m` all get `e`. */
  function Broadcast(m: RewriteModel, e: Event): (r: seq<Delivery>)
    requires WellFormed(m)
  {
    Fanout(m.controllers, m.order, e)
  }

  /** The outcome of one operation: the new state, the deliveries made in order,
      and the exception raised, if any. */
  datatype Step = Step(model: RewriteModel, out: seq<Delivery>, err: Option<Error>)

  /** Every client other than `uid` is present afterwards iff it was before, with the same entry. */
  ghost predicate OthersKept(before: map<Uid, RewriteClient>, after: map<Uid, RewriteClient>, uid: Uid) {
    forall u :: u != uid ==> (u in after <==> u in before) && (u in before ==> after[u] == before[u])
  }

  /** The step changed nothing and sent nothing. */
  predicate NoEffect(r: Step, m: RewriteModel) {
    r.model == m && r.out == []
  }

  /** `connect_client`: a fresh entry replaces any previous one; the client and then
      every controller get the same "connect" event. */
  function ConnectClientStep(m: RewriteModel, uid: Uid, send: Channel): (r: Step)
    requires WellFormed(m)
    ensures WellFormed(r.model) && r.err == None
    ensures uid in r.model.clients && r.model.clients[uid] == FreshClient(send)
    ensures OthersKept(m.clients, r.model.clients, uid)
    ensures r.model.controllers == m.controllers && r.model.order == m.order
    ensures |r.out| == 1 + |m.controllers|
    ensures r.out[0] == Delivery(send, RewriteConnect(uid, false, JString("")))
    ensures r.out[1..] == Broadcast(m, RewriteConnect(uid, false, JString("")))
  {
    var e := RewriteConnect(uid, false, JString(""));
    Step(m.(clients := m.clients[uid := FreshClient(send)]), [Delivery(send, e)] + Broadcast(m, e), None)
  }

  /** `disconnect_client`: `del` raises KeyError for an unknown uid before anything
      happens; otherwise the entry goes and only the controllers are told. */
  function DisconnectClientStep(m: RewriteModel, uid: Uid): (r: Step)
    requires WellFormed(m)
    ensures WellFormed(r.model)
    ensures r.err.None? <==> uid in m.clients
    ensures r.err.Some? ==> r.err.value == KeyError(JString(uid)) && NoEffect(r, m)
    ensures r.err.None? ==> uid !in r.model.clients && OthersKept(m.clients, r.model.clients, uid)
    ensures r.err.None? ==> r.model.controllers == m.controllers && r.model.order == m.order
    ensures r.err.None? ==> r.out == Broadcast(m, RewriteDisconnect(uid))
  {
    if uid !in m.clients then Step(m, [], Some(KeyError(JString(uid))))
    else Step(m.(clients := m.clients - {uid}), Broadcast(m, RewriteDisconnect(uid)), None)
  }

  /** `connect_controller`: registers (or re-registers, keeping its place) a controller; sends nothing. */
  function ConnectControllerStep(m: RewriteModel, uid: Uid, send: Channel): (r: Step)
    requires WellFormed(m)
    ensures WellFormed(r.model) && r.err == None && r.out == []
    ensures r.model.clients == m.clients
    ensures r.model.controllers.Keys == m.controllers.Keys + {uid} && r.model.controllers[uid] == send
    ensures forall u :: u in m.controllers && u != uid ==> r.model.controllers[u] == m.controllers[u]
    ensures uid in m.controllers ==> r.model.order == m.order
    ensures uid !in m.controllers ==> r.model.order == m.order + [uid]
  {
    Step(m.(controllers := m.controllers[uid := send], order := AddLast(m.order, uid)), [], None)
  }

  /** `disconnect_controller`: KeyError for an unknown uid, otherwise the controller is removed. */
  function DisconnectControllerStep(m: RewriteModel, uid: Uid): (r: Step)
    requires WellFormed(m)
    ensures WellFormed(r.model) && r.out == []
    ensures r.err.None? <==> uid in m.controllers
    ensures r.err.Some? ==> r.err.value == KeyError(JString(uid)) && NoEffect(r, m)
    ensures r.model.clients == m.clients
    ensures r.err.None? ==> r.model.controllers == m.controllers - {uid}
    ensures r.err.None? ==> r.model.order == Without(m.order, uid)
  {
    if uid !in m.controllers then Step(m, [], Some(KeyError(JString(uid))))
    else Step(m.(controllers := m.controllers - {uid}, order := Without(m.order, uid)), [], None)
  }

  /** Disconnecting the controller at position `k` of the registration order cuts out
      that one position: the remaining controllers keep their fan-out order. */
  lemma DisconnectKeepsControllerOrder(m: RewriteModel, k: int)
    requires WellFormed(m) && 0 <= k < |m.order|
    ensures var r := DisconnectControllerStep(m, m.order[k]);
      r.err.None? && r.model.order == m.order[..k] + m.order[k + 1..]
  {
    assert m.order[k] in Elems(m.order);
    NoDupWithoutAt(m.order, k);
  }

  /** The event `activate` (flag true) or `deactivate` (flag false) sends. */
  function FlagEvent(uid: Uid, flag: bool): Event {
    if flag then RewriteActivate(uid) else RewriteDeactivate(uid)
  }

  /** `activate` / `deactivate`: KeyError before any change for an unknown uid;
      otherwise only the target's flag changes, and the target then every controller
      get one event each. */
  function FlagStep(m: RewriteModel, uid: Uid, flag: bool): (r: Step)
    requires WellFormed(m)
    ensures WellFormed(r.model)
    ensures r.err.None? <==> uid in m.clients
    ensures r.err.Some? ==> r.err.value == KeyError(JString(uid)) && NoEffect(r, m)
    ensures r.err.None? ==>
      && uid in r.model.clients
      && r.model.clients[uid] == m.clients[uid].(active := flag)
      && OthersKept(m.clients, r.model.clients, uid)
      && r.model.controllers == m.controllers && r.model.order == m.order
      && |r.out| == 1 + |m.controllers|
      && r.out[0] == Delivery(m.clients[uid].send, FlagEvent(uid, flag))
      && r.out[1..] == Broadcast(m, FlagEvent(uid, flag))
  {
    if uid !in m.clients then Step(m, [], Some(KeyError(JString(uid))))
    else
      var c := m.clients[uid];
      var e := FlagEvent(uid, flag);
      Step(m.(clients := m.clients[uid := c.(active := flag)]), [Delivery(c.send, e)] + Broadcast(m, e), None)
  }

  /** `update`: like `activate`, but only the target's content changes. */
  function UpdateStep(m: RewriteModel, uid: Uid, content: Json): (r: Step)
    requires WellFormed(m)
    ensures WellFormed(r.model)
    ensures r.err.None? <==> uid in m.clients
    ensures r.err.Some? ==> r.err.value == KeyError(JString(uid)) && NoEffect(r, m)
    ensures r.err.None? ==>
      && uid in r.model.clients
      && r.model.clients[uid] == m.clients[uid].(content := content)
      && OthersKept(m.clients, r.model.clients, uid)
      && r.model.controllers == m.controllers && r.model.order == m.order
      && |r.out| == 1 + |m.controllers|
      && r.out[0] == Delivery(m.clients[uid].send, RewriteContent(uid, content))
      && r.out[1..] == Broadcast(m, RewriteContent(uid, content))
  {
    if uid !in m.clients then Step(m, [], Some(KeyError(JString(uid))))
    else
      var c := m.clients[uid];
      var e := RewriteContent(uid, content);
      Step(m.(clients := m.clients[uid := c.(content := content)]), [Delivery(c.send, e)] + Broadcast(m, e), None)
  }

  // ---------------------------------------------------------------------------
  // What a controller can rebuild from the events it receives.

  /** The part of the state the events describe: each client's flag and content. */
  function Project(clients: map<Uid, RewriteClient>): map<Uid, (bool, Json)> {
    map u | u in clients :: (clients[u].active, clients[u].content)
  }

  /** How a controller that mirrors the clients applies one received event. */
  function Apply(view: map<Uid, (bool, Json)>, e: Event): map<Uid, (bool, Json)> {
    match e
    case RewriteConnect(c, a, content) => view[c := (a, content)]
    case RewriteDisconnect(c) => view - {c}
    case RewriteActivate(c) => if c in view then view[c := (true, view[c].1)] else view
    case RewriteDeactivate(c) => if c in view then view[c := (false, view[c].1)] else view
    case RewriteContent(c, content) => if c in view then view[c := (view[c].0, content)] else view
    case _ => view
  }

  /** A state-changing call made on the clients of a `RewriteState`. */
  datatype ClientOp =
    | OpConnect(uid: Uid, send: Channel)
    | OpDisconnect(uid: Uid)
    | OpFlag(uid: Uid, flag: bool)
    | OpUpdate(uid: Uid, content: Json)

  function RunOp(m: RewriteModel, op: ClientOp): (r: Step)
    requires WellFormed(m)
    ensures WellFormed(r.model) && r.model.controllers == m.controllers
  {
    match op
    case OpConnect(u, s) => ConnectClientStep(m, u, s)
    case OpDisconnect(u) => DisconnectClientStep(m, u)
    case OpFlag(u, f) => FlagStep(m, u, f)
    case OpUpdate(u, c) => UpdateStep(m, u, c)
  }

  /** The event the controllers receive when `op` succeeds. */
  function OpEvent(op: ClientOp): Event {
    match op
    case OpConnect(u, _) => RewriteConnect(u, false, JString(""))
    case OpDisconnect(u) => RewriteDisconnect(u)
    case OpFlag(u, f) => FlagEvent(u, f)
    case OpUpdate(u, c) => RewriteContent(u, c)
  }

  /** One operation: if it succeeds, every registered controller receives the
      operation's event; if it fails, nothing changes and nothing is sent. */
  lemma {:induction false} ControllersSeeEveryChange(m: RewriteModel, op: ClientOp)
    requires WellFormed(m)
    ensures var r := RunOp(m, op);
      && (r.err.None? ==> forall k :: k in m.controllers ==> Delivery(m.controllers[k], OpEvent(op)) in r.out)
      && (r.err.Some? ==> r.model == m && r.out == [])
  {
    var r := RunOp(m, op);
    if r.err.None? {
      var e := OpEvent(op);
      var bc := Broadcast(m, e);
      forall k | k in m.controllers
        ensures Delivery(m.controllers[k], e) in r.out
      {
        FanoutReaches(m.controllers, m.order, e, k);
        var j :| 0 <= j < |bc| && bc[j] == Delivery(m.controllers[k], e);
        if op.OpDisconnect? {
          assert r.out[j] == bc[j];
        } else {
          assert r.out[1..] == bc;
          assert r.out[j + 1] == bc[j];
        }
      }
    }
  }

  /** One operation: applying its event to a faithful mirror of the clients yields a
      faithful mirror of the clients afterwards. */
  lemma {:induction false} MirrorFollowsStep(m: RewriteModel, op: ClientOp)
    requires WellFormed(m)
    ensures var r := RunOp(m, op);
      r.err.None? ==> Apply(Project(m.clients), OpEvent(op)) == Project(r.model.clients)
  {
    var r := RunOp(m, op);
    if r.err.None? {
      ProjectAfterChange(m.clients, r.model.clients, op.uid);
    }
  }

  /** Changing or removing one client changes the projection at that uid alone. */
  lemma ProjectAfterChange(before: map<Uid, RewriteClient>, after: map<Uid, RewriteClient>, uid: Uid)
    requires OthersKept(before, after, uid)
    ensures uid in after ==> Project(after) == Project(before)[uid := (after[uid].active, after[uid].content)]
    ensures uid !in after ==> Project(after) == Project(before) - {uid}
  {
    var p, q := Project(before), Project(after);
    if uid in after {
      assert q.Keys == p.Keys + {uid};
    } else {
      assert q.Keys == p.Keys - {uid};
    }
  }

  /** Runs operations in turn; returns the final state and the events every
      controller received, in order. Controllers are not added or removed. */
  function RunAll(m: RewriteModel, ops: seq<ClientOp>): (r: (RewriteModel, seq<Event>))
    requires WellFormed(m)
    ensures WellFormed(r.0) && r.0.controllers == m.controllers
    decreases |ops|
  {
    if ops == [] then (m, [])
    else
      var s := RunOp(m, ops[0]);
      var rest := RunAll(s.model, ops[1..]);
      (rest.0, (if s.err.None? then [OpEvent(ops[0])] else []) + rest.1)
  }

  function ApplyAll(view: map<Uid, (bool, Json)>, es: seq<Event>): map<Uid, (bool, Json)>
    decreases |es|
  {
    if es == [] then view else ApplyAll(Apply(view, es[0]), es[1..])
  }

  /** A controller that starts with a faithful mirror of the clients and applies every
      event it receives keeps a faithful mirror, over any sequence of client operations. */
  lemma {:induction false} ControllerMirrorStaysExact(m: RewriteModel, ops: seq<ClientOp>)
    requires WellFormed(m)
    ensures ApplyAll(Project(m.clients), RunAll(m, ops).1) == Project(RunAll(m, ops).0.clients)
    decreases |ops|
  {
    if ops != [] {
      var s := RunOp(m, ops[0]);
      MirrorFollowsStep(m, ops[0]);
      ControllerMirrorStaysExact(s.model, ops[1..]);
      var es := RunAll(m, ops).1;
      if s.err.None? {
        assert es == [OpEvent(ops[0])] + RunAll(s.model, ops[1..]).1;
        assert es[1..] == RunAll(s.model, ops[1..]).1;
      } else {
        assert es == RunAll(s.model, ops[1..]).1;
      }
    }
  }

  /** Disconnect is not idempotent: the second call raises KeyError and does nothing. */
  lemma {:induction false} DisconnectTwiceRaises(m: RewriteModel, uid: Uid)
    requires WellFormed(m) && uid in m.clients
    ensures var first := DisconnectClientStep(m, uid);
      && first.err.None?
      && var second := DisconnectClientStep(first.model, uid);
      && second.err == Some(KeyError(JString(uid))) && second.model == first.model && second.out == []
  {
  }

  // ---------------------------------------------------------------------------
  // Controller commands.

  /** The command a controller's message dict selects. */
  datatype RewriteCommand =
    | CmdActivate(client: Json)
    | CmdDeactivate(client: Json)
    | CmdUpdate(target: Json, content: Json)
    | CmdNone

  /** `message` has key `k` holding the string `v`. */
  predicate HasString(message: map<string, Json>, k: string, v: string) {
    k in message && message[k] == JString(v)
  }

  /** The `match` of `RewriteControllerApp.message`, as written: the "update" case
      captures `client` but targets the sending controller's own uid. */
  function ControllerCommand(uid: Uid, message: map<string, Json>): (r: RewriteCommand)
    ensures r.CmdActivate? <==> HasString(message, "command", "activate") && "uid" in message
    ensures r.CmdDeactivate? <==> HasString(message, "command", "deactivate") && "uid" in message
    ensures r.CmdUpdate? <==> HasString(message, "command", "update") && "uid" in message && "content" in message
    ensures (r.CmdActivate? || r.CmdDeactivate?) ==> r.client == message["uid"]
    ensures r.CmdUpdate? ==> r.target == JString(uid) && r.content == message["content"]
  {
    if HasString(message, "command", "activate") && "uid" in message then CmdActivate(message["uid"])
    else if HasString(message, "command", "deactivate") && "uid" in message then CmdDeactivate(message["uid"])
    else if HasString(message, "command", "update") && "uid" in message && "content" in message then
      CmdUpdate(JString(uid), message["content"])
    else CmdNone
  }

  /** The evidently intended "update" case: it targets the client named by "uid". */
  function ControllerCommandIntended(uid: Uid, message: map<string, Json>): (r: RewriteCommand)
    ensures r.CmdUpdate? <==> HasString(message, "command", "update") && "uid" in message && "content" in message
    ensures r.CmdUpdate? ==> r.target == message["uid"] && r.content == message["content"]
    ensures !r.CmdUpdate? ==> r == ControllerCommand(uid, message)
  {
    match ControllerCommand(uid, message)
    case CmdUpdate(_, content) => CmdUpdate(message["uid"], content)
    case other => other
  }

  /** The discrepancy on a concrete message: controller "c" asks to update client "x";
      as written the update is addressed to "c", as intended to "x". */
  lemma UpdateAddressesSender()
    ensures var message := map["command" := JString("update"), "uid" := JString("x"), "content" := JString("hi")];
      && ControllerCommand("c", message) == CmdUpdate(JString("c"), JString("hi"))
      && ControllerCommandIntended("c", message) == CmdUpdate(JString("x"), JString("hi"))
  {
    var message := map["command" := JString("update"), "uid" := JString("x"), "content" := JString("hi")];
    assert HasString(message, "command", "update");
    assert !HasString(message, "command", "activate");
    assert !HasString(message, "command", "deactivate");
  }

  /** Carrying out a command: a captured client id that is not a string can never be
      a key of `clients`, so the lookup raises before anything changes. */
  function CommandStep(m: RewriteModel, cmd: RewriteCommand): (r: Step)
    requires WellFormed(m)
    ensures WellFormed(r.model)
    ensures cmd.CmdNone? ==> r.err.None? && NoEffect(r, m)
    ensures cmd.CmdActivate? || cmd.CmdDeactivate? ==>
      (r.err.None? <==> cmd.client.JString? && cmd.client.s in m.clients)
    ensures cmd.CmdUpdate? ==> (r.err.None? <==> cmd.target.JString? && cmd.target.s in m.clients)
    ensures r.err.Some? ==> NoEffect(r, m)
    ensures cmd.CmdActivate? && cmd.client.JString? ==> r == FlagStep(m, cmd.client.s, true)
    ensures cmd.CmdDeactivate? && cmd.client.JString? ==> r == FlagStep(m, cmd.client.s, false)
    ensures cmd.CmdUpdate? && cmd.target.JString? ==> r == UpdateStep(m, cmd.target.s, cmd.content)
  {
    match cmd
    case CmdNone => Step(m, [], None)
    case CmdActivate(k) =>
      if k.JString? then FlagStep(m, k.s, true) else Step(m, [], Some(MissingKey(k)))
    case CmdDeactivate(k) =>
      if k.JString? then FlagStep(m, k.s, false) else Step(m, [], Some(MissingKey(k)))
    case CmdUpdate(k, content) =>
      if k.JString? then UpdateStep(m, k.s, content) else Step(m, [], Some(MissingKey(k)))
  }

  // ---------------------------------------------------------------------------
  // The mutable objects.

  class RewriteState {
    var clients: map<Uid, RewriteClient>
    var controllers: map<Uid, Channel>
    var order: seq<Uid>
    const net: Network

    function Model(): RewriteModel
      reads this
    {
      RewriteModel(clients, controllers, order)
    }

    ghost predicate Valid()
      reads this
    {
      WellFormed(Model())
    }

    constructor (net: Network)
      ensures Valid() && Model() == RewriteModel(map[], map[], []) && this.net == net
    {
      clients, controllers, order := map[], map[], [];
      this.net := net;
    }

    /** Calls every controller, in registration order, with `e`. */
    method NotifyControllers(e: Event)
      requires Valid()
      modifies net
      ensures net.sent == old(net.sent) + Fanout(controllers, order, e)
    {
      var all := Fanout(controllers, order, e);
      for i := 0 to |order|
        invariant net.sent == old(net.sent) + all[..i]
      {
        net.Send(Delivery(controllers[order[i]], e));
        assert all[..i + 1] == all[..i] + [all[i]];
      }
    }

    method ConnectClient(uid: Uid, send: Channel)
      requires Valid()
      modifies this, net
      ensures Valid()
      ensures var r := ConnectClientStep(old(Model()), uid, send);
        Model() == r.model && net.sent == old(net.sent) + r.out
    {
      ghost var r := ConnectClientStep(Model(), uid, send);
      var e := RewriteConnect(uid, false, JString(""));
      assert r.out == [Delivery(send, e)] + Fanout(controllers, order, e);
      clients := clients[uid := FreshClient(send)];
      net.Send(Delivery(send, e));
      NotifyControllers(e);
      assert net.sent == old(net.sent) + r.out;
    }

    method DisconnectClient(uid: Uid) returns (err: Option<Error>)
      requires Valid()
      modifies this, net
      ensures Valid()
      ensures var r := DisconnectClientStep(old(Model()), uid);
        Model() == r.model && net.sent == old(net.sent) + r.out && err == r.err
    {
      if uid !in clients {
        return Some(KeyError(JString(uid)));
      }
      clients := clients - {uid};
      NotifyControllers(RewriteDisconnect(uid));
      err := None;
    }

    method ConnectController(uid: Uid, send: Channel)
      requires Valid()
      modifies this
      ensures Valid()
      ensures Model() == ConnectControllerStep(old(Model()), uid, send).model
    {
      order := AddLast(order, uid);
      controllers := controllers[uid := send];
    }

    method DisconnectController(uid: Uid) returns (err: Option<Error>)
      requires Valid()
      modifies this
      ensures Valid()
      ensures var r := DisconnectControllerStep(old(Model()), uid);
        Model() == r.model && err == r.err
    {
      if uid !in controllers {
        return Some(KeyError(JString(uid)));
      }
      controllers := controllers - {uid};
      order := Without(order, uid);
      err := None;
    }

    /** `activate` (flag true) and `deactivate` (flag false). */
    method SetFlag(uid: Uid, flag: bool) returns (err: Option<Error>)
      requires Valid()
      modifies this, net
      ensures Valid()
      ensures var r := FlagStep(old(Model()), uid, flag);
        Model() == r.model && net.sent == old(net.sent) + r.out && err == r.err
    {
      if uid !in clients {
        return Some(KeyError(JString(uid)));
      }
      ghost var r := FlagStep(Model(), uid, flag);
      var c := clients[uid];
      var e := FlagEvent(uid, flag);
      clients := clients[uid := c.(active := flag)];
      net.Send(Delivery(c.send, e));
      NotifyControllers(e);
      assert net.sent == old(net.sent) + r.out;
      err := None;
    }

    method Update(uid: Uid, content: Json) returns (err: Option<Error>)
      requires Valid()
      modifies this, net
      ensures Valid()
      ensures var r := UpdateStep(old(Model()), uid, content);
        Model() == r.model && net.sent == old(net.sent) + r.out && err == r.err
    {
      if uid !in clients {
        return Some(KeyError(JString(uid)));
      }
      ghost var r := UpdateStep(Model(), uid, content);
      var c := clients[uid];
      var e := RewriteContent(uid, content);
      clients := clients[uid := c.(content := content)];
      net.Send(Delivery(c.send, e));
      NotifyControllers(e);
      assert net.sent == old(net.sent) + r.out;
      err := None;
    }
  }

  /** `RewriteClientApp`: clients only connect and disconnect; their messages are ignored. */
  class RewriteClientApp {
    const state: RewriteState

    constructor (state: RewriteState)
      ensures this.state == state
    {
      this.state := state;
    }

    method Connect(uid: Uid, send: Channel)
      requires state.Valid()
      modifies state, state.net
      ensures state.Valid()
      ensures var r := ConnectClientStep(old(state.Model()), uid, send);
        state.Model() == r.model && state.net.sent == old(state.net.sent) + r.out
    {
      state.ConnectClient(uid, send);
    }

    /** The body is `...`: a client's message changes nothing. */
    method Message(uid: Uid, message: map<string, Json>)
      ensures unchanged(state) && unchanged(state.net)
    {
    }

    method Disconnect(uid: Uid) returns (err: Option<Error>)
      requires state.Valid()
      modifies state, state.net
      ensures state.Valid()
      ensures var r := DisconnectClientStep(old(state.Model()), uid);
        state.Model() == r.model && state.net.sent == old(state.net.sent) + r.out && err == r.err
    {
      err := state.DisconnectClient(uid);
    }
  }

  /** `RewriteControllerApp`: controllers register for events and command clients. */
  class RewriteControllerApp {
    const state: RewriteState

    constructor (state: RewriteState)
      ensures this.state == state
    {
      this.state := state;
    }

    method Connect(uid: Uid, send: Channel)
      requires state.Valid()
      modifies state
      ensures state.Valid()
      ensures state.Model() == ConnectControllerStep(old(state.Model()), uid, send).model
    {
      state.ConnectController(uid, send);
    }

    /** Decodes the message, with "update" addressed to the named client as
        intended, and carries the command out; an unmatched message does nothing. */
    method Message(uid: Uid, message: map<string, Json>) returns (err: Option<Error>)
      requires state.Valid()
      modifies state, state.net
      ensures state.Valid()
      ensures var r := CommandStep(old(state.Model()), ControllerCommandIntended(uid, message));
        state.Model() == r.model && state.net.sent == old(state.net.sent) + r.out && err == r.err
    {
      var cmd := ControllerCommandIntended(uid, message);
      match cmd {
        case CmdNone =>
          err := None;
        case CmdActivate(k) =>
          if k.JString? { err := state.SetFlag(k.s, true); } else { err := Some(MissingKey(k)); }
        case CmdDeactivate(k) =>
          if k.JString? { err := state.SetFlag(k.s, false); } else { err := Some(MissingKey(k)); }
        case CmdUpdate(k, content) =>
          if k.JString? { err := state.Update(k.s, content); } else { err := Some(MissingKey(k)); }
      }
    }

    method Disconnect(uid: Uid) returns (err: Option<Error>)
      requires state.Valid()
      modifies state
      ensures state.Valid()
      ensures var r := DisconnectControllerStep(old(state.Model()), uid);
        state.Model() == r.model && err == r.err
    {
      err := state.DisconnectController(uid);
    }
  }
}
