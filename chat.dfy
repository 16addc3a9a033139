/** The "chat" feature of server/wsmanager.py: `ChatClientState` (an observer with a
    subscriber set and a message list), `ChatState` (the clients plus the controllers)
    and the two apps that turn command dicts into calls on them. As for the rewrite
    feature, every step is a pure function on values and the classes are proved to
    perform exactly those steps. */
module Chat {
  import opened Common
  import opened WsEvents

  /** A member of a client's `subscribers` set: the send callback of one connection,
      or the bound `notify_controllers` of the registry that owns the client. */
  datatype Subscriber = Direct(ch: Channel) | ControllerFanout

  /** The fields of one `ChatClientState`. `subscribers` is a Python set; it is kept
      here in insertion order, which is the order in which it is walked. */
  datatype ChatClient = ChatClient(uid: Uid, active: bool, messages: seq<Message>, subscribers: seq<Subscriber>)

  /** A client with no subscribers yet: `ChatClientState(uid)`. */
  function NewClient(uid: Uid): ChatClient {
    ChatClient(uid, false, [], [])
  }

  /** The "value" snapshot `listen` hands to a new subscriber. */
  function ValueEvent(c: ChatClient): Event {
    ChatValue(c.uid, c.active, c.messages)
  }

  /** The deliveries made by one call of subscriber `s` with `e`. `fan` lists the send
      callbacks of the owning registry's controllers in registration order, which is
      what `notify_controllers` walks. */
  function Reach(s: Subscriber, fan: seq<Channel>, e: Event): (r: seq<Delivery>)
    ensures forall i :: 0 <= i < |r| ==> r[i].event == e
    ensures s.Direct? ==> |r| == 1
    ensures s.ControllerFanout? ==> |r| == |fan|
  {
    match s
    case Direct(ch) => [Delivery(ch, e)]
    case ControllerFanout => seq(|fan|, i requires 0 <= i < |fan| => Delivery(fan[i], e))
  }

  /** A subscriber call reaches channel `ch` iff it is that channel's own callback, or
      the controller fan-out and `ch` is a controller's. */
  lemma ReachIff(s: Subscriber, fan: seq<Channel>, e: Event, ch: Channel)
    ensures Delivery(ch, e) in Reach(s, fan, e) <==> s == Direct(ch) || (s.ControllerFanout? && ch in fan)
  {
    if s.ControllerFanout? && ch in fan {
      var i :| 0 <= i < |fan| && fan[i] == ch;
      assert Reach(s, fan, e)[i] == Delivery(ch, e);
    }
  }

  /** The deliveries of `notify`: every subscriber is called once, in order. */
  function NotifyOut(subs: seq<Subscriber>, fan: seq<Channel>, e: Event): (r: seq<Delivery>)
    ensures forall i :: 0 <= i < |r| ==> r[i].event == e
    decreases |subs|
  {
    if subs == [] then []
    else NotifyOut(subs[..|subs| - 1], fan, e) + Reach(subs[|subs| - 1], fan, e)
  }

  /** `notify` reaches channel `ch` iff `ch`'s callback subscribed, or the controller
      fan-out subscribed and `ch` belongs to a controller. */
  lemma {:induction false} NotifyReaches(subs: seq<Subscriber>, fan: seq<Channel>, e: Event, ch: Channel)
    ensures Delivery(ch, e) in NotifyOut(subs, fan, e)
      <==> Direct(ch) in subs || (ControllerFanout in subs && ch in fan)
    decreases |subs|
  {
    if subs != [] {
      var init, last := subs[..|subs| - 1], subs[|subs| - 1];
      assert subs == init + [last];
      NotifyReaches(init, fan, e, ch);
      ReachIff(last, fan, e, ch);
    }
  }

  /** The outcome of one operation on a single client. */
  datatype ClientStep = ClientStep(client: ChatClient, out: seq<Delivery>)

  /** `listen`: the subscriber joins the set (a second join changes nothing) and is
      handed a snapshot of the flag and messages. */
  function ListenStep(c: ChatClient, s: Subscriber, fan: seq<Channel>): (r: ClientStep)
    ensures r.client == c.(subscribers := r.client.subscribers)
    ensures Elems(r.client.subscribers) == Elems(c.subscribers) + {s}
    ensures NoDup(c.subscribers) ==> NoDup(r.client.subscribers)
    ensures s in c.subscribers ==> r.client == c
    ensures forall i :: 0 <= i < |r.out| ==> r.out[i].event == ValueEvent(c)
  {
    ClientStep(c.(subscribers := AddLast(c.subscribers, s)), Reach(s, fan, ValueEvent(c)))
  }

  /** Only the new subscriber is handed the snapshot: it reaches channel `ch` iff `s` is
      `ch`'s own callback, or the controller fan-out and `ch` is a controller's. */
  lemma ListenReachesOnlyNewSubscriber(c: ChatClient, s: Subscriber, fan: seq<Channel>, ch: Channel)
    ensures Delivery(ch, ValueEvent(c)) in ListenStep(c, s, fan).out
      <==> s == Direct(ch) || (s.ControllerFanout? && ch in fan)
  {
    ReachIff(s, fan, ValueEvent(c), ch);
  }

  /** The event `activate` (flag true) or `deactivate` (flag false) sends. */
  function FlagEvent(uid: Uid, flag: bool): Event {
    if flag then ChatActivate(uid) else ChatDeactivate(uid)
  }

  /** `activate` / `deactivate` on one client: only the flag changes, then every
      subscriber is notified. */
  function FlagClientStep(c: ChatClient, flag: bool, fan: seq<Channel>): (r: ClientStep)
    ensures r.client.active == flag
    ensures r.client == c.(active := r.client.active)
    ensures r.out == NotifyOut(c.subscribers, fan, FlagEvent(c.uid, flag))
  {
    ClientStep(c.(active := flag), NotifyOut(c.subscribers, fan, FlagEvent(c.uid, flag)))
  }

  /** `message`: exactly one message is appended, earlier ones stay as they were, and
      every subscriber is told about the new one. */
  function MessageClientStep(c: ChatClient, author: Uid, content: Json, now: Timestamp, fan: seq<Channel>): (r: ClientStep)
    ensures |r.client.messages| == |c.messages| + 1
    ensures r.client.messages[..|c.messages|] == c.messages
    ensures r.client.messages[|c.messages|] == Message(author, content, now)
    ensures r.client == c.(messages := r.client.messages)
    ensures r.out == NotifyOut(c.subscribers, fan, ChatMessage(c.uid, Message(author, content, now)))
  {
    var msg := Message(author, content, now);
    ClientStep(c.(messages := c.messages + [msg]), NotifyOut(c.subscribers, fan, ChatMessage(c.uid, msg)))
  }

  // ---------------------------------------------------------------------------
  // The registry.

  /** The fields of `ChatState`; `order` is the insertion order of `controllers`. */
  datatype ChatModel = ChatModel(
    clients: map<Uid, ChatClient>,
    controllers: map<Uid, Channel>,
    order: seq<Uid>)

  predicate WellFormed(m: ChatModel) {
    && NoDup(m.order) && Elems(m.order) == m.controllers.Keys
    && forall u :: u in m.clients ==> m.clients[u].uid == u && NoDup(m.clients[u].subscribers)
  }

  /** The controllers' send callbacks in the order `notify_controllers` calls them. */
  function FanChannels(controllers: map<Uid, Channel>, order: seq<Uid>): (r: seq<Channel>)
    requires NoDup(order) && Elems(order) == controllers.Keys
    ensures |r| == |controllers|
  {
    NoDupCard(order);
    seq(|order|, i requires 0 <= i < |order| => controllers[order[i]])
  }

  /** The fan-out channels are exactly the registered controllers' callbacks. */
  lemma FanChannelsAreControllers(controllers: map<Uid, Channel>, order: seq<Uid>, k: Uid)
    requires NoDup(order) && Elems(order) == controllers.Keys
    ensures k in controllers ==> controllers[k] in FanChannels(controllers, order)
  {
    if k in controllers {
      var i :| 0 <= i < |order| && order[i] == k;
      assert FanChannels(controllers, order)[i] == controllers[k];
    }
  }

  function Fan(m: ChatModel): seq<Channel>
    requires WellFormed(m)
  {
    FanChannels(m.controllers, m.order)
  }

  /** `self.clients` as a controller's "value" snapshot shows it. */
  function Views(clients: map<Uid, ChatClient>): (r: map<Uid, ChatClientView>)
    ensures r.Keys == clients.Keys
    ensures forall u :: u in r ==> r[u] == ChatClientView(clients[u].active, clients[u].messages)
  {
    map u | u in clients :: ChatClientView(clients[u].active, clients[u].messages)
  }

  /** The outcome of one registry operation: new state, deliveries in order, and the
      exception raised, if any. */
  datatype Step = Step(model: ChatModel, out: seq<Delivery>, err: Option<Error>)

  predicate NoEffect(r: Step, m: ChatModel) {
    r.model == m && r.out == []
  }

  /** Every client other than `uid` is present afterwards iff it was before, unchanged. */
  ghost predicate OthersKept(before: map<Uid, ChatClient>, after: map<Uid, ChatClient>, uid: Uid) {
    forall u :: u != uid ==> (u in after <==> u in before) && (u in before ==> after[u] == before[u])
  }

  /** `connect_controller`: the snapshot of every client is sent before the controller
      is registered (or re-registered, keeping its place). */
  function ConnectControllerStep(m: ChatModel, uid: Uid, send: Channel): (r: Step)
    requires WellFormed(m)
    ensures WellFormed(r.model) && r.err == None
    ensures r.model.clients == m.clients
    ensures r.model.controllers.Keys == m.controllers.Keys + {uid} && r.model.controllers[uid] == send
    ensures forall u :: u in m.controllers && u != uid ==> r.model.controllers[u] == m.controllers[u]
    ensures |r.out| == 1 && r.out[0].to == send && r.out[0].event.ChatClients?
    ensures r.out[0].event.clients.Keys == m.clients.Keys
    ensures r.out[0].event == ChatClients(Views(m.clients))
  {
    Step(m.(controllers := m.controllers[uid := send], order := AddLast(m.order, uid)),
      [Delivery(send, ChatClients(Views(m.clients)))], None)
  }

  /** `disconnect_controller`: KeyError for an unknown uid, otherwise the controller goes. */
  function DisconnectControllerStep(m: ChatModel, uid: Uid): (r: Step)
    requires WellFormed(m)
    ensures WellFormed(r.model) && r.out == []
    ensures r.err.None? <==> uid in m.controllers
    ensures r.err.Some? ==> r.err.value == KeyError(JString(uid)) && NoEffect(r, m)
    ensures r.model.clients == m.clients
    ensures r.err.None? ==> r.model.controllers == m.controllers - {uid}
    ensures r.err.None? ==> r.model.order == Without(m.order, uid)
  {
    if uid !in m.controllers then Step(m, [], Some(KeyError(JString(uid))))
    else Step(m.(controllers := m.controllers - {uid}, order := Without(m.order, uid)), [], None)
  }

  /** Disconnecting the controller at position `k` of the registration order cuts out
      that one position: the remaining controllers keep their fan-out order. */
  lemma DisconnectKeepsControllerOrder(m: ChatModel, k: int)
    requires WellFormed(m) && 0 <= k < |m.order|
    ensures var r := DisconnectControllerStep(m, m.order[k]);
      r.err.None? && r.model.order == m.order[..k] + m.order[k + 1..]
  {
    assert m.order[k] in Elems(m.order);
    NoDupWithoutAt(m.order, k);
  }

  /** The new client of `connect_client`: its own connection and then the controller
      fan-out subscribe, in that order, each getting the empty snapshot. */
  function RegistryClient(uid: Uid, send: Channel, fan: seq<Channel>): (r: ClientStep)
    ensures r.client == ChatClient(uid, false, [], [Direct(send), ControllerFanout])
    ensures |r.out| == 1 + |fan|
    ensures forall i :: 0 <= i < |r.out| ==> r.out[i].event == ChatValue(uid, false, [])
    ensures r.out[0] == Delivery(send, ChatValue(uid, false, []))
  {
    var first := ListenStep(NewClient(uid), Direct(send), fan);
    var second := ListenStep(first.client, ControllerFanout, fan);
    ClientStep(second.client, first.out + second.out)
  }

  /** `connect_client`: a fresh client replaces any previous entry; its own connection
      and then the controller fan-out subscribe, each getting the empty snapshot. */
  function ConnectClientStep(m: ChatModel, uid: Uid, send: Channel): (r: Step)
    requires WellFormed(m)
    ensures WellFormed(r.model) && r.err == None
    ensures uid in r.model.clients
    ensures r.model.clients[uid] == ChatClient(uid, false, [], [Direct(send), ControllerFanout])
    ensures OthersKept(m.clients, r.model.clients, uid)
    ensures r.model.controllers == m.controllers && r.model.order == m.order
    ensures |r.out| == 1 + |m.controllers|
    ensures forall i :: 0 <= i < |r.out| ==> r.out[i].event == ChatValue(uid, false, [])
    ensures r.out[0] == Delivery(send, ChatValue(uid, false, []))
  {
    var c := RegistryClient(uid, send, Fan(m));
    Step(m.(clients := m.clients[uid := c.client]), c.out, None)
  }

  /** `disconnect_client` (and the app's identical `disconnect`): KeyError for an
      unknown uid before anything is sent; otherwise the client's own subscribers are
      told, then the entry is deleted. */
  function DisconnectClientStep(m: ChatModel, uid: Uid): (r: Step)
    requires WellFormed(m)
    ensures WellFormed(r.model)
    ensures r.err.None? <==> uid in m.clients
    ensures r.err.Some? ==> r.err.value == KeyError(JString(uid)) && NoEffect(r, m)
    ensures r.err.None? ==> uid !in r.model.clients && OthersKept(m.clients, r.model.clients, uid)
    ensures r.err.None? ==> r.model.controllers == m.controllers && r.model.order == m.order
    ensures r.err.None? ==> r.out == NotifyOut(m.clients[uid].subscribers, Fan(m), ChatDisconnect(uid))
  {
    if uid !in m.clients then Step(m, [], Some(KeyError(JString(uid))))
    else Step(m.(clients := m.clients - {uid}), NotifyOut(m.clients[uid].subscribers, Fan(m), ChatDisconnect(uid)), None)
  }

  /** `ChatClientApp.connect`: like `connect_client`, but only the connection itself
      subscribes, so the controllers are never told about this client. */
  function ClientAppConnectStep(m: ChatModel, uid: Uid, send: Channel): (r: Step)
    requires WellFormed(m)
    ensures WellFormed(r.model) && r.err == None
    ensures uid in r.model.clients && r.model.clients[uid] == ChatClient(uid, false, [], [Direct(send)])
    ensures OthersKept(m.clients, r.model.clients, uid)
    ensures r.model.controllers == m.controllers && r.model.order == m.order
    ensures r.out == [Delivery(send, ChatValue(uid, false, []))]
  {
    var first := ListenStep(NewClient(uid), Direct(send), Fan(m));
    Step(m.(clients := m.clients[uid := first.client]), first.out, None)
  }

  /** `clients[k].activate()` / `.deactivate()` with `k` taken from a message: a key
      that is not a registered uid raises before anything changes; otherwise only that
      client's flag changes and its subscribers are told. */
  function FlagStep(m: ChatModel, k: Json, flag: bool): (r: Step)
    requires WellFormed(m)
    ensures WellFormed(r.model)
    ensures r.err.None? <==> k.JString? && k.s in m.clients
    ensures r.err.Some? ==> r.err.value == MissingKey(k) && NoEffect(r, m)
    ensures r.err.None? ==>
      && k.s in r.model.clients
      && r.model.clients[k.s] == m.clients[k.s].(active := flag)
      && OthersKept(m.clients, r.model.clients, k.s)
      && r.model.controllers == m.controllers && r.model.order == m.order
      && r.out == NotifyOut(m.clients[k.s].subscribers, Fan(m), FlagEvent(k.s, flag))
  {
    if !(k.JString? && k.s in m.clients) then Step(m, [], Some(MissingKey(k)))
    else
      var s := FlagClientStep(m.clients[k.s], flag, Fan(m));
      Step(m.(clients := m.clients[k.s := s.client]), s.out, None)
  }

  /** `clients[k].message(author, content)`: a key that is not a registered uid raises
      before anything changes; otherwise exactly one message by `author` is appended to
      that client alone and its subscribers are told. */
  function MessageStep(m: ChatModel, k: Json, author: Uid, content: Json, now: Timestamp): (r: Step)
    requires WellFormed(m)
    ensures WellFormed(r.model)
    ensures r.err.None? <==> k.JString? && k.s in m.clients
    ensures r.err.Some? ==> r.err.value == MissingKey(k) && NoEffect(r, m)
    ensures r.err.None? ==>
      && k.s in r.model.clients
      && r.model.clients[k.s].messages == m.clients[k.s].messages + [Message(author, content, now)]
      && r.model.clients[k.s] == m.clients[k.s].(messages := r.model.clients[k.s].messages)
      && OthersKept(m.clients, r.model.clients, k.s)
      && r.model.controllers == m.controllers && r.model.order == m.order
      && r.out == NotifyOut(m.clients[k.s].subscribers, Fan(m), ChatMessage(k.s, Message(author, content, now)))
  {
    if !(k.JString? && k.s in m.clients) then Step(m, [], Some(MissingKey(k)))
    else
      var s := MessageClientStep(m.clients[k.s], author, content, now, Fan(m));
      assert s.client.messages == m.clients[k.s].messages + [Message(author, content, now)];
      Step(m.(clients := m.clients[k.s := s.client]), s.out, None)
  }

  // ---------------------------------------------------------------------------
  // Commands.

  predicate HasString(message: map<string, Json>, k: string, v: string) {
    k in message && message[k] == JString(v)
  }

  /** `ChatClientApp.message`: the content of a "message" command, if the dict is one. */
  function ClientCommand(message: map<string, Json>): (r: Option<Json>)
    ensures r.Some? <==> HasString(message, "command", "message") && "content" in message
    ensures r.Some? ==> r.value == message["content"]
  {
    if HasString(message, "command", "message") && "content" in message then Some(message["content"]) else None
  }

  /** What a chat controller's message dict selects. */
  datatype ChatCommand =
    | CmdActivate(client: Json)
    | CmdDeactivate(client: Json)
    | CmdMessage(client: Json, content: Json)
    | CmdNone

  /** The `match` of `ChatControllerApp.message`: cases are tried in order. */
  function ControllerCommand(message: map<string, Json>): (r: ChatCommand)
    ensures r.CmdActivate? <==> HasString(message, "command", "activate") && "client" in message
    ensures r.CmdDeactivate? <==> HasString(message, "command", "deactivate") && "client" in message
    ensures r.CmdMessage? <==> HasString(message, "command", "message") && "client" in message && "content" in message
    ensures !r.CmdNone? ==> r.client == message["client"]
    ensures r.CmdMessage? ==> r.content == message["content"]
  {
    if HasString(message, "command", "activate") && "client" in message then CmdActivate(message["client"])
    else if HasString(message, "command", "deactivate") && "client" in message then CmdDeactivate(message["client"])
    else if HasString(message, "command", "message") && "client" in message && "content" in message then
      CmdMessage(message["client"], message["content"])
    else CmdNone
  }

  /** A client's message: the sender is both the client written to and the author. */
  function ClientMessageStep(m: ChatModel, uid: Uid, message: map<string, Json>, now: Timestamp): (r: Step)
    requires WellFormed(m)
    ensures ClientCommand(message).None? ==> r.err.None? && NoEffect(r, m)
    ensures ClientCommand(message).Some? ==> r == MessageStep(m, JString(uid), uid, ClientCommand(message).value, now)
  {
    match ClientCommand(message)
    case None => Step(m, [], None)
    case Some(content) => MessageStep(m, JString(uid), uid, content, now)
  }

  /** A controller's message: the named client is acted on; a message is authored by
      the controller. Unmatched dicts do nothing. */
  function ControllerMessageStep(m: ChatModel, uid: Uid, message: map<string, Json>, now: Timestamp): (r: Step)
    requires WellFormed(m)
    ensures WellFormed(r.model)
    ensures ControllerCommand(message).CmdNone? ==> r.err.None? && NoEffect(r, m)
    ensures r.err.Some? ==> NoEffect(r, m)
    ensures ControllerCommand(message).CmdActivate? ==> r == FlagStep(m, message["client"], true)
    ensures ControllerCommand(message).CmdDeactivate? ==> r == FlagStep(m, message["client"], false)
    ensures ControllerCommand(message).CmdMessage? ==>
      r == MessageStep(m, message["client"], uid, message["content"], now)
  {
    match ControllerCommand(message)
    case CmdNone => Step(m, [], None)
    case CmdActivate(k) => FlagStep(m, k, true)
    case CmdDeactivate(k) => FlagStep(m, k, false)
    case CmdMessage(k, content) => MessageStep(m, k, uid, content, now)
  }

  // ---------------------------------------------------------------------------
  // Properties across operations.

  /** A client registered by `connect_client` is seen by every controller: each
      registered controller gets the new client's snapshot. */
  lemma ConnectClientReachesControllers(m: ChatModel, uid: Uid, send: Channel, k: Uid)
    requires WellFormed(m) && k in m.controllers
    ensures Delivery(m.controllers[k], ChatValue(uid, false, [])) in ConnectClientStep(m, uid, send).out
  {
    var fan := Fan(m);
    var v := ChatValue(uid, false, []);
    var first := ListenStep(NewClient(uid), Direct(send), fan);
    var second := ListenStep(first.client, ControllerFanout, fan);
    FanChannelsAreControllers(m.controllers, m.order, k);
    ListenReachesOnlyNewSubscriber(first.client, ControllerFanout, fan, m.controllers[k]);
    assert Delivery(m.controllers[k], v) in second.out;
    assert ConnectClientStep(m, uid, send).out == first.out + second.out;
  }

  /** A client that connected through `ChatClientApp` is invisible to controllers: the
      only recipient of anything its own messages cause is its own connection. */
  lemma {:induction false} ClientAppMessagesStayPrivate(m: ChatModel, uid: Uid, send: Channel,
                                                        message: map<string, Json>, now: Timestamp)
    requires WellFormed(m)
    ensures var c := ClientAppConnectStep(m, uid, send);
      var r := ClientMessageStep(c.model, uid, message, now);
      forall d :: d in r.out ==> d.to == send
  {
    var c := ClientAppConnectStep(m, uid, send);
    var r := ClientMessageStep(c.model, uid, message, now);
    var subs := [Direct(send)];
    assert c.model.clients[uid].subscribers == subs;
    match ClientCommand(message)
    case None =>
    case Some(content) =>
      var e := ChatMessage(uid, Message(uid, content, now));
      assert subs[..0] == [];
      assert NotifyOut(subs, Fan(c.model), e) == [Delivery(send, e)];
  }

  /** Disconnecting twice: the second call raises KeyError, changes nothing, sends nothing. */
  lemma DisconnectTwiceRaises(m: ChatModel, uid: Uid)
    requires WellFormed(m) && uid in m.clients
    ensures var first := DisconnectClientStep(m, uid);
      && first.err.None?
      && var second := DisconnectClientStep(first.model, uid);
      && second.err == Some(KeyError(JString(uid))) && NoEffect(second, first.model)
  {
  }

  /** Messages accumulate: two messages to the same client leave both, in order, after
      everything it had before. */
  lemma TwoMessagesInOrder(m: ChatModel, k: Uid, a1: Uid, c1: Json, t1: Timestamp, a2: Uid, c2: Json, t2: Timestamp)
    requires WellFormed(m) && k in m.clients
    ensures var r1 := MessageStep(m, JString(k), a1, c1, t1);
      var r2 := MessageStep(r1.model, JString(k), a2, c2, t2);
      r2.err.None? && r2.model.clients[k].messages == m.clients[k].messages + [Message(a1, c1, t1), Message(a2, c2, t2)]
  {
    var r1 := MessageStep(m, JString(k), a1, c1, t1);
    var r2 := MessageStep(r1.model, JString(k), a2, c2, t2);
    assert m.clients[k].messages + [Message(a1, c1, t1)] + [Message(a2, c2, t2)]
      == m.clients[k].messages + [Message(a1, c1, t1), Message(a2, c2, t2)];
  }

  // ---------------------------------------------------------------------------
  // The mutable objects.

  class ChatClientState {
    const uid: Uid
    var active: bool
    var messages: seq<Message>
    var subscribers: seq<Subscriber>
    const net: Network

    function Model(): ChatClient
      reads this
    {
      ChatClient(uid, active, messages, subscribers)
    }

    constructor (uid: Uid, net: Network)
      ensures Model() == NewClient(uid) && this.net == net
    {
      this.uid := uid;
      active, messages, subscribers := false, [], [];
      this.net := net;
    }

    /** Calls one subscriber with `e`; for the controller fan-out this is the loop of
        `notify_controllers` over `fan`. */
    method Call(s: Subscriber, fan: seq<Channel>, e: Event)
      modifies net
      ensures net.sent == old(net.sent) + Reach(s, fan, e)
    {
      match s {
        case Direct(ch) =>
          net.Send(Delivery(ch, e));
        case ControllerFanout =>
          for i := 0 to |fan|
            invariant net.sent == old(net.sent) + Reach(s, fan, e)[..i]
          {
            net.Send(Delivery(fan[i], e));
            assert Reach(s, fan, e)[..i + 1] == Reach(s, fan, e)[..i] + [Delivery(fan[i], e)];
          }
      }
    }

    method Listen(s: Subscriber, fan: seq<Channel>)
      modifies this, net
      ensures var r := ListenStep(old(Model()), s, fan);
        Model() == r.client && net.sent == old(net.sent) + r.out
    {
      subscribers := AddLast(subscribers, s);
      Call(s, fan, ChatValue(uid, active, messages));
    }

    method Notify(e: Event, fan: seq<Channel>)
      modifies net
      ensures net.sent == old(net.sent) + NotifyOut(subscribers, fan, e)
    {
      for i := 0 to |subscribers|
        invariant net.sent == old(net.sent) + NotifyOut(subscribers[..i], fan, e)
      {
        Call(subscribers[i], fan, e);
        assert subscribers[..i + 1][..i] == subscribers[..i];
      }
      assert subscribers[..|subscribers|] == subscribers;
    }

    /** `activate` (flag true) and `deactivate` (flag false). */
    method SetFlag(flag: bool, fan: seq<Channel>)
      modifies this, net
      ensures var r := FlagClientStep(old(Model()), flag, fan);
        Model() == r.client && net.sent == old(net.sent) + r.out
    {
      active := flag;
      Notify(FlagEvent(uid, flag), fan);
    }

    method AddMessage(author: Uid, content: Json, now: Timestamp, fan: seq<Channel>)
      modifies this, net
      ensures var r := MessageClientStep(old(Model()), author, content, now, fan);
        Model() == r.client && net.sent == old(net.sent) + r.out
    {
      var message := Message(author, content, now);
      messages := messages + [message];
      Notify(ChatMessage(uid, message), fan);
    }
  }

  class ChatState {
    var clients: map<Uid, ChatClientState>
    var controllers: map<Uid, Channel>
    var order: seq<Uid>
    const net: Network

    function Model(): ChatModel
      reads this, clients.Values
    {
      ChatModel(map u | u in clients :: clients[u].Model(), controllers, order)
    }

    /** Every client object is filed under its own uid and shares this registry's network. */
    ghost predicate Valid()
      reads this, clients.Values
    {
      && WellFormed(Model())
      && forall u :: u in clients ==> clients[u].net == net
    }

    constructor (net: Network)
      ensures Valid() && Model() == ChatModel(map[], map[], []) && this.net == net
    {
      clients, controllers, order := map[], map[], [];
      this.net := net;
    }

    function Channels(): seq<Channel>
      reads this
      requires NoDup(order) && Elems(order) == controllers.Keys
    {
      FanChannels(controllers, order)
    }

    method ConnectController(uid: Uid, send: Channel)
      requires Valid()
      modifies this, net
      ensures Valid() && clients == old(clients)
      ensures var r := ConnectControllerStep(old(Model()), uid, send);
        Model() == r.model && net.sent == old(net.sent) + r.out
    {
      ghost var m := Model();
      var snapshot := Views(Model().clients);
      net.Send(Delivery(send, ChatClients(snapshot)));
      controllers := controllers[uid := send];
      order := AddLast(order, uid);
      assert Model().clients == m.clients;
    }

    method DisconnectController(uid: Uid) returns (err: Option<Error>)
      requires Valid()
      modifies this
      ensures Valid() && clients == old(clients)
      ensures var r := DisconnectControllerStep(old(Model()), uid);
        Model() == r.model && err == r.err
    {
      if uid !in controllers {
        return Some(KeyError(JString(uid)));
      }
      controllers := controllers - {uid};
      order := Without(order, uid);
      err := None;
    }

    /** `ChatClientState(uid)` and the two `listen` calls of `connect_client`. */
    method NewRegistryClient(uid: Uid, send: Channel, fan: seq<Channel>) returns (client: ChatClientState)
      modifies net
      ensures fresh(client) && client.net == net
      ensures var r := RegistryClient(uid, send, fan);
        client.Model() == r.client && net.sent == old(net.sent) + r.out
    {
      client := new ChatClientState(uid, net);
      client.Listen(Direct(send), fan);
      client.Listen(ControllerFanout, fan);
    }

    method ConnectClient(uid: Uid, send: Channel)
      requires Valid()
      modifies this, net
      ensures Valid()
      ensures var r := ConnectClientStep(old(Model()), uid, send);
        Model() == r.model && net.sent == old(net.sent) + r.out
    {
      ghost var m := Model();
      ghost var r := ConnectClientStep(m, uid, send);
      // `listen` reads no entry of `clients`, so filing the object after its
      // subscriptions is the same as filing it before.
      var client := NewRegistryClient(uid, send, Channels());
      clients := clients[uid := client];
      forall u | u in clients && u != uid ensures clients[u].Model() == m.clients[u] {
        assert clients[u] == old(clients[u]) && clients[u] != client;
      }
      Filed(m.clients, uid);
      assert Model() == r.model;
    }

    /** The model's clients are `mc` without `uid`. */
    lemma Unfiled(mc: map<Uid, ChatClient>, uid: Uid)
      requires uid !in clients
      requires forall u :: u in clients <==> u in mc && u != uid
      requires forall u :: u in clients ==> clients[u].Model() == mc[u]
      ensures Model().clients == mc - {uid}
    {
      assert Model().clients.Keys == mc.Keys - {uid};
    }

    /** The model's clients differ from `mc` only at `uid`, which holds that object's row. */
    lemma Filed(mc: map<Uid, ChatClient>, uid: Uid)
      requires uid in clients
      requires forall u :: u in clients <==> u in mc || u == uid
      requires forall u :: u in clients && u != uid ==> clients[u].Model() == mc[u]
      ensures Model().clients == mc[uid := clients[uid].Model()]
    {
      assert Model().clients.Keys == mc.Keys + {uid};
    }

    method DisconnectClient(uid: Uid) returns (err: Option<Error>)
      requires Valid()
      modifies this, net
      ensures Valid()
      ensures var r := DisconnectClientStep(old(Model()), uid);
        Model() == r.model && net.sent == old(net.sent) + r.out && err == r.err
    {
      if uid !in clients {
        return Some(KeyError(JString(uid)));
      }
      ghost var m := Model();
      clients[uid].Notify(ChatDisconnect(uid), Channels());
      clients := clients - {uid};
      Unfiled(m.clients, uid);
      err := None;
    }

    /** `clients[k].activate()` / `.deactivate()`. */
    method FlagClient(k: Json, flag: bool) returns (err: Option<Error>)
      requires Valid()
      modifies clients.Values, net
      ensures Valid()
      ensures var r := FlagStep(old(Model()), k, flag);
        Model() == r.model && net.sent == old(net.sent) + r.out && err == r.err
    {
      if !(k.JString? && k.s in clients) {
        return Some(MissingKey(k));
      }
      ghost var m := Model();
      var client := clients[k.s];
      forall u | u in clients && u != k.s ensures clients[u] != client {
        assert m.clients[u] == clients[u].Model() && m.clients[k.s] == client.Model();
      }
      client.SetFlag(flag, Channels());
      Filed(m.clients, k.s);
      err := None;
    }

    /** `clients[k].message(author, content)`. */
    method MessageClient(k: Json, author: Uid, content: Json, now: Timestamp) returns (err: Option<Error>)
      requires Valid()
      modifies clients.Values, net
      ensures Valid()
      ensures var r := MessageStep(old(Model()), k, author, content, now);
        Model() == r.model && net.sent == old(net.sent) + r.out && err == r.err
    {
      if !(k.JString? && k.s in clients) {
        return Some(MissingKey(k));
      }
      ghost var m := Model();
      var client := clients[k.s];
      forall u | u in clients && u != k.s ensures clients[u] != client {
        assert m.clients[u] == clients[u].Model() && m.clients[k.s] == client.Model();
      }
      client.AddMessage(author, content, now, Channels());
      Filed(m.clients, k.s);
      err := None;
    }
  }

  /** `ChatClientApp`: a client talks only to its own entry. */
  class ChatClientApp {
    const state: ChatState

    constructor (state: ChatState)
      ensures this.state == state
    {
      this.state := state;
    }

    method Connect(uid: Uid, send: Channel)
      requires state.Valid()
      modifies state, state.net
      ensures state.Valid()
      ensures var r := ClientAppConnectStep(old(state.Model()), uid, send);
        state.Model() == r.model && state.net.sent == old(state.net.sent) + r.out
    {
      ghost var m := state.Model();
      var client := new ChatClientState(uid, state.net);
      state.clients := state.clients[uid := client];
      client.Listen(Direct(send), state.Channels());
      forall u | u in state.clients && u != uid ensures state.clients[u].Model() == m.clients[u] {
        assert state.clients[u] == old(state.clients[u]) && state.clients[u] != client;
      }
      state.Filed(m.clients, uid);
    }

    method Message(uid: Uid, message: map<string, Json>, now: Timestamp) returns (err: Option<Error>)
      requires state.Valid()
      modifies state.clients.Values, state.net
      ensures state.Valid()
      ensures var r := ClientMessageStep(old(state.Model()), uid, message, now);
        state.Model() == r.model && state.net.sent == old(state.net.sent) + r.out && err == r.err
    {
      var content := ClientCommand(message);
      if content.Some? {
        err := state.MessageClient(JString(uid), uid, content.value, now);
      } else {
        err := None;
      }
    }

    /** The body repeats `ChatState.disconnect_client` statement for statement. */
    method Disconnect(uid: Uid) returns (err: Option<Error>)
      requires state.Valid()
      modifies state, state.net
      ensures state.Valid()
      ensures var r := DisconnectClientStep(old(state.Model()), uid);
        state.Model() == r.model && state.net.sent == old(state.net.sent) + r.out && err == r.err
    {
      err := state.DisconnectClient(uid);
    }
  }

  /** `ChatControllerApp`: controllers register for the snapshot and act on any client. */
  class ChatControllerApp {
    const state: ChatState

    constructor (state: ChatState)
      ensures this.state == state
    {
      this.state := state;
    }

    method Connect(uid: Uid, send: Channel)
      requires state.Valid()
      modifies state, state.net
      ensures state.Valid()
      ensures var r := ConnectControllerStep(old(state.Model()), uid, send);
        state.Model() == r.model && state.net.sent == old(state.net.sent) + r.out
    {
      state.ConnectController(uid, send);
    }

    method Message(uid: Uid, message: map<string, Json>, now: Timestamp) returns (err: Option<Error>)
      requires state.Valid()
      modifies state.clients.Values, state.net
      ensures state.Valid()
      ensures var r := ControllerMessageStep(old(state.Model()), uid, message, now);
        state.Model() == r.model && state.net.sent == old(state.net.sent) + r.out && err == r.err
    {
      match ControllerCommand(message) {
        case CmdNone =>
          err := None;
        case CmdActivate(k) =>
          err := state.FlagClient(k, true);
        case CmdDeactivate(k) =>
          err := state.FlagClient(k, false);
        case CmdMessage(k, content) =>
          err := state.MessageClient(k, uid, content, now);
      }
    }

    method Disconnect(uid: Uid) returns (err: Option<Error>)
      requires state.Valid()
      modifies state
      ensures state.Valid()
      ensures var r := DisconnectControllerStep(old(state.Model()), uid);
        state.Model() == r.model && err == r.err
    {
      err := state.DisconnectController(uid);
    }
  }
}
