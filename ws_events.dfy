/** Values exchanged by the live-state registry of server/wsmanager.py: connection ids,
    the JSON values that arrive in command envelopes, the outbound events, and the
    network on which every `send` callback is recorded. */
module WsEvents {
  import opened Common

  /** A connection id (`str(uuid4())` or one given by the caller). */
  type Uid = string

  /** A JSON value inside an inbound envelope. Arrays and objects are kept abstract:
      all the model needs of them is that they cannot be used as a dict key. */
  datatype Json = JString(s: string) | JNumber(n: int) | JBool(b: bool) | JNull | JCompound

  /** The send capability of one connection (its bound `ws.send_json`). */
  datatype Channel = Channel(conn: Uid)

  /** An opaque instant (`datetime.now(UTC)`), supplied by the caller. */
  datatype Timestamp = Timestamp(instant: int)

  /** A chat message; immutable once created. */
  datatype Message = Message(author: Uid, content: Json, timestamp: Timestamp)

  /** What a chat controller's snapshot shows of one client. */
  datatype ChatClientView = ChatClientView(active: bool, messages: seq<Message>)

  /** The outbound event dicts, one constructor per `"type"`. */
  datatype Event =
    | RewriteConnect(client: Uid, active: bool, content: Json)
    | RewriteDisconnect(client: Uid)
    | RewriteActivate(client: Uid)
    | RewriteDeactivate(client: Uid)
    | RewriteContent(client: Uid, content: Json)
    | ChatValue(client: Uid, active: bool, messages: seq<Message>)
    | ChatClients(clients: map<Uid, ChatClientView>)
    | ChatActivate(client: Uid)
    | ChatDeactivate(client: Uid)
    | ChatMessage(client: Uid, message: Message)
    | ChatDisconnect(client: Uid)

  /** One call of a send callback: the event handed to one connection. */
  datatype Delivery = Delivery(to: Channel, event: Event)

  /** The exceptions the registry lets escape. `GatherRejected` is what
      `asyncio.gather` raises when handed a generator. */
  datatype Error = KeyError(key: Json) | TypeError | GatherRejected

  /** The error raised by `d[k]` for a key `k` missing from a dict with string keys:
      a string or scalar gives KeyError, an array or object is unhashable (TypeError). */
  function MissingKey(k: Json): (r: Error)
    ensures r == TypeError <==> k.JCompound?
    ensures r.KeyError? ==> r.key == k
  {
    if k.JCompound? then TypeError else KeyError(k)
  }

  /** The transport: every send callback appends one delivery to `sent`. */
  class Network {
    var sent: seq<Delivery>

    constructor ()
      ensures sent == []
    {
      sent := [];
    }

    method Send(d: Delivery)
      modifies this
      ensures sent == old(sent) + [d]
    {
      sent := sent + [d];
    }
  }
}
