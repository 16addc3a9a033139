/** The `WSManager` of service/wsmanager.py, repeated verbatim in backend/__init__.py
    (lines 26-75): each live page is filed under a fresh uid in `connections`, its
    displayed value `(active, content)` in `state`, and the admin's commands are sent
    to the page as text before the recorded value changes. */
module ServiceWsManager {
  import opened Common

  type Uid = string

  /** An accepted WebSocket. */
  datatype Socket = Socket(id: nat)

  /** One text frame that reached a socket. */
  datatype TextSend = TextSend(to: Socket, text: string)

  /** The exceptions that escape: `HTTPException(404, "Not found.")` for a command to
      an unknown uid, and the KeyError `disconnect` raises for a uid filed in
      `connections` but not in `state`. */
  datatype Failure = NotFound | KeyError(key: Uid)

  /** The two dicts. `state[uid]` is `(active, content)`. */
  datatype ManagerModel = ManagerModel(connections: map<Uid, Socket>, state: map<Uid, (bool, string)>)

  /** The invariant the methods keep: a uid is filed in both dicts or in neither. */
  predicate KeysMatch(m: ManagerModel) {
    m.connections.Keys == m.state.Keys
  }

  /** The text frames the manager sends. */
  const ConnectText: string := "CONNECT"
  const ActivateText: string := "ACTIVATE"
  const DeactivateText: string := "DEACTIVATE"

  function UpdateText(content: string): (r: string)
    ensures |r| == 7 + |content| && r[..7] == "UPDATE " && r[7..] == content
  {
    "UPDATE " + content
  }

  // ---------------------------------------------------------------------------
  // Steps. `delivered` is whether the awaited `send_text` returned rather than
  // raising WebSocketDisconnect.

  /** The outcome of `connect`: the new state, the frames that went out, and the uid
      returned (None when the page went away during the CONNECT frame). */
  datatype ConnectResult = ConnectResult(model: ManagerModel, out: seq<TextSend>, uid: Option<Uid>)

  /** `connect`: the page is filed, as inactive with empty content, only once the
      CONNECT frame has gone out. */
  function ConnectStep(m: ManagerModel, ws: Socket, newUid: Uid, delivered: bool): (r: ConnectResult)
    ensures KeysMatch(m) ==> KeysMatch(r.model)
    ensures r.uid.Some? <==> delivered
    ensures !delivered ==> r.model == m && r.out == []
    ensures delivered ==>
      && r.uid == Some(newUid)
      && r.model.connections == m.connections[newUid := ws]
      && r.model.state == m.state[newUid := (false, "")]
      && r.out == [TextSend(ws, ConnectText)]
  {
    if !delivered then ConnectResult(m, [], None)
    else ConnectResult(ManagerModel(m.connections[newUid := ws], m.state[newUid := (false, "")]),
      [TextSend(ws, ConnectText)], Some(newUid))
  }

  /** The outcome of a command: new state, frames sent, the exception if any. */
  datatype Step = Step(model: ManagerModel, out: seq<TextSend>, err: Option<Failure>)

  /** `disconnect`: the uid leaves both dicts if it is filed; otherwise nothing happens.
      The `del` from `connections` comes first, so a uid missing from `state` leaves
      `connections` and raises KeyError; while the dicts match this never happens. */
  function DisconnectStep(m: ManagerModel, uid: Uid): (r: Step)
    ensures r.out == [] && uid !in r.model.connections
    ensures KeysMatch(m) ==> KeysMatch(r.model) && r.err.None?
    ensures uid in m.connections && uid in m.state ==>
      r.err.None? && r.model == ManagerModel(m.connections - {uid}, m.state - {uid})
    ensures uid in m.connections && uid !in m.state ==>
      r.err == Some(KeyError(uid)) && r.model == m.(connections := m.connections - {uid})
    ensures uid !in m.connections ==> r.err.None? && r.model == m
  {
    if uid !in m.connections then Step(m, [], None)
    else if uid !in m.state then Step(m.(connections := m.connections - {uid}), [], Some(KeyError(uid)))
    else Step(ManagerModel(m.connections - {uid}, m.state - {uid}), [], None)
  }

  /** Disconnecting is idempotent, and a second disconnect never raises. */
  lemma DisconnectIdempotent(m: ManagerModel, uid: Uid)
    ensures var once := DisconnectStep(m, uid);
      DisconnectStep(once.model, uid) == Step(once.model, [], None)
  {
  }

  /** `activate` (flag true) / `deactivate` (flag false): 404 for a uid without a
      socket, before anything is sent; otherwise the frame goes out first, and only
      if it arrives is the flag of `uid` set, its content kept. A failed send
      disconnects the page instead. */
  function SetFlagStep(m: ManagerModel, uid: Uid, flag: bool, delivered: bool): (r: Step)
    ensures KeysMatch(m) ==> KeysMatch(r.model) && (r.err.Some? <==> uid !in m.connections)
    ensures uid !in m.connections ==> r.err == Some(NotFound) && r.model == m && r.out == []
    ensures uid in m.connections ==>
      r.out == if delivered then [TextSend(m.connections[uid], if flag then ActivateText else DeactivateText)] else []
    ensures uid in m.connections && !delivered ==> r == DisconnectStep(m, uid)
    ensures uid in m.connections && delivered ==> r.model.connections == m.connections
    ensures uid in m.connections && delivered ==> (r.err.None? <==> uid in m.state)
    ensures uid in m.connections && delivered && uid in m.state ==>
      r.model.state == m.state[uid := (flag, m.state[uid].1)]
    ensures uid in m.connections && delivered && uid !in m.state ==> r.model == m
  {
    if uid !in m.connections then Step(m, [], Some(NotFound))
    else if !delivered then DisconnectStep(m, uid)
    else
      var out := [TextSend(m.connections[uid], if flag then ActivateText else DeactivateText)];
      if uid !in m.state then Step(m, out, Some(NotFound))
      else Step(m.(state := m.state[uid := (flag, m.state[uid].1)]), out, None)
  }

  /** `update`: like `activate`, but the frame is "UPDATE " followed by the content,
      and only the content of `uid` changes; its flag is kept. */
  function UpdateStep(m: ManagerModel, uid: Uid, content: string, delivered: bool): (r: Step)
    ensures KeysMatch(m) ==> KeysMatch(r.model) && (r.err.Some? <==> uid !in m.connections)
    ensures uid !in m.connections ==> r.err == Some(NotFound) && r.model == m && r.out == []
    ensures uid in m.connections ==>
      r.out == if delivered then [TextSend(m.connections[uid], UpdateText(content))] else []
    ensures uid in m.connections && !delivered ==> r == DisconnectStep(m, uid)
    ensures uid in m.connections && delivered ==> r.model.connections == m.connections
    ensures uid in m.connections && delivered ==> (r.err.None? <==> uid in m.state)
    ensures uid in m.connections && delivered && uid in m.state ==>
      r.model.state == m.state[uid := (m.state[uid].0, content)]
    ensures uid in m.connections && delivered && uid !in m.state ==> r.model == m
  {
    if uid !in m.connections then Step(m, [], Some(NotFound))
    else if !delivered then DisconnectStep(m, uid)
    else
      var out := [TextSend(m.connections[uid], UpdateText(content))];
      if uid !in m.state then Step(m, out, Some(NotFound))
      else Step(m.(state := m.state[uid := (m.state[uid].0, content)]), out, None)
  }

  /** A command for a page that has gone away never writes its value: the uid is no
      longer filed at all, so it cannot show up as active or with the new content. */
  lemma FailedSendForgetsPage(m: ManagerModel, uid: Uid, content: string)
    requires KeysMatch(m) && uid in m.connections
    ensures var r := UpdateStep(m, uid, content, false);
      uid !in r.model.state && r.err.None? && r.out == []
  {
  }

  /** Commands compose as the page sees them: activating then updating a filed page
      that stays connected leaves it active with the new content. */
  lemma ActivateThenUpdate(m: ManagerModel, uid: Uid, content: string)
    requires KeysMatch(m) && uid in m.connections
    ensures var a := SetFlagStep(m, uid, true, true);
      var u := UpdateStep(a.model, uid, content, true);
      && u.err.None? && u.model.state[uid] == (true, content)
      && a.out + u.out == [TextSend(m.connections[uid], ActivateText), TextSend(m.connections[uid], UpdateText(content))]
  {
  }

  // ---------------------------------------------------------------------------
  // The mutable objects.

  /** The sockets' side: every frame that reached a page. */
  class Pages {
    var sent: seq<TextSend>

    constructor ()
      ensures sent == []
    {
      sent := [];
    }

    /** `await ws.send_text(text)`; `delivered` says whether it returned. */
    method SendText(ws: Socket, text: string, delivered: bool)
      modifies this
      ensures sent == old(sent) + (if delivered then [TextSend(ws, text)] else [])
    {
      if delivered {
        sent := sent + [TextSend(ws, text)];
      }
    }
  }

  class WSManager {
    var connections: map<Uid, Socket>
    var state: map<Uid, (bool, string)>
    const pages: Pages

    function Model(): ManagerModel
      reads this
    {
      ManagerModel(connections, state)
    }

    constructor (pages: Pages)
      ensures Model() == ManagerModel(map[], map[]) && KeysMatch(Model()) && this.pages == pages
    {
      connections, state := map[], map[];
      this.pages := pages;
    }

    method Connect(ws: Socket, newUid: Uid, delivered: bool) returns (uid: Option<Uid>)
      modifies this, pages
      ensures var r := ConnectStep(old(Model()), ws, newUid, delivered);
        Model() == r.model && pages.sent == old(pages.sent) + r.out && uid == r.uid
    {
      pages.SendText(ws, ConnectText, delivered);
      if !delivered {
        return None;
      }
      connections := connections[newUid := ws];
      state := state[newUid := (false, "")];
      uid := Some(newUid);
    }

    method Disconnect(uid: Uid) returns (r: Uid, err: Option<Failure>)
      modifies this
      ensures var s := DisconnectStep(old(Model()), uid);
        Model() == s.model && err == s.err && r == uid
    {
      if uid in connections {
        connections := connections - {uid};
        if uid !in state {
          return uid, Some(KeyError(uid));
        }
        state := state - {uid};
      }
      r, err := uid, None;
    }

    /** `activate` (flag true) and `deactivate` (flag false). */
    method SetFlag(uid: Uid, flag: bool, delivered: bool) returns (err: Option<Failure>)
      modifies this, pages
      ensures var r := SetFlagStep(old(Model()), uid, flag, delivered);
        Model() == r.model && pages.sent == old(pages.sent) + r.out && err == r.err
    {
      if uid !in connections {
        return Some(NotFound);
      }
      pages.SendText(connections[uid], if flag then ActivateText else DeactivateText, delivered);
      if !delivered {
        var _, e := Disconnect(uid);
        return e;
      }
      if uid !in state {
        return Some(NotFound);
      }
      state := state[uid := (flag, state[uid].1)];
      err := None;
    }

    method Update(uid: Uid, content: string, delivered: bool) returns (err: Option<Failure>)
      modifies this, pages
      ensures var r := UpdateStep(old(Model()), uid, content, delivered);
        Model() == r.model && pages.sent == old(pages.sent) + r.out && err == r.err
    {
      if uid !in connections {
        return Some(NotFound);
      }
      pages.SendText(connections[uid], UpdateText(content), delivered);
      if !delivered {
        var _, e := Disconnect(uid);
        return e;
      }
      if uid !in state {
        return Some(NotFound);
      }
      state := state[uid := (state[uid].0, content)];
      err := None;
    }
  }
}
