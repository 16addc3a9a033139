/** `ConMan` of backend.py, the oldest revision of the registry: `connections` files
    each page under a uid, `active` holds the content of the activated pages only, and
    every command is sent to the page as text before `active` changes. Also the
    `/madness/connections` listing and the `/madness/dispatch` verb switch. */
module BackendConMan {
  import opened Common
  import SW = ServiceWsManager

  type Uid = string

  /** The exceptions the commands let escape: a missing key, or a call with the wrong
      number of arguments. */
  datatype Failure = KeyError(key: Uid) | TypeError

  /** The two dicts, with the insertion order of `connections` (the listing's order). */
  datatype ConModel = ConModel(connections: map<Uid, SW.Socket>, order: seq<Uid>, active: map<Uid, string>)

  /** The invariant the methods keep: `order` lists `connections`, and only filed pages
      are active. */
  predicate Inv(m: ConModel) {
    && NoDup(m.order) && Elems(m.order) == m.connections.Keys
    && m.active.Keys <= m.connections.Keys
  }

  datatype ConnectResult = ConnectResult(model: ConModel, out: seq<SW.TextSend>, uid: Option<Uid>)

  /** `connect`: "CONNECT <uid>" goes out, then the uid is filed in `connections` only;
      a page that goes away during the send is not filed and None is returned. */
  function ConnectStep(m: ConModel, ws: SW.Socket, newUid: Uid, delivered: bool): (r: ConnectResult)
    ensures Inv(m) ==> Inv(r.model)
    ensures r.uid.Some? <==> delivered
    ensures !delivered ==> r.model == m && r.out == []
    ensures delivered ==>
      && r.uid == Some(newUid)
      && r.model.connections == m.connections[newUid := ws]
      && r.model.active == m.active
      && r.out == [SW.TextSend(ws, "CONNECT " + newUid)]
    ensures Inv(m) && delivered && newUid !in m.connections ==> r.model.order == m.order + [newUid]
    ensures Inv(m) && delivered && newUid in m.connections ==> r.model.order == m.order
  {
    if !delivered then ConnectResult(m, [], None)
    else ConnectResult(ConModel(m.connections[newUid := ws], AddLast(m.order, newUid), m.active),
      [SW.TextSend(ws, "CONNECT " + newUid)], Some(newUid))
  }

  /** `disconnect`: the uid leaves both dicts, wherever it is filed; never raises. */
  function DisconnectStep(m: ConModel, uid: Uid): (r: ConModel)
    ensures Inv(m) ==> Inv(r)
    ensures r.connections == m.connections - {uid} && r.active == m.active - {uid}
    ensures r.order == Without(m.order, uid)
  {
    ConModel(m.connections - {uid}, Without(m.order, uid), m.active - {uid})
  }

  /** Filing order, which the listing follows: a new page is listed last, and
      disconnecting the page at position `k` cuts out that one position. */
  lemma FilingOrderKept(m: ConModel, ws: SW.Socket, newUid: Uid, k: int)
    requires Inv(m) && newUid !in m.connections && 0 <= k < |m.order|
    ensures ConnectStep(m, ws, newUid, true).model.order == m.order + [newUid]
    ensures DisconnectStep(m, m.order[k]).order == m.order[..k] + m.order[k + 1..]
  {
    NoDupWithoutAt(m.order, k);
  }

  lemma DisconnectIdempotent(m: ConModel, uid: Uid)
    ensures DisconnectStep(DisconnectStep(m, uid), uid) == DisconnectStep(m, uid)
  {
    assert Without(Without(m.order, uid), uid) == Without(m.order, uid);
  }

  datatype Step = Step(model: ConModel, out: seq<SW.TextSend>, err: Option<Failure>)

  /** `activate`: KeyError for an unfiled uid; otherwise "ACTIVATE" goes out and the
      page's content is reset to "", whatever it was. */
  function ActivateStep(m: ConModel, uid: Uid, delivered: bool): (r: Step)
    ensures Inv(m) ==> Inv(r.model)
    ensures uid !in m.connections ==> r == Step(m, [], Some(KeyError(uid)))
    ensures uid in m.connections && !delivered ==> r == Step(DisconnectStep(m, uid), [], None)
    ensures uid in m.connections && delivered ==>
      && r.err.None? && r.out == [SW.TextSend(m.connections[uid], "ACTIVATE")]
      && r.model.connections == m.connections
      && r.model.active == m.active[uid := ""]
  {
    if uid !in m.connections then Step(m, [], Some(KeyError(uid)))
    else if !delivered then Step(DisconnectStep(m, uid), [], None)
    else Step(m.(active := m.active[uid := ""]), [SW.TextSend(m.connections[uid], "ACTIVATE")], None)
  }

  /** `deactivate`: whatever happens to the send, even a KeyError, the `finally`
      removes the uid from `active`. */
  function DeactivateStep(m: ConModel, uid: Uid, delivered: bool): (r: Step)
    ensures Inv(m) ==> Inv(r.model)
    ensures uid !in r.model.active
    ensures r.err.Some? <==> uid !in m.connections
    ensures r.err.Some? ==>
      r.err.value == KeyError(uid) && r.out == [] && r.model == m.(active := m.active - {uid})
    ensures uid in m.connections && !delivered ==> r == Step(DisconnectStep(m, uid), [], None)
    ensures uid in m.connections && delivered ==>
      && r.out == [SW.TextSend(m.connections[uid], "DEACTIVATE")]
      && r.model.connections == m.connections
      && r.model.active == m.active - {uid}
  {
    if uid !in m.connections then Step(m.(active := m.active - {uid}), [], Some(KeyError(uid)))
    else if !delivered then Step(DisconnectStep(m, uid), [], None)
    else Step(m.(active := m.active - {uid}), [SW.TextSend(m.connections[uid], "DEACTIVATE")], None)
  }

  /** `update`: "UPDATE <content>" goes out and the uid gets that content, becoming
      active even if it was never activated. */
  function UpdateStep(m: ConModel, uid: Uid, content: string, delivered: bool): (r: Step)
    ensures Inv(m) ==> Inv(r.model)
    ensures uid !in m.connections ==> r == Step(m, [], Some(KeyError(uid)))
    ensures uid in m.connections && !delivered ==> r == Step(DisconnectStep(m, uid), [], None)
    ensures uid in m.connections && delivered ==>
      && r.err.None? && r.out == [SW.TextSend(m.connections[uid], "UPDATE " + content)]
      && r.model.connections == m.connections
      && r.model.active == m.active[uid := content]
  {
    if uid !in m.connections then Step(m, [], Some(KeyError(uid)))
    else if !delivered then Step(DisconnectStep(m, uid), [], None)
    else Step(m.(active := m.active[uid := content]), [SW.TextSend(m.connections[uid], "UPDATE " + content)], None)
  }

  /** `append`: "APPEND <content>" goes out first; then `active[uid] += content`, which
      raises KeyError for an inactive page after the text has already been sent. */
  function AppendStep(m: ConModel, uid: Uid, content: string, delivered: bool): (r: Step)
    ensures Inv(m) ==> Inv(r.model)
    ensures uid !in m.connections ==> r == Step(m, [], Some(KeyError(uid)))
    ensures uid in m.connections && !delivered ==> r == Step(DisconnectStep(m, uid), [], None)
    ensures uid in m.connections && delivered ==>
      && r.out == [SW.TextSend(m.connections[uid], "APPEND " + content)]
      && (r.err.None? <==> uid in m.active)
      && (uid !in m.active ==> r.model == m && r.err == Some(KeyError(uid)))
      && (uid in m.active ==> r.model == m.(active := m.active[uid := m.active[uid] + content]))
  {
    if uid !in m.connections then Step(m, [], Some(KeyError(uid)))
    else if !delivered then Step(DisconnectStep(m, uid), [], None)
    else
      var out := [SW.TextSend(m.connections[uid], "APPEND " + content)];
      if uid !in m.active then Step(m, out, Some(KeyError(uid)))
      else Step(m.(active := m.active[uid := m.active[uid] + content]), out, None)
  }

  /** `clear`: "CLEAR" goes out and the uid's content becomes "", inserting it into
      `active` if it was not there. */
  function ClearStep(m: ConModel, uid: Uid, delivered: bool): (r: Step)
    ensures Inv(m) ==> Inv(r.model)
    ensures uid !in m.connections ==> r == Step(m, [], Some(KeyError(uid)))
    ensures uid in m.connections && !delivered ==> r == Step(DisconnectStep(m, uid), [], None)
    ensures uid in m.connections && delivered ==>
      && r.err.None? && r.out == [SW.TextSend(m.connections[uid], "CLEAR")]
      && r.model.connections == m.connections
      && r.model.active == m.active[uid := ""]
  {
    if uid !in m.connections then Step(m, [], Some(KeyError(uid)))
    else if !delivered then Step(DisconnectStep(m, uid), [], None)
    else Step(m.(active := m.active[uid := ""]), [SW.TextSend(m.connections[uid], "CLEAR")], None)
  }

  /** Appending builds on what `update` left: update then append concatenates. */
  lemma UpdateThenAppend(m: ConModel, uid: Uid, a: string, b: string)
    requires uid in m.connections
    ensures var u := UpdateStep(m, uid, a, true);
      var p := AppendStep(u.model, uid, b, true);
      p.err.None? && p.model.active[uid] == a + b
  {
  }

  /** Activating an active page throws its content away. */
  lemma ActivateResetsContent(m: ConModel, uid: Uid)
    requires uid in m.connections && uid in m.active
    ensures ActivateStep(m, uid, true).model.active[uid] == ""
  {
  }

  // ---------------------------------------------------------------------------
  // `/madness/connections`.

  /** One entry of the listing. */
  datatype Record = Record(id: Uid, active: bool, content: string)

  /** The listing: one record per filed page, in filing order; `active` says whether the
      page is in `active`, and `content` is its content or "". Without a valid login
      cookie the route answers 403 instead (None). */
  function Listing(m: ConModel, auth: bool): (r: Option<seq<Record>>)
    requires Inv(m)
    ensures r.None? <==> !auth
    ensures r.Some? ==> |r.value| == |m.connections| == |m.order|
    ensures r.Some? ==> forall i :: 0 <= i < |r.value| ==>
      && r.value[i].id == m.order[i]
      && r.value[i].id in m.connections
      && (r.value[i].active <==> r.value[i].id in m.active)
      && r.value[i].content == (if r.value[i].id in m.active then m.active[r.value[i].id] else "")
  {
    if !auth then None
    else
      NoDupCard(m.order);
      Some(seq(|m.order|, i requires 0 <= i < |m.order| =>
        Record(m.order[i], m.order[i] in m.active, if m.order[i] in m.active then m.active[m.order[i]] else "")))
  }

  /** Every filed page is listed, exactly once. */
  lemma {:induction false} ListingListsEachOnce(m: ConModel, uid: Uid)
    requires Inv(m) && uid in m.connections
    ensures var l := Listing(m, true).value;
      exists i :: 0 <= i < |l| && l[i].id == uid
    ensures var l := Listing(m, true).value;
      forall i, j :: 0 <= i < j < |l| ==> l[i].id != l[j].id
  {
    var l := Listing(m, true).value;
    var i :| 0 <= i < |m.order| && m.order[i] == uid;
    assert l[i].id == uid;
  }

  // ---------------------------------------------------------------------------
  // `/madness/dispatch`.

  /** The `match command` of `dispatch_command` as written: the "CLEAR" case calls
      `clear(uid, content)`, one argument more than `clear(self, uid)` takes, so it
      raises TypeError before anything is sent. */
  function DispatchAsWritten(m: ConModel, command: string, uid: Uid, content: string, delivered: bool): (r: Step)
    requires Inv(m)
    ensures command == "CLEAR" ==> r == Step(m, [], Some(TypeError))
    ensures command != "CLEAR" ==> r == DispatchIntended(m, command, uid, content, delivered)
  {
    if command == "CLEAR" then Step(m, [], Some(TypeError))
    else DispatchIntended(m, command, uid, content, delivered)
  }

  /** The evidently intended switch: "CLEAR" clears the page. Any other unknown verb
      does nothing. */
  function DispatchIntended(m: ConModel, command: string, uid: Uid, content: string, delivered: bool): (r: Step)
    requires Inv(m)
    ensures Inv(r.model)
    ensures command == "ACTIVATE" ==> r == ActivateStep(m, uid, delivered)
    ensures command == "DEACTIVATE" ==> r == DeactivateStep(m, uid, delivered)
    ensures command == "UPDATE" ==> r == UpdateStep(m, uid, content, delivered)
    ensures command == "APPEND" ==> r == AppendStep(m, uid, content, delivered)
    ensures command == "CLEAR" ==> r == ClearStep(m, uid, delivered)
    ensures command !in {"ACTIVATE", "DEACTIVATE", "UPDATE", "APPEND", "CLEAR"} ==> r == Step(m, [], None)
  {
    if command == "ACTIVATE" then ActivateStep(m, uid, delivered)
    else if command == "DEACTIVATE" then DeactivateStep(m, uid, delivered)
    else if command == "UPDATE" then UpdateStep(m, uid, content, delivered)
    else if command == "APPEND" then AppendStep(m, uid, content, delivered)
    else if command == "CLEAR" then ClearStep(m, uid, delivered)
    else Step(m, [], None)
  }

  /** The discrepancy: on a filed, active page with content "x", "CLEAR" as written
      raises and leaves "x" on the page; as intended the page is cleared. */
  lemma ClearRaisesTypeError(ws: SW.Socket)
    ensures var m := ConModel(map["p" := ws], ["p"], map["p" := "x"]);
      && Inv(m)
      && DispatchAsWritten(m, "CLEAR", "p", "", true) == Step(m, [], Some(TypeError))
      && DispatchIntended(m, "CLEAR", "p", "", true).model.active["p"] == ""
  {
    var m := ConModel(map["p" := ws], ["p"], map["p" := "x"]);
    assert Elems(m.order) == {"p"};
  }

  // ---------------------------------------------------------------------------
  // The mutable object.

  class ConMan {
    var connections: map<Uid, SW.Socket>
    var order: seq<Uid>
    var active: map<Uid, string>
    const pages: SW.Pages

    function Model(): ConModel
      reads this
    {
      ConModel(connections, order, active)
    }

    constructor (pages: SW.Pages)
      ensures Model() == ConModel(map[], [], map[]) && Inv(Model()) && this.pages == pages
    {
      connections, order, active := map[], [], map[];
      this.pages := pages;
    }

    method Connect(ws: SW.Socket, newUid: Uid, delivered: bool) returns (uid: Option<Uid>)
      modifies this, pages
      ensures var r := ConnectStep(old(Model()), ws, newUid, delivered);
        Model() == r.model && pages.sent == old(pages.sent) + r.out && uid == r.uid
    {
      pages.SendText(ws, "CONNECT " + newUid, delivered);
      if !delivered {
        return None;
      }
      connections := connections[newUid := ws];
      order := AddLast(order, newUid);
      uid := Some(newUid);
    }

    method Disconnect(uid: Uid) returns (r: Uid)
      modifies this
      ensures Model() == DisconnectStep(old(Model()), uid) && r == uid
    {
      if uid in connections {
        connections := connections - {uid};
      }
      order := Without(order, uid);
      if uid in active {
        active := active - {uid};
      }
      r := uid;
    }

    method Activate(uid: Uid, delivered: bool) returns (err: Option<Failure>)
      modifies this, pages
      ensures var r := ActivateStep(old(Model()), uid, delivered);
        Model() == r.model && pages.sent == old(pages.sent) + r.out && err == r.err
    {
      if uid !in connections {
        return Some(KeyError(uid));
      }
      pages.SendText(connections[uid], "ACTIVATE", delivered);
      if !delivered {
        var _ := Disconnect(uid);
        return None;
      }
      active := active[uid := ""];
      err := None;
    }

    method Deactivate(uid: Uid, delivered: bool) returns (err: Option<Failure>)
      modifies this, pages
      ensures var r := DeactivateStep(old(Model()), uid, delivered);
        Model() == r.model && pages.sent == old(pages.sent) + r.out && err == r.err
    {
      err := None;
      if uid !in connections {
        err := Some(KeyError(uid));
      } else {
        pages.SendText(connections[uid], "DEACTIVATE", delivered);
        if !delivered {
          var _ := Disconnect(uid);
        }
      }
      // finally:
      if uid in active {
        active := active - {uid};
      }
    }

    method Update(uid: Uid, content: string, delivered: bool) returns (err: Option<Failure>)
      modifies this, pages
      ensures var r := UpdateStep(old(Model()), uid, content, delivered);
        Model() == r.model && pages.sent == old(pages.sent) + r.out && err == r.err
    {
      if uid !in connections {
        return Some(KeyError(uid));
      }
      pages.SendText(connections[uid], "UPDATE " + content, delivered);
      if !delivered {
        var _ := Disconnect(uid);
        return None;
      }
      active := active[uid := content];
      err := None;
    }

    method Append(uid: Uid, content: string, delivered: bool) returns (err: Option<Failure>)
      modifies this, pages
      ensures var r := AppendStep(old(Model()), uid, content, delivered);
        Model() == r.model && pages.sent == old(pages.sent) + r.out && err == r.err
    {
      if uid !in connections {
        return Some(KeyError(uid));
      }
      pages.SendText(connections[uid], "APPEND " + content, delivered);
      if !delivered {
        var _ := Disconnect(uid);
        return None;
      }
      if uid !in active {
        return Some(KeyError(uid));
      }
      active := active[uid := active[uid] + content];
      err := None;
    }

    method Clear(uid: Uid, delivered: bool) returns (err: Option<Failure>)
      modifies this, pages
      ensures var r := ClearStep(old(Model()), uid, delivered);
        Model() == r.model && pages.sent == old(pages.sent) + r.out && err == r.err
    {
      if uid !in connections {
        return Some(KeyError(uid));
      }
      pages.SendText(connections[uid], "CLEAR", delivered);
      if !delivered {
        var _ := Disconnect(uid);
        return None;
      }
      active := active[uid := ""];
      err := None;
    }
  }

  /** `dispatch_command` with a valid login, "CLEAR" corrected. */
  method Dispatch(manager: ConMan, command: string, uid: Uid, content: string, delivered: bool) returns (err: Option<Failure>)
    requires Inv(manager.Model())
    modifies manager, manager.pages
    ensures var r := DispatchIntended(old(manager.Model()), command, uid, content, delivered);
      manager.Model() == r.model && manager.pages.sent == old(manager.pages.sent) + r.out && err == r.err
  {
    if command == "ACTIVATE" {
      err := manager.Activate(uid, delivered);
    } else if command == "DEACTIVATE" {
      err := manager.Deactivate(uid, delivered);
    } else if command == "UPDATE" {
      err := manager.Update(uid, content, delivered);
    } else if command == "APPEND" {
      err := manager.Append(uid, content, delivered);
    } else if command == "CLEAR" {
      err := manager.Clear(uid, delivered);
    } else {
      err := None;
    }
  }
}
