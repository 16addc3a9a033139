/** The command endpoints of backend/__init__.py around its `WSManager` (the class of
    the ServiceWsManager module): the `Command` body, the verb switch of
    `dispatch_command`, and the `/api/state` read. */
module BackendApi {
  import opened Common
  import opened ServiceWsManager

  /** The `Command` request body; `content` defaults to "". */
  datatype Command = Command(command: string, uid: Uid, content: string)

  function MakeCommand(command: string, uid: Uid, content: Option<string>): (r: Command)
    ensures r.command == command && r.uid == uid
    ensures r.content == if content.Some? then content.value else ""
  {
    Command(command, uid, if content.Some? then content.value else "")
  }

  /** The manager call a verb selects. */
  datatype Call = CallActivate | CallDeactivate | CallUpdate | NoCall

  /** The `match` of `dispatch_command`: exactly three verbs, compared case-sensitively;
      any other string selects nothing. */
  function Verb(command: string): (r: Call)
    ensures r == CallActivate <==> command == "ACTIVATE"
    ensures r == CallUpdate <==> command == "UPDATE"
    ensures r == CallDeactivate <==> command == "DEACTIVATE"
  {
    if command == "ACTIVATE" then CallActivate
    else if command == "UPDATE" then CallUpdate
    else if command == "DEACTIVATE" then CallDeactivate
    else NoCall
  }

  /** `dispatch_command` on the manager's state. */
  function DispatchStep(m: ManagerModel, c: Command, delivered: bool): (r: Step)
    ensures Verb(c.command) == NoCall ==> r == Step(m, [], None)
    ensures Verb(c.command) == CallActivate ==> r == SetFlagStep(m, c.uid, true, delivered)
    ensures Verb(c.command) == CallDeactivate ==> r == SetFlagStep(m, c.uid, false, delivered)
    ensures Verb(c.command) == CallUpdate ==> r == UpdateStep(m, c.uid, c.content, delivered)
    ensures KeysMatch(m) ==> KeysMatch(r.model)
  {
    match Verb(c.command)
    case CallActivate => SetFlagStep(m, c.uid, true, delivered)
    case CallUpdate => UpdateStep(m, c.uid, c.content, delivered)
    case CallDeactivate => SetFlagStep(m, c.uid, false, delivered)
    case NoCall => Step(m, [], None)
  }

  /** `/api/state`: the manager's `state` dict as it stands, one entry per connected
      page while the manager keeps its two dicts in step. */
  function ApiState(m: ManagerModel): (r: map<Uid, (bool, string)>)
    ensures KeysMatch(m) ==> r.Keys == m.connections.Keys
  {
    m.state
  }

  /** What `/api/state` shows after a dispatched command reached a filed page: the
      addressed uid's value as the verb says, every other uid's value untouched. */
  lemma {:induction false} StateShowsDispatch(m: ManagerModel, c: Command)
    requires KeysMatch(m) && c.uid in m.connections && Verb(c.command) != NoCall
    ensures var after := ApiState(DispatchStep(m, c, true).model);
      && after.Keys == ApiState(m).Keys
      && (forall u :: u in after && u != c.uid ==> after[u] == ApiState(m)[u])
      && (Verb(c.command) == CallActivate ==> after[c.uid] == (true, m.state[c.uid].1))
      && (Verb(c.command) == CallDeactivate ==> after[c.uid] == (false, m.state[c.uid].1))
      && (Verb(c.command) == CallUpdate ==> after[c.uid] == (m.state[c.uid].0, c.content))
  {
    match Verb(c.command)
    case CallActivate =>
      assert DispatchStep(m, c, true) == SetFlagStep(m, c.uid, true, true);
    case CallDeactivate =>
      assert DispatchStep(m, c, true) == SetFlagStep(m, c.uid, false, true);
    case CallUpdate =>
      assert DispatchStep(m, c, true) == UpdateStep(m, c.uid, c.content, true);
  }

  /** A body without `content` updates the page to the empty string. */
  lemma UpdateWithoutContentClears(m: ManagerModel, uid: Uid)
    requires KeysMatch(m) && uid in m.connections
    ensures var r := DispatchStep(m, MakeCommand("UPDATE", uid, None), true);
      r.model.state[uid].1 == "" && r.out == [TextSend(m.connections[uid], "UPDATE ")]
  {
    assert Verb("UPDATE") == CallUpdate;
    assert UpdateText("") == "UPDATE ";
  }

  /** `dispatch_command` on the manager object. */
  method Dispatch(manager: WSManager, c: Command, delivered: bool) returns (err: Option<Failure>)
    modifies manager, manager.pages
    ensures var r := DispatchStep(old(manager.Model()), c, delivered);
      manager.Model() == r.model && manager.pages.sent == old(manager.pages.sent) + r.out && err == r.err
  {
    match Verb(c.command) {
      case CallActivate =>
        err := manager.SetFlag(c.uid, true, delivered);
      case CallUpdate =>
        err := manager.Update(c.uid, c.content, delivered);
      case CallDeactivate =>
        err := manager.SetFlag(c.uid, false, delivered);
      case NoCall =>
        err := None;
    }
  }
}
