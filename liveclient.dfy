/** One row of the control page, protected/liveclient.js: the `LiveClient` of a
    connected page, holding its last known `active` flag and `content`, and the DOM it
    owns (the list item, the toggle button, the text input), reduced to the fields
    the code sets. Button clicks and input events send a command to `/api/dispatch`
    and change the row only once that request has resolved. */
module LiveClient {
  type Uid = string

  /** What a click on the button does. */
  datatype Action = Activate | Deactivate

  /** The row's state: the fields, the input's value, the "active" class of the li,
      the input and the button, the button's action, whether the li is in the
      document, and how often it was removed. */
  datatype Row = Row(
    uid: Uid, active: bool, content: string,
    inputValue: string, liActive: bool, inputActive: bool, buttonActive: bool,
    onclick: Action, attached: bool, removals: nat)

  /** The row the constructor builds: the input shows the content, only the li gets
      the "active" class, and the button does the opposite of the flag. */
  function NewRow(uid: Uid, active: bool, content: string): (r: Row)
    ensures r.uid == uid && r.active == active && r.content == content
    ensures r.inputValue == content && r.liActive == active
    ensures !r.inputActive && !r.buttonActive && r.attached && r.removals == 0
    ensures r.onclick == (if active then Deactivate else Activate)
  {
    Row(uid, active, content, content, active, false, false,
        if active then Deactivate else Activate, true, 0)
  }

  /** `#activate` and `#deactivate`. */
  function ToggleRow(r: Row, active: bool): (s: Row)
    ensures Consistent(s) && s.active == active && s.inputActive == active
    ensures s.uid == r.uid && s.content == r.content && s.inputValue == r.inputValue
    ensures s.liActive == r.liActive && s.attached == r.attached && s.removals == r.removals
  {
    r.(inputActive := active, buttonActive := active,
       onclick := if active then Deactivate else Activate, active := active)
  }

  /** `#update`: the content is stored, but the input is rewritten only while the row
      is inactive. */
  function UpdateRow(r: Row, content: string): (s: Row)
    ensures s.content == content && s.inputValue == (if r.active then r.inputValue else content)
    ensures s.uid == r.uid && s.active == r.active && s.onclick == r.onclick
    ensures s.liActive == r.liActive && s.inputActive == r.inputActive && s.buttonActive == r.buttonActive
    ensures s.attached == r.attached && s.removals == r.removals
  {
    r.(content := content, inputValue := if r.active then r.inputValue else content)
  }

  /** `set(active, content)`: the flag first, then the content, each only if it
      differs. */
  function SetRow(r: Row, active: bool, content: string): (s: Row)
    ensures s.active == active && s.content == content
    ensures s.uid == r.uid && s.liActive == r.liActive && s.attached == r.attached && s.removals == r.removals
    ensures s.inputValue == (if active || content == r.content then r.inputValue else content)
  {
    var r1 := if r.active != active then ToggleRow(r, active) else r;
    if r1.content != content then UpdateRow(r1, content) else r1
  }

  /** The row after `disconnect`: its li removed once more, nothing else changed. */
  function Removed(r: Row): (s: Row)
    ensures !s.attached && s.removals == r.removals + 1
    ensures s.(attached := r.attached, removals := r.removals) == r
  {
    r.(attached := false, removals := r.removals + 1)
  }

  /** `set` with the values the row already has changes nothing. */
  lemma SetUnchanged(r: Row)
    ensures SetRow(r, r.active, r.content) == r
  {
  }

  /** Content that arrives together with an activation does not reach the input:
      the flag is applied first, and an active row keeps its input. */
  lemma ActivationKeepsInput(r: Row, content: string)
    requires !r.active
    ensures SetRow(r, true, content).inputValue == r.inputValue
    ensures SetRow(r, true, content).content == content
  {
  }

  /** The toggle stays consistent: after any activation or deactivation, the button
      does the opposite of the flag and both "active" classes follow it. */
  predicate Consistent(r: Row) {
    && r.onclick == (if r.active then Deactivate else Activate)
    && r.inputActive == r.buttonActive
  }

  /** Every operation keeps the toggle consistent; only the li's class is left as
      the constructor set it. */
  lemma OperationsKeepConsistent(r: Row, active: bool, content: string)
    requires Consistent(r)
    ensures Consistent(ToggleRow(r, active)) && Consistent(UpdateRow(r, content)) && Consistent(SetRow(r, active, content))
    ensures ToggleRow(r, active).inputActive == active
    ensures ToggleRow(r, active).liActive == r.liActive
  {
  }

  /** One POST to `/api/dispatch`, as its JSON body. */
  datatype Dispatch = Dispatch(uid: Uid, command: string, content: string)

  /** The requests the page made, in order. */
  class Api {
    var requests: seq<Dispatch>

    constructor ()
      ensures requests == []
    {
      requests := [];
    }
  }

  class LiveClient {
    const uid: Uid
    var active: bool
    var content: string
    var inputValue: string
    const liActive: bool
    var inputActive: bool
    var buttonActive: bool
    var onclick: Action
    var attached: bool
    var removals: nat
    const api: Api

    function Model(): Row
      reads this
    {
      Row(uid, active, content, inputValue, liActive, inputActive, buttonActive, onclick, attached, removals)
    }

    /** `new LiveClient(parent, uid, active, content)`. */
    constructor (api: Api, uid: Uid, active: bool, content: string)
      ensures Model() == NewRow(uid, active, content) && this.api == api
    {
      this.uid, this.active, this.content := uid, active, content;
      this.api := api;
      inputValue := content;
      liActive := active;
      inputActive, buttonActive := false, false;
      onclick := if active then Deactivate else Activate;
      attached, removals := true, 0;
    }

    /** `disconnect`: the li leaves the document; the fields stay as they are. */
    method Disconnect()
      modifies this
      ensures Model() == Removed(old(Model()))
    {
      attached := false;
      removals := removals + 1;
    }

    /** `#activate` (flag true) and `#deactivate` (flag false). */
    method Toggle(flag: bool)
      modifies this
      ensures Model() == ToggleRow(old(Model()), flag)
    {
      inputActive, buttonActive := flag, flag;
      onclick := if flag then Deactivate else Activate;
      active := flag;
    }

    /** `#update`. */
    method UpdateLocal(value: string)
      modifies this
      ensures Model() == UpdateRow(old(Model()), value)
    {
      content := value;
      if !active {
        inputValue := value;
      }
    }

    /** `activate` (flag true) and `deactivate` (flag false): the command is sent with
        empty content; the row changes only if the request resolved. */
    method Click(flag: bool, resolved: bool)
      modifies this, api
      ensures api.requests == old(api.requests) + [Dispatch(uid, if flag then "ACTIVATE" else "DEACTIVATE", "")]
      ensures Model() == if resolved then ToggleRow(old(Model()), flag) else old(Model())
    {
      api.requests := api.requests + [Dispatch(uid, if flag then "ACTIVATE" else "DEACTIVATE", "")];
      if resolved {
        Toggle(flag);
      }
    }

    /** `update(value)`, run on every input event. */
    method Update(value: string, resolved: bool)
      modifies this, api
      ensures api.requests == old(api.requests) + [Dispatch(uid, "UPDATE", value)]
      ensures Model() == if resolved then UpdateRow(old(Model()), value) else old(Model())
    {
      api.requests := api.requests + [Dispatch(uid, "UPDATE", value)];
      if resolved {
        UpdateLocal(value);
      }
    }

    /** `set(active, content)`. */
    method Set(a: bool, c: string)
      modifies this
      ensures Model() == SetRow(old(Model()), a, c)
    {
      if active != a {
        Toggle(a);
      }
      if content != c {
        UpdateLocal(c);
      }
    }
  }
}
