/** The public page's script, server/static/public/index.js: the `<main>` element
    shows either its original HTML or the content pushed over the `/client` socket,
    depending on the `activated` flag. Also the earlier script public/index.js,
    whose UPDATE branch assigns an undeclared name. */
module RewritePage {
  import opened Common
  import opened WsRewrite
  import ServiceWsManager

  /** `rewriteContent`: a string, or `undefined` once an UPDATE arrived without its
      optional group. */
  datatype Content = Text(text: string) | Undefined

  /** The `data` argument of `oncommand`: the captured group, or `undefined`. */
  function ContentOf(data: Option<string>): (c: Content)
    ensures c.Text? <==> data.Some?
    ensures data.Some? ==> c.text == data.value
  {
    match data
    case None => Undefined
    case Some(s) => Text(s)
  }

  /** What assigning a content to `innerHTML` leaves there: `undefined` becomes the
      text "undefined". */
  function Html(c: Content): (r: string)
    ensures r == "undefined" <==> c == Undefined || c == Text("undefined")
    ensures c.Text? ==> r == c.text
  {
    match c
    case Text(s) => s
    case Undefined => "undefined"
  }

  /** The script's variables and what `<main>` currently holds. */
  datatype Page = Page(activated: bool, rewriteContent: Content, originalContent: string, html: string)

  /** What `update()` writes into `<main>`. */
  function Display(p: Page): (r: string)
    ensures !p.activated ==> r == p.originalContent
    ensures r != p.originalContent ==> p.activated && r == Html(p.rewriteContent)
  {
    if p.activated then Html(p.rewriteContent) else p.originalContent
  }

  /** `<main>` shows what the variables say it should. */
  predicate Current(p: Page) {
    p.html == Display(p)
  }

  /** The page as the script starts it: inactive, empty rewrite content, `<main>`
      untouched. */
  function Initial(original: string): (p: Page)
    ensures Current(p) && !p.activated && p.html == original && p.originalContent == original
  {
    Page(false, Text(""), original, original)
  }

  /** `oncommand(command, data)`: ACTIVATE and DEACTIVATE set the flag, UPDATE stores
      the data, CONNECT and any other command change nothing; `update()` then
      re-renders in every case. */
  function CommandStep(p: Page, cmd: Parsed): (r: Page)
    ensures Current(r) && r.originalContent == p.originalContent
    ensures cmd.command !in {"ACTIVATE", "DEACTIVATE", "UPDATE"} ==> r == p.(html := Display(p))
  {
    var q :=
      if cmd.command == "ACTIVATE" then p.(activated := true)
      else if cmd.command == "DEACTIVATE" then p.(activated := false)
      else if cmd.command == "UPDATE" then p.(rewriteContent := ContentOf(cmd.data))
      else p;
    q.(html := Display(q))
  }

  /** `onclose`: the page falls back to its original HTML. */
  function CloseStep(p: Page): (r: Page)
    ensures Current(r) && !r.activated && r.html == p.originalContent
    ensures r.rewriteContent == p.rewriteContent && r.originalContent == p.originalContent
  {
    var q := p.(activated := false);
    q.(html := Display(q))
  }

  /** `onbeforeunload`: the flag is cleared but `update()` is not called, so `<main>`
      keeps showing whatever it showed. */
  function UnloadStep(p: Page): (r: Page)
    ensures !r.activated && r.html == p.html
    ensures r.rewriteContent == p.rewriteContent && r.originalContent == p.originalContent
    ensures p.activated && Html(p.rewriteContent) != p.originalContent && Current(p) ==> !Current(r)
  {
    p.(activated := false)
  }

  /** The page after a sequence of commands, the last one applied last. */
  function Run(p: Page, cmds: seq<Parsed>): Page
    decreases |cmds|
  {
    if cmds == [] then p else CommandStep(Run(p, cmds[..|cmds| - 1]), cmds[|cmds| - 1])
  }

  /** The data of the last UPDATE in `cmds`, or `dflt` if there is none. */
  function LastUpdate(cmds: seq<Parsed>, dflt: Content): Content
    decreases |cmds|
  {
    if cmds == [] then dflt
    else if cmds[|cmds| - 1].command == "UPDATE" then ContentOf(cmds[|cmds| - 1].data)
    else LastUpdate(cmds[..|cmds| - 1], dflt)
  }

  /** Whether the last ACTIVATE or DEACTIVATE in `cmds` was an ACTIVATE, or `dflt` if
      there is none. */
  function LastToggle(cmds: seq<Parsed>, dflt: bool): bool
    decreases |cmds|
  {
    if cmds == [] then dflt
    else if cmds[|cmds| - 1].command == "ACTIVATE" then true
    else if cmds[|cmds| - 1].command == "DEACTIVATE" then false
    else LastToggle(cmds[..|cmds| - 1], dflt)
  }

  /** After any commands, the page holds the last UPDATE's data and the last toggle's
      flag, and `<main>` shows them. Order among other commands does not matter. */
  lemma {:induction false} RunFollowsLastCommands(p: Page, cmds: seq<Parsed>)
    ensures var r := Run(p, cmds);
      && r.rewriteContent == LastUpdate(cmds, p.rewriteContent)
      && r.activated == LastToggle(cmds, p.activated)
      && r.originalContent == p.originalContent
      && (Current(p) || cmds != [] ==> Current(r))
    decreases |cmds|
  {
    if cmds != [] {
      RunFollowsLastCommands(p, cmds[..|cmds| - 1]);
    }
  }

  /** End to end: content the control sends with `send_update` (free of line
      terminators) is what an activated page shows once the frame is parsed. */
  lemma UpdateReachesPage(p: Page, content: string)
    requires NoLineTerminator(content)
    ensures var r := CommandStep(p, ParseCommand(ServiceWsManager.UpdateText(content)));
      r.rewriteContent == Text(content) && (r.activated ==> r.html == content)
  {
    UpdateFrameRoundTrip(content);
  }

  // ---------------------------------------------------------------------------
  // public/index.js, as written: its UPDATE branch assigns `content`, a name the
  // module never declares. Module scripts are strict, so the assignment throws a
  // ReferenceError before `update()` runs, and `rewriteContent` keeps its "".

  /** Whether `oncommand` throws on this command. */
  predicate ThrowsAsWritten(cmd: Parsed) {
    cmd.command == "UPDATE"
  }

  /** `oncommand` of public/index.js: an UPDATE throws and leaves everything as it
      was; every other command behaves as in the corrected script. */
  function CommandStepAsWritten(p: Page, cmd: Parsed): (r: Page)
    ensures ThrowsAsWritten(cmd) ==> r == p
    ensures !ThrowsAsWritten(cmd) ==> r == CommandStep(p, cmd)
  {
    if cmd.command == "UPDATE" then p else CommandStep(p, cmd)
  }

  function RunAsWritten(p: Page, cmds: seq<Parsed>): Page
    decreases |cmds|
  {
    if cmds == [] then p else CommandStepAsWritten(RunAsWritten(p, cmds[..|cmds| - 1]), cmds[|cmds| - 1])
  }

  /** The script as written never changes the rewrite content: an activated page
      shows the initial empty content, whatever was pushed. */
  lemma {:induction false} AsWrittenNeverRewrites(p: Page, cmds: seq<Parsed>)
    requires Current(p)
    ensures var r := RunAsWritten(p, cmds);
      && r.rewriteContent == p.rewriteContent
      && Current(r)
      && (r.activated ==> r.html == Html(p.rewriteContent))
    decreases |cmds|
  {
    if cmds != [] {
      AsWrittenNeverRewrites(p, cmds[..|cmds| - 1]);
    }
  }

  /** The frame the service's `activate` sends parses to a bare ACTIVATE. */
  lemma ActivateFrame()
    ensures ParseCommand(ServiceWsManager.ActivateText) == Parsed("ACTIVATE", None)
  {
    var verb := ServiceWsManager.ActivateText;
    assert AllLetters(verb) by {
      forall i | 0 <= i < |verb| ensures IsLetter(verb[i]) { }
    }
    BareVerbHasNoData(verb);
  }

  /** The input that shows it: UPDATE with some content, then ACTIVATE. The script as
      written shows an empty `<main>`; the corrected one shows the content. */
  lemma UpdateThenActivate(original: string, content: string)
    requires NoLineTerminator(content) && content != ""
    ensures var cmds := [ParseCommand(ServiceWsManager.UpdateText(content)), ParseCommand(ServiceWsManager.ActivateText)];
      && RunAsWritten(Initial(original), cmds).html == ""
      && Run(Initial(original), cmds).html == content
  {
    var cmds := [ParseCommand(ServiceWsManager.UpdateText(content)), ParseCommand(ServiceWsManager.ActivateText)];
    UpdateFrameRoundTrip(content);
    ActivateFrame();
    assert cmds[..1][..0] == [];
    AsWrittenNeverRewrites(Initial(original), cmds);
  }

  // ---------------------------------------------------------------------------
  // The running script.

  /** The page's module-level state, `<main>` and the socket wrapper it owns. */
  class RewritePage {
    var activated: bool
    var rewriteContent: Content
    const originalContent: string
    var html: string
    const rewrite: WSRewrite

    function Model(): Page
      reads this
    {
      Page(activated, rewriteContent, originalContent, html)
    }

    /** The script's top level: the state is set up, the wrapper is built for
        "/client" and connected on `socket`. */
    constructor (loc: Location, original: string, socket: nat)
      ensures Model() == Initial(original)
      ensures rewrite.url == MakeUrlFromPath(loc, "/client") && rewrite.ws == Some(socket) && rewrite.closed == []
      ensures fresh(rewrite) && fresh(rewrite.handler)
    {
      var handler := new Handler();
      var w := new WSRewrite(loc, "/client", handler);
      w.Connect(socket);
      activated, rewriteContent, originalContent, html := false, Text(""), original, original;
      rewrite := w;
    }

    /** `oncommand`. */
    method OnCommand(cmd: Parsed)
      modifies this
      ensures Model() == CommandStep(old(Model()), cmd)
    {
      if cmd.command == "ACTIVATE" {
        activated := true;
      } else if cmd.command == "DEACTIVATE" {
        activated := false;
      } else if cmd.command == "UPDATE" {
        rewriteContent := ContentOf(cmd.data);
      }
      html := if activated then Html(rewriteContent) else originalContent;
    }

    /** A text frame arriving on the socket: parsed by the wrapper, then handled. */
    method Receive(data: string)
      requires rewrite.ws.Some?
      modifies this, rewrite.handler
      ensures Model() == CommandStep(old(Model()), ParseCommand(data))
      ensures rewrite.handler.commands == old(rewrite.handler.commands) + [ParseCommand(data)]
    {
      rewrite.OnMessage(data);
      OnCommand(ParseCommand(data));
    }

    /** `onclose`. */
    method OnClose()
      modifies this
      ensures Model() == CloseStep(old(Model()))
    {
      activated := false;
      html := originalContent;
    }

    /** `onbeforeunload`: the socket is closed, then the flag cleared; when `disconnect`
        throws (no socket), the handler stops before clearing the flag. */
    method BeforeUnload() returns (err: Option<JsError>)
      modifies this, rewrite
      ensures err.None? ==> Model() == UnloadStep(old(Model()))
      ensures err.Some? ==> Model() == old(Model())
      ensures err.None? <==> old(rewrite.ws).Some?
      ensures old(rewrite.ws).Some? ==> rewrite.closed == old(rewrite.closed) + [old(rewrite.ws).value]
    {
      err := rewrite.Disconnect();
      if err.None? {
        activated := false;
      }
    }
  }
}
