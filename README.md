# Live page rewriting: a Dafny model

The site lets an operator take over a public page while a visitor has it open. The
visitor's page opens a WebSocket. The operator's control page lists the open
connections and can switch a page into "rewritten" mode (ACTIVATE / DEACTIVATE) and
push new content into it (UPDATE). The repository holds several revisions of this
machinery. All of them are modelled here:

- `server/wsmanager.py`: the latest server.
  - A `WSManager` files connections and routes each command envelope to a named
    handler by its `"handler"` key.
  - The "rewrite" feature keeps a `RewriteState` with a `RewriteClientApp` and a
    `RewriteControllerApp`.
  - The "chat" feature keeps a `ChatState` of `ChatClientState` observers with a
    `ChatClientApp` and a `ChatControllerApp`.
  - Modules `WsEvents`, `ServerWsManager`, `Rewrite` and `Chat`.
- `service/wsmanager.py` and its identical copy in `backend/__init__.py`: the
  text-protocol manager, which sends "CONNECT", "ACTIVATE", "DEACTIVATE" and
  "UPDATE <content>" frames and forgets a page whose send fails (module
  `ServiceWsManager`). `backend/__init__.py` adds `/api/state` and
  `/api/dispatch` on top (module `BackendApi`).
- `backend.py`: the oldest `ConMan`, with APPEND and CLEAR and the connection listing
  (module `BackendConMan`).
- The browser side of the text protocol:
  - `parseCommand`, `makeUrlFromPath` and `WSRewrite`, which appear with the same
    logic in `public/src/lib/WSRewrite.ts`, `static/public/wsrewrite.js` and
    `static/protected/index.js` (module `WsRewrite`): the TypeScript copy adds type
    annotations and `export default`, and the copy in `static/protected/index.js`
    defines the class without exporting it. The port default of
    `makeUrlFromPath` is recorded under "## Findings"; the wrappers and the page
    scripts in this model build their URLs with the corrected default;
  - the public page script, in its current (`server/static/public/index.js`) and
    earlier (`public/index.js`) form (module `RewritePage`);
  - the control page's `refresh` and `apiFetch` (module `ControlPage`);
  - its per-connection `LiveClient` row (module `LiveClient`).
- Static files:
  - the lexical containment check and the response cache of `server/staticfiles.py`
    (module `ServerStaticFiles`);
  - `_resolve_static_path` of `service/staticfiles.py` (module
    `ServiceStaticFiles`);
  - the part of `pathlib.PurePosixPath` both rely on (module `Paths`).
- The GitHub webhook gate of `server/webhook.py` (module `Webhook`).

Every object whose fields the source updates in place is a class. Its state is read
back as a datatype value by `Model()`, and each of its methods is proved to perform a
pure step function on that value (`Model() == XStep(old(Model()), …)`). The step
functions carry the contracts: the new state, the events sent and their order, and
the exception raised. Lemmas beside them prove what the registry promises across
operations. Sends are recorded on a `Network` (or `Pages`) log in call order.

Some values the environment decides are parameters:

- whether a `send_text` succeeded;
- the fresh `uuid4()`;
- `datetime.now(UTC)`;
- the HMAC hex digest;
- `mimetypes.guess_type`;
- the filesystem;
- `window.location`;
- whether a `fetch` resolved.

## Model

| member | source | states |
|---|---|---|
| ServerWsManager.ChooseUid | server/wsmanager.py:36 | the caller's uid is kept when given, otherwise the fresh one is used |
| ServerWsManager.Route | server/wsmanager.py:50-52 | a message is routed iff it is a dict whose "handler" is a string; the handler gets that name and every other field unchanged |
| ServerWsManager.ConnectCalls | server/wsmanager.py:39-41 | one connect call per registered handler, in registration order, each with the uid and that connection's send |
| ServerWsManager.DisconnectCalls | server/wsmanager.py:59-61 | one disconnect call per registered handler, in registration order |
| ServerWsManager.GatherAsWritten | server/wsmanager.py:39-41 | under Python 3.11, `asyncio.gather` handed a generator raises iff there is at least one handler |
| ServerWsManager.ConnectAsWritten | server/wsmanager.py:34-42 | as written, the connection is filed but no handler is called, and the call raises whenever a handler exists |
| ServerWsManager.DisconnectAsWritten | server/wsmanager.py:58-62 | as written under Python 3.11, with handlers the call raises before `del`, so nothing changes; without handlers an unknown uid raises KeyError |
| ServerWsManager.ConnectionLeaksAsWritten | server/wsmanager.py:34-62 | with any handler registered, connect and then disconnect both raise, the connection stays filed forever and no handler ever ran |
| ServerWsManager.ConnectStep | server/wsmanager.py:34-42 | corrected connect: files the socket under the uid and calls every handler's connect once, in order, without raising |
| ServerWsManager.DisconnectStep | server/wsmanager.py:58-62 | corrected disconnect: every handler's disconnect runs; then an unknown uid raises KeyError and leaves the connections as they were, a known one is removed |
| ServerWsManager.MessageStep | server/wsmanager.py:44-56 | an unroutable message does nothing, an unknown handler name raises KeyError, a known one gets exactly one call with the remaining fields; the connections never change |
| ServerWsManager.RouteStripsOnlyHandler | server/wsmanager.py:51-52 | the handler receives the message minus its "handler" key and nothing else is lost |
| ServerWsManager.ConnectThenDisconnect | server/wsmanager.py:34-62 | a connect and then a disconnect of the same uid leave the connections as before (minus the uid) and call each handler's connect then disconnect |
| ServerWsManager.DisconnectTwiceRaises | server/wsmanager.py:58-62 | disconnecting a uid twice: the first call succeeds, the second raises KeyError and changes no connection |
| ServerWsManager.Handlers.constructor | server/wsmanager.py:25-27 | the registry starts with the given handler names and no calls |
| ServerWsManager.WSManager.constructor | server/wsmanager.py:25-27 | the manager starts with no connections |
| ServerWsManager.WSManager.Connect | server/wsmanager.py:34-42 | returns the chosen uid and performs ConnectStep on the manager and its handlers |
| ServerWsManager.WSManager.Disconnect | server/wsmanager.py:58-62 | performs DisconnectStep and returns its exception |
| ServerWsManager.WSManager.HandleMessage | server/wsmanager.py:44-56 | performs MessageStep for one decoded message and returns its exception |
| Common.WithoutDeletesInPlace | server/wsmanager.py:100 | deleting a dict key keeps the insertion order of the rest: the one occurrence is cut out in place |
| WsEvents.MissingKey | server/wsmanager.py:270-275 | a dict lookup with a JSON key that is not a string uid raises TypeError for an unhashable key and KeyError carrying the key otherwise |
| WsEvents.Network.Send | server/wsmanager.py:87-88 | one send callback call appends exactly that delivery to the log |
| Rewrite.Fanout | server/wsmanager.py:87-88 | the controller loop delivers the event once to each registered controller, in registration order |
| Rewrite.FanoutReaches | server/wsmanager.py:87-88 | every registered controller is among the recipients |
| Rewrite.ConnectClientStep | server/wsmanager.py:77-88 | a fresh inactive entry with empty content replaces any previous one, other clients are untouched, and the client and then every controller get the same "connect" event |
| Rewrite.DisconnectClientStep | server/wsmanager.py:90-94 | an unknown uid raises KeyError before any change or send; otherwise only that entry goes and only the controllers are told |
| Rewrite.ConnectControllerStep | server/wsmanager.py:96-97 | the controller is registered or re-registered in its old place; clients untouched, nothing sent |
| Rewrite.DisconnectControllerStep | server/wsmanager.py:99-100 | an unknown uid raises KeyError and changes nothing; otherwise exactly that controller is removed and the others keep their registration order (Without) |
| Rewrite.DisconnectKeepsControllerOrder | server/wsmanager.py:99-100 | disconnecting the controller at position k cuts out that one position of the fan-out order |
| Rewrite.FlagStep | server/wsmanager.py:102-114 | an unknown uid raises KeyError with no effect; otherwise only that client's flag changes, and the client then each controller receive one activate/deactivate event |
| Rewrite.UpdateStep | server/wsmanager.py:116-126 | an unknown uid raises KeyError with no effect; otherwise only that client's content changes, and the client then each controller receive the new content |
| Rewrite.RunOp | server/wsmanager.py:77-126 | no client operation adds or removes a controller, and each keeps the registry well formed |
| Rewrite.ControllersSeeEveryChange | server/wsmanager.py:77-126 | every successful client operation hands its event to the send callback of every registered controller; a failed one changes nothing and sends nothing |
| Rewrite.MirrorFollowsStep | server/wsmanager.py:77-126 | applying a successful operation's event to an exact mirror of the clients' flags and contents gives an exact mirror of the new state |
| Rewrite.RunAll | server/wsmanager.py:77-126 | a run of client operations keeps the registry well formed and its controllers unchanged |
| Rewrite.ControllerMirrorStaysExact | server/wsmanager.py:77-126 | a controller that applies every event it receives keeps an exact mirror of all clients over any sequence of operations |
| Rewrite.DisconnectTwiceRaises | server/wsmanager.py:90-94 | disconnect is not idempotent: the second call raises KeyError, changes nothing and sends nothing |
| Rewrite.ControllerCommand | server/wsmanager.py:149-156 | as written, the match selects activate/deactivate of the "uid" client, but an "update" is addressed to the sending controller's own uid |
| Rewrite.ControllerCommandIntended | server/wsmanager.py:149-156 | corrected: an "update" targets the client named by "uid" with the given content; every other case is as written |
| Rewrite.UpdateAddressesSender | server/wsmanager.py:155-156 | concrete input: controller "c" updating client "x" is sent to "c" as written and to "x" as intended |
| Rewrite.CommandStep | server/wsmanager.py:149-156 | an unmatched message does nothing; a command succeeds iff its target is a registered string uid, a failing one changes nothing, and one with a string target performs FlagStep/UpdateStep on it |
| Rewrite.RewriteState.constructor | server/wsmanager.py:72-75 | the registry starts with no clients and no controllers |
| Rewrite.RewriteState.NotifyControllers | server/wsmanager.py:87-88 | sends the event to every controller in order, as Fanout |
| Rewrite.RewriteState.ConnectClient | server/wsmanager.py:77-88 | performs ConnectClientStep on the fields and the send log |
| Rewrite.RewriteState.DisconnectClient | server/wsmanager.py:90-94 | performs DisconnectClientStep and returns its exception |
| Rewrite.RewriteState.ConnectController | server/wsmanager.py:96-97 | performs ConnectControllerStep |
| Rewrite.RewriteState.DisconnectController | server/wsmanager.py:99-100 | performs DisconnectControllerStep and returns its exception |
| Rewrite.RewriteState.SetFlag | server/wsmanager.py:102-114 | performs FlagStep on the fields and the send log |
| Rewrite.RewriteState.Update | server/wsmanager.py:116-126 | performs UpdateStep on the fields and the send log |
| Rewrite.RewriteClientApp.constructor | server/wsmanager.py:129-131 | the app wraps the shared state |
| Rewrite.RewriteClientApp.Connect | server/wsmanager.py:133-134 | registers the connection as a client (ConnectClientStep) |
| Rewrite.RewriteClientApp.Message | server/wsmanager.py:136 | a client's message changes nothing and sends nothing |
| Rewrite.RewriteClientApp.Disconnect | server/wsmanager.py:138-139 | removes the client (DisconnectClientStep) |
| Rewrite.RewriteControllerApp.constructor | server/wsmanager.py:142-144 | the app wraps the shared state |
| Rewrite.RewriteControllerApp.Connect | server/wsmanager.py:146-147 | registers the connection as a controller |
| Rewrite.RewriteControllerApp.Message | server/wsmanager.py:149-156 | carries out the corrected command (CommandStep of ControllerCommandIntended) |
| Rewrite.RewriteControllerApp.Disconnect | server/wsmanager.py:158-159 | removes the controller |
| Chat.Reach | server/wsmanager.py:188-190 | one subscriber call delivers the event once to its own channel, or once to every controller for the controller fan-out |
| Chat.ReachIff | server/wsmanager.py:225-227 | a subscriber call hands the event to a channel's send callback iff it is that channel's callback, or the fan-out and the channel is a controller's |
| Chat.NotifyOut | server/wsmanager.py:188-190 | `notify` delivers only the given event |
| Chat.NotifyReaches | server/wsmanager.py:188-190 | `notify` hands the event to a channel's send callback iff that channel's callback subscribed, or the fan-out subscribed and it is a controller's |
| Chat.ListenStep | server/wsmanager.py:176-186 | the subscriber set gains exactly the new subscriber (a repeat changes nothing), only the set changes, and only snapshots of the client are sent |
| Chat.ListenReachesOnlyNewSubscriber | server/wsmanager.py:176-186 | the snapshot is handed to a channel's send callback iff the new subscriber is that channel's, or the fan-out and the channel is a controller's |
| Chat.FlagClientStep | server/wsmanager.py:192-198 | only the flag changes, and every subscriber is notified of it |
| Chat.MessageClientStep | server/wsmanager.py:200-210 | exactly one message with the author, content and time is appended after the unchanged earlier ones, and every subscriber is told |
| Chat.FanChannels | server/wsmanager.py:225-227 | there is one fan-out channel per registered controller |
| Chat.FanChannelsAreControllers | server/wsmanager.py:225-227 | every registered controller's callback is in the fan-out |
| Chat.Views | server/wsmanager.py:218-220 | the controller's snapshot lists every client with its flag and messages |
| Chat.ConnectControllerStep | server/wsmanager.py:218-220 | the new controller alone gets one snapshot of every client's flag and messages (`Views` of the clients), then is registered; clients untouched |
| Chat.DisconnectControllerStep | server/wsmanager.py:222-223 | an unknown uid raises KeyError with no effect; otherwise exactly that controller goes and the others keep their registration order (Without) |
| Chat.DisconnectKeepsControllerOrder | server/wsmanager.py:222-223 | disconnecting the controller at position k cuts out that one position of the fan-out order |
| Chat.RegistryClient | server/wsmanager.py:229-232 | the new client has its own channel then the fan-out as subscribers, and each is handed the empty snapshot, its own channel first |
| Chat.ConnectClientStep | server/wsmanager.py:229-232 | a fresh client replaces any entry, other clients and the controllers are untouched, and the client then each controller get the empty snapshot |
| Chat.DisconnectClientStep | server/wsmanager.py:234-238 | an unknown uid raises KeyError with no effect; otherwise only that client goes and its own subscribers are told |
| Chat.ClientAppConnectStep | server/wsmanager.py:245-247 | the client app subscribes only the connection itself, which alone gets the empty snapshot |
| Chat.FlagStep | server/wsmanager.py:270-273 | a key that is not a registered uid raises with no effect; otherwise only that client's flag changes and its subscribers are told |
| Chat.MessageStep | server/wsmanager.py:274-275 | a key that is not a registered uid raises with no effect; otherwise exactly one message is appended to that client alone and its subscribers are told |
| Chat.ClientCommand | server/wsmanager.py:249-252 | a client dict is a message iff its "command" is "message" and it has "content" |
| Chat.ControllerCommand | server/wsmanager.py:268-275 | each case of the controller match is selected iff its keys and command string are present |
| Chat.ClientMessageStep | server/wsmanager.py:249-252 | a client's message is written to its own entry with itself as author; anything else does nothing |
| Chat.ControllerMessageStep | server/wsmanager.py:268-275 | activate/deactivate perform FlagStep on the named client, a message performs MessageStep with the controller as author; unmatched dicts and failures change nothing |
| Chat.ConnectClientReachesControllers | server/wsmanager.py:229-232 | every registered controller receives the new client's snapshot |
| Chat.ClientAppMessagesStayPrivate | server/wsmanager.py:245-252 | a client connected through the client app is invisible to controllers: its own messages are handed only to its own connection's send callback |
| Chat.DisconnectTwiceRaises | server/wsmanager.py:234-238 | the second disconnect raises KeyError and has no effect |
| Chat.TwoMessagesInOrder | server/wsmanager.py:200-210 | two messages to one client are kept after the earlier ones, in the order sent |
| Chat.ChatClientState.constructor | server/wsmanager.py:169-174 | a new client is inactive, with no messages and no subscribers |
| Chat.ChatClientState.Call | server/wsmanager.py:188-190 | calling one subscriber sends what Reach says |
| Chat.ChatClientState.Listen | server/wsmanager.py:176-186 | performs ListenStep |
| Chat.ChatClientState.Notify | server/wsmanager.py:188-190 | calls every subscriber in order, sending NotifyOut |
| Chat.ChatClientState.SetFlag | server/wsmanager.py:192-198 | performs FlagClientStep |
| Chat.ChatClientState.AddMessage | server/wsmanager.py:200-210 | performs MessageClientStep |
| Chat.ChatState.constructor | server/wsmanager.py:213-216 | the registry starts empty |
| Chat.ChatState.ConnectController | server/wsmanager.py:218-220 | performs ConnectControllerStep |
| Chat.ChatState.DisconnectController | server/wsmanager.py:222-223 | performs DisconnectControllerStep |
| Chat.ChatState.ConnectClient | server/wsmanager.py:229-232 | performs ConnectClientStep with a freshly allocated client object |
| Chat.ChatState.DisconnectClient | server/wsmanager.py:234-238 | performs DisconnectClientStep |
| Chat.ChatState.FlagClient | server/wsmanager.py:270-273 | performs FlagStep on the client object named by the key |
| Chat.ChatState.MessageClient | server/wsmanager.py:274-275 | performs MessageStep on the client object named by the key |
| Chat.ChatClientApp.constructor | server/wsmanager.py:241-243 | the app wraps the shared state |
| Chat.ChatClientApp.Connect | server/wsmanager.py:245-247 | performs ClientAppConnectStep |
| Chat.ChatClientApp.Message | server/wsmanager.py:249-252 | performs ClientMessageStep |
| Chat.ChatClientApp.Disconnect | server/wsmanager.py:254-258 | performs DisconnectClientStep |
| Chat.ChatControllerApp.constructor | server/wsmanager.py:261-263 | the app wraps the shared state |
| Chat.ChatControllerApp.Connect | server/wsmanager.py:265-266 | performs ConnectControllerStep |
| Chat.ChatControllerApp.Message | server/wsmanager.py:268-275 | performs ControllerMessageStep |
| Chat.ChatControllerApp.Disconnect | server/wsmanager.py:277-278 | performs DisconnectControllerStep |
| ServiceWsManager.UpdateText | service/wsmanager.py:51 | the frame is "UPDATE " followed by the content itself |
| ServiceWsManager.ConnectStep | service/wsmanager.py:12-22 | a page is filed, inactive and empty, iff its "CONNECT" frame was delivered; otherwise nothing changes |
| ServiceWsManager.DisconnectStep | service/wsmanager.py:24-29 | the uid leaves both dicts if filed; an unknown uid changes nothing; a uid filed in `connections` but not in `state` leaves `connections` and raises KeyError, which never happens while the dicts match |
| ServiceWsManager.DisconnectIdempotent | service/wsmanager.py:24-29 | disconnecting twice is the same as once, and the second call never raises |
| ServiceWsManager.SetFlagStep | service/wsmanager.py:31-47 | an unknown uid is NotFound with no effect; a failed send performs DisconnectStep (forgetting the page); a delivered frame sets the flag and keeps the content |
| ServiceWsManager.UpdateStep | service/wsmanager.py:49-56 | an unknown uid is NotFound with no effect; a failed send performs DisconnectStep (forgetting the page); a delivered frame stores the content and keeps the flag |
| ServiceWsManager.FailedSendForgetsPage | service/wsmanager.py:49-56 | after a failed UPDATE send the page is gone from both dicts and the call does not raise |
| ServiceWsManager.ActivateThenUpdate | service/wsmanager.py:31-56 | ACTIVATE then UPDATE leaves the page active with the content, the two frames sent in that order |
| ServiceWsManager.Pages.SendText | service/wsmanager.py:33 | a delivered frame is logged once; a failed one is not |
| ServiceWsManager.WSManager.constructor | service/wsmanager.py:8-10 | the manager starts with no pages |
| ServiceWsManager.WSManager.Connect | service/wsmanager.py:12-22 | performs ConnectStep |
| ServiceWsManager.WSManager.Disconnect | service/wsmanager.py:24-29 | performs DisconnectStep, returning the uid or its KeyError |
| ServiceWsManager.WSManager.SetFlag | service/wsmanager.py:31-47 | performs SetFlagStep |
| ServiceWsManager.WSManager.Update | service/wsmanager.py:49-56 | performs UpdateStep |
| BackendApi.MakeCommand | backend/__init__.py:123-126 | a command keeps its verb and uid; missing content becomes "" |
| BackendApi.Verb | backend/__init__.py:136-142 | exactly the three verbs ACTIVATE, UPDATE, DEACTIVATE select a manager call |
| BackendApi.DispatchStep | backend/__init__.py:129-142 | each verb performs its manager step; any other verb does nothing |
| BackendApi.ApiState | backend/__init__.py:118-120 | `/api/state` lists exactly the connected pages while the manager keeps its dicts in step |
| BackendApi.StateShowsDispatch | backend/__init__.py:118-142 | after a delivered command, `/api/state` differs from before only at the target, which shows the new flag or content |
| BackendApi.UpdateWithoutContentClears | backend/__init__.py:123-142 | an UPDATE without content clears the page and sends the bare "UPDATE " frame |
| BackendApi.Dispatch | backend/__init__.py:129-142 | performs DispatchStep on the manager |
| BackendConMan.ConnectStep | backend.py:26-35 | a page is filed iff its "CONNECT" frame was delivered, and only in `connections`; a new uid is listed last and the others keep their places |
| BackendConMan.DisconnectStep | backend.py:37-43 | the uid leaves both dicts, the others keep their filing order (Without), and it never raises |
| BackendConMan.FilingOrderKept | backend.py:31-39 | a newly filed page is listed last, and disconnecting the page at position k cuts out that one position |
| BackendConMan.DisconnectIdempotent | backend.py:37-43 | disconnecting twice is the same as once |
| BackendConMan.ActivateStep | backend.py:45-51 | an unfiled uid raises KeyError with no effect; a failed send forgets the page; otherwise the page becomes active with empty content |
| BackendConMan.DeactivateStep | backend.py:53-61 | the uid is never active afterwards, even when the lookup raised KeyError; a delivered frame keeps the page filed |
| BackendConMan.UpdateStep | backend.py:63-68 | a delivered UPDATE makes the page active with exactly that content |
| BackendConMan.AppendStep | backend.py:70-75 | a delivered APPEND extends the active content, and raises KeyError after sending when the page was not active |
| BackendConMan.ClearStep | backend.py:77-82 | a delivered CLEAR leaves the page active with empty content |
| BackendConMan.UpdateThenAppend | backend.py:63-75 | UPDATE a then APPEND b leaves a + b |
| BackendConMan.ActivateResetsContent | backend.py:45-51 | activating an active page discards its content |
| BackendConMan.Listing | backend.py:191-199 | unauthenticated callers get nothing; otherwise record i is the i-th filed page (filing order), marked active iff it is, with its content or "" |
| BackendConMan.ListingListsEachOnce | backend.py:196-199 | every filed page appears in the listing exactly once |
| BackendConMan.DispatchAsWritten | backend.py:202-219 | as written, "CLEAR" raises TypeError with no effect; every other verb behaves as intended |
| BackendConMan.DispatchIntended | backend.py:202-219 | each of the five verbs performs its step; any other verb does nothing |
| BackendConMan.ClearRaisesTypeError | backend.py:218-219 | concrete input: CLEAR on an active page with content "x" raises as written and clears it as intended |
| BackendConMan.ConMan.constructor | backend.py:21-24 | the manager starts with no pages |
| BackendConMan.ConMan.Connect | backend.py:26-35 | performs ConnectStep |
| BackendConMan.ConMan.Disconnect | backend.py:37-43 | performs DisconnectStep |
| BackendConMan.ConMan.Activate | backend.py:45-51 | performs ActivateStep |
| BackendConMan.ConMan.Deactivate | backend.py:53-61 | performs DeactivateStep |
| BackendConMan.ConMan.Update | backend.py:63-68 | performs UpdateStep |
| BackendConMan.ConMan.Append | backend.py:70-75 | performs AppendStep |
| BackendConMan.ConMan.Clear | backend.py:77-82 | performs ClearStep |
| BackendConMan.Dispatch | backend.py:202-219 | performs the corrected dispatch on the manager |
| WsRewrite.LetterRun | public/src/lib/WSRewrite.ts:11 | the command group is the longest all-letter prefix |
| WsRewrite.LineRun | public/src/lib/WSRewrite.ts:11 | the data group is the longest prefix free of line terminators |
| WsRewrite.ParseCommand | public/src/lib/WSRewrite.ts:10-13 | the result satisfies the regular expression's match on every input |
| WsRewrite.MatchesPattern | public/src/lib/WSRewrite.ts:11 | the match of `^([A-Za-z]*)( (.*))?` stated without computing it; whatever it captures is an anchored prefix of the source |
| WsRewrite.PatternMatchIsUnique | public/src/lib/WSRewrite.ts:10-13 | a reading satisfies the pattern iff it is ParseCommand's |
| WsRewrite.LetterRunIsMaximal | public/src/lib/WSRewrite.ts:11 | any maximal all-letter prefix has LetterRun's length |
| WsRewrite.LineRunIsMaximal | public/src/lib/WSRewrite.ts:11 | any maximal terminator-free prefix has LineRun's length |
| WsRewrite.UpdateFrameRoundTrip | public/src/lib/WSRewrite.ts:10-13 | the server's UPDATE frame of terminator-free content parses back to UPDATE with that content |
| WsRewrite.UpdateFrameTruncated | public/src/lib/WSRewrite.ts:11-12 | content with a line break arrives cut at the first one |
| WsRewrite.BareVerbHasNoData | public/src/lib/WSRewrite.ts:11-12 | a bare verb parses to itself with no data |
| WsRewrite.MakeUrlAsWritten | public/src/lib/WSRewrite.ts:1-8 | as written, wss iff https, same host and path; the port is left out iff it is "442" for https or "80" for http |
| WsRewrite.AsWrittenPortIff | public/src/lib/WSRewrite.ts:4-6 | as written, the socket reaches the page's own port iff the page is not https on port 442 |
| WsRewrite.MakeUrlIntended | public/src/lib/WSRewrite.ts:1-8 | corrected: same scheme, host and path as the page; the port part is what IntendedKeepsPagePort states |
| WsRewrite.IntendedKeepsPagePort | public/src/lib/WSRewrite.ts:4-6 | corrected, the socket always reaches the page's own port |
| WsRewrite.Render | public/src/lib/WSRewrite.ts:7 | the URL starts with the scheme and host and ends with the path |
| WsRewrite.MakeUrlFromPath | public/src/lib/WSRewrite.ts:1-8 | corrected (443 default): the URL starts with "wss://" on https, else "ws://", then the page's hostname, and ends with the path |
| WsRewrite.Handler.constructor | static/public/wsrewrite.js:15-23 | the handler has received no calls |
| WsRewrite.WSRewrite.constructor | static/public/wsrewrite.js:20-23 | only the URL is computed (corrected: with the 443 default of MakeUrlIntended); there is no socket yet |
| WsRewrite.WSRewrite.Connect | static/public/wsrewrite.js:25-34 | the new socket replaces the field and no earlier socket is closed |
| WsRewrite.WSRewrite.OnMessage | static/public/wsrewrite.js:30-33 | each frame causes exactly one `oncommand` call with its parsed text, and nothing else |
| WsRewrite.WSRewrite.OnClose | static/public/wsrewrite.js:29 | a close reaches the handler's `onclose` once |
| WsRewrite.WSRewrite.OnError | static/public/wsrewrite.js:28 | an error reaches the handler's `onerror` once |
| WsRewrite.WSRewrite.Disconnect | static/public/wsrewrite.js:36-38 | closes the current socket; before any connect it throws TypeError and closes nothing |
| RewritePage.ContentOf | server/static/public/index.js:13 | the data is the captured text when present and `undefined` otherwise |
| RewritePage.Html | server/static/public/index.js:9 | `innerHTML` shows the text itself, and "undefined" exactly for `undefined` or that very text |
| RewritePage.Display | server/static/public/index.js:8-10 | `update()` shows the original HTML unless activated; anything else shown is the rewrite content |
| RewritePage.Initial | server/static/public/index.js:3-6 | the page starts inactive, showing its original HTML |
| RewritePage.CommandStep | server/static/public/index.js:13-28 | after any command `<main>` shows what the flag selects; unknown commands change only the display |
| RewritePage.CloseStep | server/static/public/index.js:29-32 | a closed socket makes the page show its original HTML again |
| RewritePage.UnloadStep | server/static/public/index.js:39-42 | unloading clears the flag without re-rendering, keeping both contents, so a rewritten `<main>` is left out of step |
| RewritePage.RunFollowsLastCommands | server/static/public/index.js:13-28 | after any commands the page holds the last UPDATE's data and the last toggle, and shows them |
| RewritePage.UpdateReachesPage | server/static/public/index.js:20-22 | content sent by the server's update reaches the page and is shown while active |
| RewritePage.CommandStepAsWritten | public/index.js:14-29 | as written, UPDATE throws and changes nothing; other commands behave as corrected |
| RewritePage.AsWrittenNeverRewrites | public/index.js:14-29 | as written, no sequence of commands ever changes the rewrite content |
| RewritePage.ActivateFrame | service/wsmanager.py:33 | the server's ACTIVATE frame parses to a bare ACTIVATE |
| RewritePage.UpdateThenActivate | public/index.js:21-22 | concrete input: UPDATE then ACTIVATE shows "" as written and the content as corrected |
| RewritePage.RewritePage.constructor | server/static/public/index.js:1-12 | the script starts in the Initial state with a connected socket to "/client" (URL built with the corrected 443 default of MakeUrlIntended) |
| RewritePage.RewritePage.OnCommand | server/static/public/index.js:13-28 | performs CommandStep |
| RewritePage.RewritePage.Receive | server/static/public/index.js:12-28 | a frame is parsed and handled as CommandStep of its parse |
| RewritePage.RewritePage.OnClose | server/static/public/index.js:29-32 | performs CloseStep |
| RewritePage.RewritePage.BeforeUnload | server/static/public/index.js:39-42 | closes the socket, then performs UnloadStep; with no socket, `disconnect` throws and nothing changes |
| ControlPage.ApiFetch | static/protected/index.js:33-40 | a 401 triggers one auth refresh and one retry; a failed refresh fails; anything else is answered by the first fetch |
| ControlPage.Reconciled | static/protected/index.js:45-61 | the rows left are exactly the updated uids: known ones `set` to their new values, new ones built fresh |
| ControlPage.ReconcileWithCurrentValues | static/protected/index.js:54-61 | reconciling rows with their own values changes nothing; an empty update leaves no row |
| ControlPage.ReconciledRowsShowUpdate | static/protected/index.js:54-61 | every remaining row shows the flag and content the update gave it |
| ControlPage.ControlPage.constructor | static/protected/index.js:3 | the page starts with no rows |
| ControlPage.ControlPage.DropStale | static/protected/index.js:45-50 | exactly the rows missing from the update are disconnected once and deleted; the rest are untouched |
| ControlPage.ControlPage.Apply | static/protected/index.js:54-61 | the rows become the reconciliation with the update, keeping each surviving row object |
| ControlPage.ControlPage.Refresh | static/protected/index.js:42-62 | the rows become Reconciled of the old rows and the update; the dropped ones were disconnected; surviving objects are reused |
| LiveClient.NewRow | protected/liveclient.js:20-28 | a new row shows its content; the button does the opposite of the flag and only the li carries "active" |
| LiveClient.SetRow | protected/liveclient.js:67-70 | `set` makes the flag and content the given ones, rewriting the input only for an inactive row whose content changed |
| LiveClient.ToggleRow | protected/liveclient.js:39-56 | `#activate`/`#deactivate` set the flag and both "active" classes together and keep the toggle consistent; content, input and li are untouched |
| LiveClient.UpdateRow | protected/liveclient.js:62-65 | `#update` stores the content and rewrites the input only while inactive; flag, classes and button are untouched |
| LiveClient.Removed | protected/liveclient.js:30-32 | `disconnect` detaches the li one more time and changes nothing else |
| LiveClient.SetUnchanged | protected/liveclient.js:67-70 | `set` with the row's own values changes nothing |
| LiveClient.ActivationKeepsInput | protected/liveclient.js:62-70 | content arriving with an activation does not reach the input |
| LiveClient.OperationsKeepConsistent | protected/liveclient.js:39-65 | every operation keeps the button's action opposite to the flag and the two "active" classes in step |
| LiveClient.Api.constructor | protected/liveclient.js:1-10 | no request has been made yet |
| LiveClient.LiveClient.constructor | protected/liveclient.js:20-28 | the object is the NewRow of its arguments |
| LiveClient.LiveClient.Disconnect | protected/liveclient.js:30-32 | the li leaves the document; the fields stay |
| LiveClient.LiveClient.Toggle | protected/liveclient.js:39-56 | `#activate` / `#deactivate` set the flag, both classes and the button action together |
| LiveClient.LiveClient.UpdateLocal | protected/liveclient.js:62-65 | the content is stored; the input follows only while inactive |
| LiveClient.LiveClient.Click | protected/liveclient.js:34-49 | one ACTIVATE/DEACTIVATE request is sent; the row toggles only if it resolved |
| LiveClient.LiveClient.Update | protected/liveclient.js:58-60 | one UPDATE request with the value is sent; the row updates only if it resolved |
| LiveClient.LiveClient.Set | protected/liveclient.js:67-70 | performs SetRow |
| Paths.Parse | server/staticfiles.py:12 | a parsed path is well formed and keeps the string's root |
| Paths.Join | server/staticfiles.py:12 | a relative string extends the base; an absolute one replaces it |
| Paths.RelativeIffPrefix | server/staticfiles.py:13 | `is_relative_to` holds iff the roots agree and the base's parts are a prefix |
| Paths.RelativeJoinStaysInside | server/staticfiles.py:12-13 | joining any relative string, ".." included, passes the lexical containment check |
| Paths.AbsoluteJoinLeavesOtherRoots | server/staticfiles.py:12-14 | an absolute string under a base of another root fails the check |
| Paths.IsRelativeTo | server/staticfiles.py:13 | lexical `is_relative_to`: only a path of the same root whose components extend the other's |
| Paths.Name | server/staticfiles.py:32 | `.name` of a parsed path is "" exactly for a path without components, and never holds '/' |
| Paths.NameOfJoinedName | server/staticfiles.py:30-32 | the name of `directory / n` is `n` for one plain component |
| ServerStaticFiles.Locate | server/staticfiles.py:11-17 | 451 iff the joined path is not lexically inside the directory, 404 iff inside but missing, otherwise the joined path |
| ServerStaticFiles.RelativeRequestsAreNeverUnavailable | server/staticfiles.py:12-14 | no relative request is ever refused with 451 |
| ServerStaticFiles.AbsoluteRequestUnderRelativeDirectory | server/staticfiles.py:12-14 | an absolute request under a relative directory is always 451 |
| ServerStaticFiles.Fetch | server/staticfiles.py:30-32 | a located file is served with its bytes and guessed type; a located failure keeps its status |
| ServerStaticFiles.CachedStep | server/staticfiles.py:24-34 | a hit answers from the cache; a miss fetches and stores only successes; no entry is ever dropped or changed |
| ServerStaticFiles.HitIgnoresFilesystem | server/staticfiles.py:27-28 | a cached answer does not depend on the filesystem or directory |
| ServerStaticFiles.CacheIsTransparent | server/staticfiles.py:24-34 | while files do not change, a cache for one directory stays sound and answers as a fresh fetch would |
| ServerStaticFiles.AdminFileServedToPublic | server/staticfiles.py:24-42 | when both cache flags are set, with the one shared cache, a public request for a name the admin side cached gets the admin bytes, not the public file a fresh fetch would serve |
| ServerStaticFiles.ServeIntended | server/staticfiles.py:37-42 | corrected: each frontend uses and changes only its own cache |
| ServerStaticFiles.ServeAsWritten | server/staticfiles.py:24-42 | as written, when both cache flags are set: a stored request string is answered from the one shared dict whichever frontend asks; a miss is a fresh fetch from the asking frontend's directory |
| ServerStaticFiles.IntendedServesOwnDirectory | server/staticfiles.py:37-42 | corrected, every request is answered as a fresh fetch from its own frontend's directory, lexically (paths as written, no `..` or symlink resolution) |
| ServerStaticFiles.ResponderFor | server/staticfiles.py:37-42 | the cached responder is chosen iff the frontend's cache flag is set |
| ServerStaticFiles.UncachedResponse | server/staticfiles.py:20-21 | a file response for an existing regular file, the status `locate_static_file` raises, or FileResponse's RuntimeError for a directory |
| ServerStaticFiles.UncachedAgreesWithFetch | server/staticfiles.py:20-34 | the uncached and the cached responder's miss path serve the same bytes, raise the same status and both fail on a directory |
| ServerStaticFiles.StaticCache.constructor | server/staticfiles.py:25 | the cache starts empty |
| ServerStaticFiles.StaticCache.Get | server/staticfiles.py:24-34 | performs CachedStep on the persistent cache |
| ServiceStaticFiles.StripSlash | service/staticfiles.py:18-19 | exactly one leading "/" is removed when present |
| ServiceStaticFiles.Candidate | service/staticfiles.py:18-20 | a relative request is joined as it is, and a request stripped of its one slash stays lexically under the root unless a second slash makes it absolute |
| ServiceStaticFiles.ResolveStaticPath | service/staticfiles.py:13-26 | a directory resolves to its index.html if present; a file to itself; anything else raises the given exception |
| ServiceStaticFiles.LeadingSlashStripped | service/staticfiles.py:18-19 | "/x" and "x" resolve alike |
| ServiceStaticFiles.SingleSlashStaysUnderRoot | service/staticfiles.py:18-20 | a request with one leading slash is looked up lexically under the root |
| ServiceStaticFiles.DoubleSlashIgnoresRoot | service/staticfiles.py:18-20 | a request starting "//" resolves to the same absolute path whatever the root |
| ServiceStaticFiles.ResolvedUnderRoot | service/staticfiles.py:13-26 | a found file for a request not starting "//" lies lexically under the root |
| ServiceStaticFiles.PublicRoot | service/staticfiles.py:9 | the public root is "public/dist" under the working directory |
| ServiceStaticFiles.AdminRoot | service/staticfiles.py:10 | the admin root is "admin/dist" under the working directory |
| ServiceStaticFiles.ProtectedFile | service/staticfiles.py:34-38 | an existing file under the admin route, or the default 404 "Not Found." |
| ServiceStaticFiles.PublicFile | service/staticfiles.py:41-44 | an existing file under the public route, or the default 404 "Not Found." |
| ServiceStaticFiles.RoutesServeTheirOwnRoots | service/staticfiles.py:34-44 | admin files come from under the admin root and public files from under the public root, lexically (paths as written, no `..` or symlink resolution) |
| ServiceStaticFiles.BaseAdmin | service/staticfiles.py:29-31 | the admin index is served iff the admin root is a directory holding index.html |
| Webhook.VerifySignature | server/webhook.py:81-93 | an empty signature is refused as missing; an ASCII signature is accepted iff it equals "sha256=" + the digest; every refusal is one of the two 403s or the TypeError of non-ASCII input |
| Webhook.EmptySignatureNeedsNoDigest | server/webhook.py:82-83 | an empty signature is refused whatever the digest would be |
| Webhook.VerifyBranch | server/webhook.py:96-109 | a body that is not JSON is refused with 403, other bad bodies and a missing default branch raise; otherwise the push counts iff its ref is "refs/heads/" + the configured branch, or the repository's default when none is configured |
| Webhook.Truthy | server/webhook.py:104 | a configured branch is used iff it is neither None nor "", the falsy values of an optional string in Python |
| Webhook.MissingRefIsRefused | server/webhook.py:101-108 | a payload without "ref" is not accepted whenever the expected ref can be computed |
| Webhook.ReceiveWebhook | server/webhook.py:112-136 | when both headers are present: ping answers "pong", unknown events and a disabled rebuild schedule nothing, and a scheduled rebuild always says so |
| Webhook.ScheduledIff | server/webhook.py:128-136 | a rebuild is scheduled iff the event is a push, rebuilding is on, the signature (when checked) and the branch (when checked) pass |
| Webhook.SignatureBeforeBranch | server/webhook.py:131-134 | a bad signature is refused before the body is even parsed |

## Left out

- The WebSocket accept and receive loops (`WSManager.manage`, the JSON iteration and
  its `JSONDecodeError` and transport handling, `ws_connect` in the service and
  backend modules) are not modelled: they are I/O. The model starts from one
  decoded message or one accepted socket.
- Async scheduling: the `send_json` coroutines the rewrite and chat features create
  are never awaited in the source; the model records each send callback call as a
  delivery, in call order, and says nothing about when or whether a coroutine runs.
- JSON serialisation of events, and the constant `"handler"` field of every outbound
  event, are not modelled; events are datatype values.
- Chat.ChatClientState.Notify: a Python set's iteration order is not specified; the
  subscribers are walked in insertion order here.
- Authentication and its 401/403 paths: the login, JWT and cookie routes, the
  `require_auth` and `TokenBearer` dependencies, `refreshAuth`, `logout` and the
  `connect_livecontrol` retry glue of the control page. The backend listing takes an
  `auth` flag, and `apiFetch` takes the refresh outcome as a parameter.
- Configuration loading, the request database and the rebuild tasks (`rebuild`,
  `rebuild_pyz`, `rebuild_static`, `cleanup`) are not modelled. The webhook model
  stops at whether a rebuild is scheduled.
- Webhook.VerifySignature: the HMAC-SHA256 digest is a parameter (`hexHmac`), and the
  constant-time comparison is plain equality.
- ServerStaticFiles.Fetch: `mimetypes.guess_type` is a parameter, and `FileResponse`
  streaming is reduced to the file's bytes.
- ControlPage.ControlPage.Refresh: it does not state that newly built rows are fresh
  objects distinct from the dropped ones, only that every uid has its own row object.
- ControlPage.ControlPage.Apply: the order of `Map.forEach` and of the DOM insertions
  is the caller's key order; the position of each list item is not modelled.
- LiveClient.LiveClient.Click: a rejected `dispatch` promise is the `resolved` flag;
  its unhandled rejection is not modelled.
- WsRewrite.WSRewrite.OnMessage: `event.data` is taken to be a string; binary frames
  are not modelled.
- ServerWsManager.GatherAsWritten: follows Python 3.11, where `asyncio.gather` handed
  an empty generator returns without error; from Python 3.12 `gather` rejects any
  generator with TypeError, so the no-handler cases of GatherAsWritten and
  DisconnectAsWritten differ there.
- The file system is lexical: paths are compared as parsed, and neither `..` nor
  symbolic links are resolved as the operating system resolves them. The containment
  results of ServerStaticFiles and ServiceStaticFiles hold lexically only; a relative
  request such as "../x" that passes the 451 check can read outside the directory on
  a real system.
- Webhook.ReceiveWebhook: the X-GitHub-Event and X-Hub-Signature-256 headers are
  required parameters (server/webhook.py:116-117); a request missing either gets
  FastAPI's 422 before the handler runs, which is not modelled: both are taken as
  present strings.
- The DOM is reduced to the fields the scripts set (`innerHTML`, the "active"
  classes, the input value, the button action, attachment).

## Findings

| source | as written | input that shows it | evidently intended | confidence | as-written member | corrected member |
|---|---|---|---|---|---|---|
| backend.py:218-219 | the "CLEAR" case calls `manager.clear(uid, content)`, one argument too many | CLEAR on a filed page | clear the page's content | high, not executed | BackendConMan.ClearRaisesTypeError | BackendConMan.DispatchIntended |
| public/index.js:22 | the UPDATE branch assigns the undeclared `content`, which throws in a module script | UPDATE "hi" then ACTIVATE | store the data in `rewriteContent` | high, not executed | RewritePage.UpdateThenActivate | RewritePage.CommandStep |
| server/wsmanager.py:39-41 | `asyncio.gather` is handed one generator, so it raises and no handler's `connect` or `disconnect` ever runs | connect then disconnect with one registered handler | call every handler, then file or forget the connection | high, not executed | ServerWsManager.ConnectionLeaksAsWritten | ServerWsManager.ConnectThenDisconnect |
| server/wsmanager.py:155-156 | the controller's "update" captures `client` but targets the controller's own `uid` | controller "c" sends update for "x" | update the client named in the message | medium, not executed | Rewrite.UpdateAddressesSender | Rewrite.ControllerCommandIntended |
| server/staticfiles.py:24-25 | the default `cache` dict is shared by every frontend using the cached responder, keyed by the request string alone | admin requests "index.html", then public requests "index.html" | one cache per frontend | medium, not executed | ServerStaticFiles.AdminFileServedToPublic | ServerStaticFiles.IntendedServesOwnDirectory |
| public/src/lib/WSRewrite.ts:4-6 | the https default port is written "442" | an https page on port 442 | "443", so the socket goes to the page's own port | medium, not executed | WsRewrite.AsWrittenPortIff | WsRewrite.IntendedKeepsPagePort |
