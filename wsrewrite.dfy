/** The browser side of the text protocol: `parseCommand`, `makeUrlFromPath` and the
    `WSRewrite` wrapper around a WebSocket. The same code appears three times, in
    public/src/lib/WSRewrite.ts, static/public/wsrewrite.js and static/protected/index.js;
    this module models it once. Strings are sequences of Dafny characters (Unicode scalar
    values); JavaScript's UTF-16 code units, lone surrogates and the splitting of
    astral characters into two units are not modelled. */
module WsRewrite {
  import opened Common
  import ServiceWsManager

  // ---------------------------------------------------------------------------
  // parseCommand: the regular expression ^([A-Za-z]*)( (.*))?

  predicate IsLetter(c: char) {
    'A' <= c <= 'Z' || 'a' <= c <= 'z'
  }

  /** The characters a regular-expression `.` does not match. */
  predicate IsLineTerminator(c: char) {
    c == '\n' || c == '\r' || c == '\U{2028}' || c == '\U{2029}'
  }

  predicate AllLetters(s: string) {
    forall i :: 0 <= i < |s| ==> IsLetter(s[i])
  }

  predicate NoLineTerminator(s: string) {
    forall i :: 0 <= i < |s| ==> !IsLineTerminator(s[i])
  }

  /** The length of the longest all-letter prefix. */
  function LetterRun(s: string): (n: nat)
    ensures n <= |s| && AllLetters(s[..n])
    ensures n == |s| || !IsLetter(s[n])
  {
    if s == [] || !IsLetter(s[0]) then 0
    else
      var k := LetterRun(s[1..]);
      assert s[..k + 1] == [s[0]] + s[1..][..k];
      k + 1
  }

  /** The length of the longest prefix without a line terminator. */
  function LineRun(s: string): (n: nat)
    ensures n <= |s| && NoLineTerminator(s[..n])
    ensures n == |s| || IsLineTerminator(s[n])
  {
    if s == [] || IsLineTerminator(s[0]) then 0
    else
      var k := LineRun(s[1..]);
      assert s[..k + 1] == [s[0]] + s[1..][..k];
      k + 1
  }

  /** `[match[1], match[3]]`; `data` is None where JavaScript has `undefined`. */
  datatype Parsed = Parsed(command: string, data: Option<string>)

  /** What the regular expression matches, stated without computing it: the command
      is a maximal run of letters at the start; the optional group is taken iff a
      space follows it, and then captures a maximal run free of line terminators. */
  ghost predicate MatchesPattern(source: string, p: Parsed)
    ensures MatchesPattern(source, p) ==>
      p.command + (if p.data.Some? then " " + p.data.value else "") <= source
  {
    && p.command <= source && AllLetters(p.command)
    && (|p.command| == |source| || !IsLetter(source[|p.command|]))
    && (p.data.Some? <==> |p.command| < |source| && source[|p.command|] == ' ')
    && (p.data.Some? ==>
          var rest := source[|p.command| + 1..];
          && p.data.value <= rest && NoLineTerminator(p.data.value)
          && (|p.data.value| == |rest| || IsLineTerminator(rest[|p.data.value|])))
  }

  /** `parseCommand`. The match never fails: every string starts with a (possibly
      empty) run of letters. */
  function ParseCommand(source: string): (r: Parsed)
    ensures MatchesPattern(source, r)
  {
    var n := LetterRun(source);
    if n < |source| && source[n] == ' ' then
      var rest := source[n + 1..];
      Parsed(source[..n], Some(rest[..LineRun(rest)]))
    else Parsed(source[..n], None)
  }

  /** The pattern determines its match: `ParseCommand` is the only reading of a string
      that satisfies it. */
  lemma {:induction false} PatternMatchIsUnique(source: string, p: Parsed)
    ensures MatchesPattern(source, p) <==> p == ParseCommand(source)
  {
    if MatchesPattern(source, p) {
      var q := ParseCommand(source);
      LetterRunIsMaximal(source, |p.command|);
      LetterRunIsMaximal(source, |q.command|);
      assert p.command == q.command;
      if p.data.Some? {
        var rest := source[|p.command| + 1..];
        LineRunIsMaximal(rest, |p.data.value|);
        LineRunIsMaximal(rest, |q.data.value|);
        assert p.data.value == rest[..|p.data.value|];
        assert q.data.value == rest[..|q.data.value|];
      }
    }
  }

  /** Two maximal letter prefixes have the same length. */
  lemma LetterRunIsMaximal(s: string, n: nat)
    requires n <= |s| && AllLetters(s[..n]) && (n == |s| || !IsLetter(s[n]))
    ensures n == LetterRun(s)
  {
    var m := LetterRun(s);
    if n < m {
      LetterAt(s, m, n);
    } else if m < n {
      LetterAt(s, n, m);
    }
  }

  lemma LetterAt(s: string, k: nat, i: nat)
    requires i < k <= |s| && AllLetters(s[..k])
    ensures IsLetter(s[i])
  {
    assert s[..k][i] == s[i];
  }

  /** Two maximal terminator-free prefixes have the same length. */
  lemma LineRunIsMaximal(s: string, n: nat)
    requires n <= |s| && NoLineTerminator(s[..n]) && (n == |s| || IsLineTerminator(s[n]))
    ensures n == LineRun(s)
  {
    var m := LineRun(s);
    if n < m {
      NonTerminatorAt(s, m, n);
    } else if m < n {
      NonTerminatorAt(s, n, m);
    }
  }

  lemma NonTerminatorAt(s: string, k: nat, i: nat)
    requires i < k <= |s| && NoLineTerminator(s[..k])
    ensures !IsLineTerminator(s[i])
  {
    assert s[..k][i] == s[i];
  }

  /** Round trip with the managers of service/wsmanager.py and backend/__init__.py:
      the frame `"UPDATE " + content` parses back to the verb and the content, for
      content without line terminators. */
  lemma {:induction false} UpdateFrameRoundTrip(content: string)
    requires NoLineTerminator(content)
    ensures ParseCommand(ServiceWsManager.UpdateText(content)) == Parsed("UPDATE", Some(content))
  {
    var s := ServiceWsManager.UpdateText(content);
    var verb := "UPDATE";
    assert s == verb + " " + content;
    assert s[..6] == verb && AllLetters(verb) && !IsLetter(s[6]) && s[6] == ' ';
    assert s[7..] == content;
    assert content[..|content|] == content;
    PatternMatchIsUnique(s, Parsed("UPDATE", Some(content)));
  }

  /** Content with a line break arrives cut at the first one. */
  lemma {:induction false} UpdateFrameTruncated(first: string, t: char, more: string)
    requires NoLineTerminator(first) && IsLineTerminator(t)
    ensures ParseCommand(ServiceWsManager.UpdateText(first + [t] + more)) == Parsed("UPDATE", Some(first))
  {
    var s := ServiceWsManager.UpdateText(first + [t] + more);
    var verb := "UPDATE";
    assert s == verb + " " + (first + [t] + more);
    assert s[..6] == verb && AllLetters(verb) && !IsLetter(s[6]) && s[6] == ' ';
    assert s[7..] == first + [t] + more;
    assert (first + [t] + more)[|first|] == t;
    assert (first + [t] + more)[..|first|] == first;
    PatternMatchIsUnique(s, Parsed("UPDATE", Some(first)));
  }

  /** A bare verb ("ACTIVATE", "DEACTIVATE", "CONNECT") has no data. */
  lemma {:induction false} BareVerbHasNoData(verb: string)
    requires AllLetters(verb)
    ensures ParseCommand(verb) == Parsed(verb, None)
  {
    assert verb[..|verb|] == verb;
    PatternMatchIsUnique(verb, Parsed(verb, None));
  }

  // ---------------------------------------------------------------------------
  // makeUrlFromPath

  /** The parts of `window.location` the URL is built from. */
  datatype Location = Location(protocol: string, hostname: string, port: string)

  /** A WebSocket URL by its parts: `port` None when the ":port" part is left out. */
  datatype WsUrl = WsUrl(secure: bool, host: string, port: Option<string>, path: string)

  /** The URL string: scheme, host, ":port" if present, path. */
  function Render(u: WsUrl): (r: string)
    ensures var scheme := if u.secure then "wss://" else "ws://";
      && scheme + u.host <= r
      && |u.path| <= |r| && r[|r| - |u.path|..] == u.path
  {
    (if u.secure then "wss://" else "ws://") + u.host + (if u.port.Some? then ":" + u.port.value else "") + u.path
  }

  /** `makeUrlFromPath` as written: the ":port" part is left out iff the page's port
      string is "442" on https or "80" otherwise; it is kept even when empty. */
  function MakeUrlAsWritten(loc: Location, path: string): (r: WsUrl)
    ensures r.secure <==> loc.protocol == "https:"
    ensures r.host == loc.hostname && r.path == path
    ensures r.port.None? <==> loc.port == (if loc.protocol == "https:" then "442" else "80")
    ensures r.port.Some? ==> r.port.value == loc.port
  {
    var secure := loc.protocol == "https:";
    var defaultPort := if secure then "442" else "80";
    WsUrl(secure, loc.hostname, if loc.port == defaultPort then None else Some(loc.port), path)
  }

  /** The port a page is served from: its explicit port, else the default of http
      (80) or https (443); a browser reports the default port as "". */
  function PagePort(loc: Location): string {
    if loc.port != "" then loc.port else if loc.protocol == "https:" then "443" else "80"
  }

  /** The port a WebSocket URL connects to: the explicit one, else the default of
      section 3 of RFC 6455 (80 for ws, 443 for wss); an empty port after ':' counts
      as absent. */
  function UrlPort(u: WsUrl): string {
    if u.port.Some? && u.port.value != "" then u.port.value else if u.secure then "443" else "80"
  }

  predicate IsHttp(loc: Location) {
    loc.protocol in {"http:", "https:"}
  }

  /** As written, the socket goes to the page's own port except for an https page on
      port 442, whose socket goes to 443. */
  lemma AsWrittenPortIff(loc: Location, path: string)
    requires IsHttp(loc)
    ensures UrlPort(MakeUrlAsWritten(loc, path)) == PagePort(loc)
      <==> !(loc.protocol == "https:" && loc.port == "442")
  {
  }

  /** Corrected: the port is left out iff it is the scheme's default, 443 for wss. */
  function MakeUrlIntended(loc: Location, path: string): (r: WsUrl)
    ensures r.secure <==> loc.protocol == "https:"
    ensures r.host == loc.hostname && r.path == path
  {
    var secure := loc.protocol == "https:";
    var defaultPort := if secure then "443" else "80";
    WsUrl(secure, loc.hostname, if loc.port == defaultPort then None else Some(loc.port), path)
  }

  /** With the corrected default, the socket always goes to the page's own port. */
  lemma IntendedKeepsPagePort(loc: Location, path: string)
    requires IsHttp(loc)
    ensures UrlPort(MakeUrlIntended(loc, path)) == PagePort(loc)
  {
  }

  /** `makeUrlFromPath` as used by the rest of the model. */
  function MakeUrlFromPath(loc: Location, path: string): (r: string)
    ensures (if loc.protocol == "https:" then "wss://" else "ws://") + loc.hostname <= r
    ensures |path| <= |r| && r[|r| - |path|..] == path
  {
    Render(MakeUrlIntended(loc, path))
  }

  // ---------------------------------------------------------------------------
  // WSRewrite

  /** The handler object's three callbacks, as the calls they received. */
  class Handler {
    var commands: seq<Parsed>
    var closes: nat
    var errors: nat

    constructor ()
      ensures commands == [] && closes == 0 && errors == 0
    {
      commands, closes, errors := [], 0, 0;
    }
  }

  /** A JavaScript exception. */
  datatype JsError = TypeError

  class WSRewrite {
    const url: string
    const handler: Handler
    /** The current socket; None while `ws` is undefined. */
    var ws: Option<nat>
    /** The sockets `close()` was called on, in order. */
    var closed: seq<nat>

    /** `new WSRewrite(path, handler)`: only the URL is computed; no socket yet. */
    constructor (loc: Location, path: string, handler: Handler)
      ensures url == MakeUrlFromPath(loc, path) && this.handler == handler
      ensures ws == None && closed == []
    {
      url := MakeUrlFromPath(loc, path);
      this.handler := handler;
      ws, closed := None, [];
    }

    /** `connect`: a new socket replaces the field; an earlier one is not closed. */
    method Connect(socket: nat)
      modifies this
      ensures ws == Some(socket) && closed == old(closed)
    {
      ws := Some(socket);
    }

    /** The socket's `onmessage`: exactly one `oncommand` call, with the parsed text. */
    method OnMessage(data: string)
      requires ws.Some?
      modifies handler
      ensures handler.commands == old(handler.commands) + [ParseCommand(data)]
      ensures handler.closes == old(handler.closes) && handler.errors == old(handler.errors)
    {
      handler.commands := handler.commands + [ParseCommand(data)];
    }

    /** The socket's `onclose` and `onerror`, bound to the handler's. */
    method OnClose()
      requires ws.Some?
      modifies handler
      ensures handler.closes == old(handler.closes) + 1
      ensures handler.commands == old(handler.commands) && handler.errors == old(handler.errors)
    {
      handler.closes := handler.closes + 1;
    }

    method OnError()
      requires ws.Some?
      modifies handler
      ensures handler.errors == old(handler.errors) + 1
      ensures handler.commands == old(handler.commands) && handler.closes == old(handler.closes)
    {
      handler.errors := handler.errors + 1;
    }

    /** `disconnect`: closes the current socket; before any `connect`, `this.ws` is
        undefined and the call throws TypeError. */
    method Disconnect() returns (err: Option<JsError>)
      modifies this
      ensures ws == old(ws)
      ensures old(ws).None? ==> err == Some(TypeError) && closed == old(closed)
      ensures old(ws).Some? ==> err.None? && closed == old(closed) + [old(ws).value]
    {
      if ws.None? {
        return Some(TypeError);
      }
      closed := closed + [ws.value];
      err := None;
    }
  }
}
