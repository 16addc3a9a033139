/** The GitHub webhook gate of server/webhook.py: the signature check, the branch
    check and the order in which `receive_webhook` applies them before it schedules a
    rebuild. The HMAC-SHA256 of RFC 2104 is a parameter (`hexHmac`: the hex digest of
    the body under the secret); decoding and parsing the body are given as the
    already-parsed `Payload`. */
module Webhook {
  import opened Common
  import opened WsEvents

  /** The ways a request can fail: an HTTPException 403 with its detail, or an
      exception the code does not catch (a server error), by name. */
  datatype Failure = Forbidden(detail: string) | Uncaught(name: string)

  /** Every character is ASCII, which `hmac.compare_digest` demands of `str` arguments. */
  predicate IsAscii(s: string) {
    forall i :: 0 <= i < |s| ==> s[i] as int < 128
  }

  /** `verify_signature`: None when the signature is accepted. */
  function VerifySignature(body: seq<bv8>, signature: string, secret: string,
                           hexHmac: (string, seq<bv8>) -> string): (r: Option<Failure>)
    ensures signature == "" ==> r == Some(Forbidden("Missing payload signature."))
    ensures signature != "" && IsAscii(signature) && IsAscii("sha256=" + hexHmac(secret, body)) ==>
      (r.None? <==> signature == "sha256=" + hexHmac(secret, body))
    ensures r.Some? ==> r.value in {Forbidden("Missing payload signature."),
      Forbidden("Failed to verify signature."), Uncaught("TypeError")}
  {
    if signature == "" then Some(Forbidden("Missing payload signature."))
    else
      var expected := "sha256=" + hexHmac(secret, body);
      if !(IsAscii(expected) && IsAscii(signature)) then Some(Uncaught("TypeError"))
      else if expected != signature then Some(Forbidden("Failed to verify signature."))
      else None
  }

  /** An empty signature is refused without consulting the digest at all: the outcome
      is the same whatever the HMAC function. */
  lemma EmptySignatureNeedsNoDigest(body: seq<bv8>, secret: string,
                                    h1: (string, seq<bv8>) -> string, h2: (string, seq<bv8>) -> string)
    ensures VerifySignature(body, "", secret, h1) == VerifySignature(body, "", secret, h2)
  {
  }

  /** `repository.default_branch` of a push payload: "repository" missing, present
      but not an object (indexing it by a string raises TypeError), the object without
      "default_branch", or the branch name as the f-string renders it. */
  datatype DefaultBranch = NoRepository | RepositoryNotObject | NoDefaultBranch | DefaultBranch(name: string)

  /** What `json.loads(body.decode("utf-8"))` gives: a decoding failure, a parse
      failure, a JSON value that is not an object, or an object with its "ref" (if
      any) and its `repository.default_branch`. */
  datatype Payload =
    | NotUtf8
    | NotJson
    | NotObject
    | Object(ref: Option<Json>, defaultBranch: DefaultBranch)

  /** The request body: its bytes (what is signed) and how they parse. */
  datatype Body = Body(raw: seq<bv8>, parsed: Payload)

  /** `branch` is used iff it is truthy, i.e. given and non-empty. */
  predicate Truthy(branch: Option<string>)
    ensures Truthy(branch) <==> branch !in {None, Some("")}
  {
    branch.Some? && branch.value != ""
  }

  /** `verify_branch`. The expected ref is computed before "ref" is looked at, so
      with no branch configured a payload without `repository.default_branch` raises
      KeyError even when it has no "ref". */
  function VerifyBranch(body: Payload, branch: Option<string>): (r: Result)
    ensures body == NotJson ==> r == Fail(Forbidden("Invalid request body."))
    ensures body == NotUtf8 ==> r == Fail(Uncaught("UnicodeDecodeError"))
    ensures body == NotObject ==> r == Fail(Uncaught("AttributeError"))
    ensures body.Object? && Truthy(branch) ==>
      r == Value(body.ref == Some(JString("refs/heads/" + branch.value)))
    ensures body.Object? && !Truthy(branch) && body.defaultBranch.DefaultBranch? ==>
      r == Value(body.ref == Some(JString("refs/heads/" + body.defaultBranch.name)))
    ensures body.Object? && !Truthy(branch) && body.defaultBranch.RepositoryNotObject? ==>
      r == Fail(Uncaught("TypeError"))
    ensures body.Object? && !Truthy(branch) && (body.defaultBranch.NoRepository? || body.defaultBranch.NoDefaultBranch?) ==>
      r == Fail(Uncaught("KeyError"))
  {
    match body
    case NotUtf8 => Fail(Uncaught("UnicodeDecodeError"))
    case NotJson => Fail(Forbidden("Invalid request body."))
    case NotObject => Fail(Uncaught("AttributeError"))
    case Object(ref, db) =>
      var expected :=
        if Truthy(branch) then Some("refs/heads/" + branch.value)
        else if db.DefaultBranch? then Some("refs/heads/" + db.name)
        else None;
      if expected.None? then
        Fail(Uncaught(if db.RepositoryNotObject? then "TypeError" else "KeyError"))
      else Value(!(ref.None? || ref == Some(JNull) || ref != Some(JString(expected.value))))
  }

  /** A branch check outcome: a value, or a failure. */
  datatype Result = Value(ok: bool) | Fail(failure: Failure)

  /** A payload without "ref" is refused, provided the expected ref can be computed. */
  lemma MissingRefIsRefused(defaultBranch: DefaultBranch, branch: Option<string>)
    requires Truthy(branch) || defaultBranch.DefaultBranch?
    ensures VerifyBranch(Object(None, defaultBranch), branch) == Value(false)
  {
  }

  /** The `rebuild` section of the configuration: `False`, or its settings. */
  datatype Rebuild =
    | Disabled
    | Enabled(verifySignature: bool, verifyBranch: bool, secret: string, branch: Option<string>)

  /** The answer of `receive_webhook`: a message and whether a rebuild task was added,
      or a failure. */
  datatype Reply = Reply(message: string, scheduled: bool) | Refused(failure: Failure)

  /** `receive_webhook`: the event header first, then the rebuild switch, then the
      signature, then the branch; the rebuild is scheduled only at the end. */
  function ReceiveWebhook(event: string, body: Body, signature: string, rebuild: Rebuild,
                          hexHmac: (string, seq<bv8>) -> string): (r: Reply)
    ensures event == "ping" ==> r == Reply("pong", false)
    ensures event != "ping" && event != "push" ==> r == Reply("Unknown: no action will be taken.", false)
    ensures event == "push" && rebuild.Disabled? ==> r == Reply("Rebuild disabled.", false)
    ensures r.Reply? && r.scheduled ==> r.message == "Push received, started upgrade."
  {
    if event == "ping" then Reply("pong", false)
    else if event != "push" then Reply("Unknown: no action will be taken.", false)
    else if rebuild.Disabled? then Reply("Rebuild disabled.", false)
    else
      var sig := if rebuild.verifySignature then VerifySignature(body.raw, signature, rebuild.secret, hexHmac) else None;
      if sig.Some? then Refused(sig.value)
      else
        var br := if rebuild.verifyBranch then VerifyBranch(body.parsed, rebuild.branch) else Value(true);
        match br
        case Fail(f) => Refused(f)
        case Value(ok) =>
          if !ok then Reply("Not on default branch: no action will be taken.", false)
          else Reply("Push received, started upgrade.", true)
  }

  /** A rebuild is scheduled iff the event is a push, rebuilding is enabled, the
      signature passes (when checked) and the branch passes (when checked). */
  lemma {:induction false} ScheduledIff(event: string, body: Body, signature: string, rebuild: Rebuild,
                                        hexHmac: (string, seq<bv8>) -> string)
    ensures var r := ReceiveWebhook(event, body, signature, rebuild, hexHmac);
      (r.Reply? && r.scheduled) <==>
        && event == "push"
        && rebuild.Enabled?
        && (rebuild.verifySignature ==> VerifySignature(body.raw, signature, rebuild.secret, hexHmac).None?)
        && (rebuild.verifyBranch ==> VerifyBranch(body.parsed, rebuild.branch) == Value(true))
  {
  }

  /** The signature is checked before the branch: a bad signature is refused with its
      own 403 even when the body is not JSON. */
  lemma SignatureBeforeBranch(raw: seq<bv8>, secret: string, branch: Option<string>,
                              hexHmac: (string, seq<bv8>) -> string)
    ensures ReceiveWebhook("push", Body(raw, NotJson), "", Enabled(true, true, secret, branch), hexHmac)
      == Refused(Forbidden("Missing payload signature."))
  {
  }
}
