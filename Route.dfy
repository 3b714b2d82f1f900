/** `POST /send` and `GET /test`. `SendRun` is what `/send` does, as a
    function of the configured token, the request, the readiness flag before
    the request and the outcomes of the client calls; `HandleSend` runs the
    handler against a supervisor and is proved to do exactly that. */
module Route {
  import opened Values
  import opened Effects
  import opened Classifier
  import opened Bridge
  import opened Request
  import opened Batch
  import opened Session

  /** The outcomes of the calls `/send` can make. `fetch(i)` and `send(i)`
      are for the i-th image of a batch; a single pdf, image or text uses 0. */
  datatype RouteEnv = RouteEnv(
    state: Result<string>,      // whatsapp.getState() inside isClientReady
    numberId: Result<Json>,     // whatsapp.getNumberId(chatId)
    fetch: nat -> Result<()>,   // MessageMedia.fromUrl(...)
    send: nat -> Result<()>,    // whatsapp.sendMessage(...)
    cleanup: Cleanup)           // the lock cleanup commands, should the classifier run them

  /** The calls made while sending content, and the error that escaped, if any. */
  datatype Attempt = Attempt(effects: seq<Effect>, failure: Option<string>)

  /** One `/send` request: the reply, the calls made, and the readiness flag
      afterwards. */
  datatype Run = Run(reply: SendReply, effects: seq<Effect>, ready: bool)

  datatype TestReply = TestPassed | TestFailed
  {
    function Status(): int {
      if TestPassed? then 200 else 503
    }
  }

  /** The `catch` of `/send`: 503 with a retry hint when the classifier
      recognises the error, 500 otherwise. */
  function ErrorReply(message: string): SendReply {
    if Recoverable(message) then SessionUnavailable else InternalError
  }

  /** Fetch one media and send it with the given caption. */
  function SendOne(chatId: string, url: Json, kind: MediaKind, caption: Json, env: RouteEnv): Attempt {
    if env.fetch(0).Err? then Attempt([FetchMedia(url, kind)], Some(env.fetch(0).message))
    else
      var calls := [FetchMedia(url, kind), SendMedia(chatId, url, caption)];
      if env.send(0).Err? then Attempt(calls, Some(env.send(0).message)) else Attempt(calls, None)
  }

  /** The priority branch: exactly one kind of content is sent. Errors in the
      image batch are swallowed, so it never fails. */
  function Dispatch(chatId: string, content: Content, env: RouteEnv): Attempt {
    match content
    case PdfContent(url, caption) => SendOne(chatId, url, PdfDocument, caption, env)
    case ImageBatch(urls, message) =>
      Attempt(BatchPrefix(chatId, urls, message, env.fetch, env.send, |urls|), None)
    case SingleImage(url, caption) => SendOne(chatId, url, Picture, caption, env)
    case TextContent(text) =>
      Attempt([SendText(chatId, text)], if env.send(0).Err? then Some(env.send(0).message) else None)
    case NoContent => Attempt([], None)
  }

  /** An error escaped the `try` after `effects`: the classifier runs on a
      client that was ready. */
  function Failed(message: string, effects: seq<Effect>, cleanup: Cleanup): Run {
    Run(ErrorReply(message), effects + ErrorEffects(message, cleanup),
        ReadyAfterError(true, message, cleanup))
  }

  /** `POST /send` once the number was found: the content, and the `catch`. */
  function SendContent(chatId: string, body: RequestBody, env: RouteEnv): Run {
    var a := Dispatch(chatId, SelectContent(body), env);
    match a.failure
    case None => Run(Sent, a.effects, true)
    case Some(m) => Failed(m, a.effects, env.cleanup)
  }

  /** `POST /send` from the number lookup on; a lookup that throws goes to
      the `catch`. */
  function LookUpAndSend(chatId: string, body: RequestBody, env: RouteEnv): Run {
    var looked := [LookupNumber(chatId)];
    match env.numberId
    case Err(m) => Failed(m, looked, env.cleanup)
    case Ok(id) =>
      if !Truthy(id) then Run(NumberNotFound, looked, true)
      else
        var r := SendContent(chatId, body, env);
        r.(effects := looked + r.effects)
  }

  /** `POST /send` once the body is valid and the client was found connected:
      the chat id is built and the status recipient refused. */
  function SendValid(body: RequestBody, env: RouteEnv): Run
    requires Validate(body) == None
  {
    var chatId := ChatIdOf(body.phoneNumber.s);
    if IsStatusIdentity(chatId) then Run(RecipientNotAllowed, [], true)
    else LookUpAndSend(chatId, body, env)
  }

  /** `POST /send` once the client was found connected: the body
      validation, and the rest. */
  function SendChecked(body: RequestBody, env: RouteEnv): Run {
    match Validate(body)
    case Some(e) => Run(Invalid(e), [], true)
    case None => SendValid(body, env)
  }

  /** `POST /send` once the token was accepted: the readiness probe, and
      the rest. */
  function SendAuthorized(body: RequestBody, wasReady: bool, env: RouteEnv): Run {
    var answered := wasReady && env.state.Ok?;
    if !(wasReady && env.state == Ok(Connected)) then
      Run(NotConnected, if wasReady then [GetState] else [], answered)
    else
      var rest := SendChecked(body, env);
      rest.(effects := [GetState] + rest.effects)
  }

  /** What `POST /send` does. */
  function SendRun(tokenAccess: Option<string>, req: SendRequest, wasReady: bool, env: RouteEnv): Run {
    match Authorize(req.authorization, tokenAccess)
    case Some(denied) => Run(denied, [], wasReady)
    case None => SendAuthorized(req.body, wasReady, env)
  }

  /** The token was accepted and the client, marked ready, answered the
      state question: the last-operation time is refreshed. */
  predicate Answered(tokenAccess: Option<string>, req: SendRequest, wasReady: bool, env: RouteEnv) {
    Authorize(req.authorization, tokenAccess) == None && wasReady && env.state.Ok?
  }

  /** Every gate before the first send has been passed. */
  predicate GatesPass(tokenAccess: Option<string>, req: SendRequest, wasReady: bool, env: RouteEnv) {
    && Authorize(req.authorization, tokenAccess) == None
    && wasReady && env.state == Ok(Connected)
    && Validate(req.body) == None
    && !IsStatusIdentity(ChatIdOf(req.body.phoneNumber.s))
    && env.numberId.Ok? && Truthy(env.numberId.value)
  }

  predicate NoDelivery(t: seq<Effect>) {
    forall e | e in t :: !IsDelivery(e)
  }

  /** Calls that deliver content only go to `chatId`. */
  predicate DeliversTo(t: seq<Effect>, chatId: string) {
    forall e | e in t :: (e.SendText? || e.SendMedia?) ==> e.chatId == chatId
  }

  lemma ErrorEffectsDeliverNothing(message: string, c: Cleanup)
    ensures NoDelivery(ErrorEffects(message, c))
  {
  }

  lemma {:induction false} BatchDeliversTo(chatId: string, urls: seq<Json>, message: Json,
                                           fetch: nat -> Result<()>, send: nat -> Result<()>, k: nat)
    requires k <= |urls|
    ensures DeliversTo(BatchPrefix(chatId, urls, message, fetch, send, k), chatId)
  {
    if k > 0 {
      BatchDeliversTo(chatId, urls, message, fetch, send, k - 1);
    }
  }

  /** Content is only sent to the chat it is meant for; the `catch` sends
      nothing. */
  lemma ContentDeliversTo(chatId: string, body: RequestBody, env: RouteEnv)
    ensures DeliversTo(SendContent(chatId, body, env).effects, chatId)
  {
    var content := SelectContent(body);
    var a := Dispatch(chatId, content, env);
    if content.ImageBatch? {
      BatchDeliversTo(chatId, content.urls, content.message, env.fetch, env.send, |content.urls|);
    }
    if a.failure.Some? {
      ErrorEffectsDeliverNothing(a.failure.value, env.cleanup);
    }
  }

  /** The number is looked up before anything else, and nothing is fetched
      or sent unless the lookup found it. */
  lemma LookUpFirst(chatId: string, body: RequestBody, env: RouteEnv)
    ensures var t := LookUpAndSend(chatId, body, env).effects;
      |t| > 0 && t[0] == LookupNumber(chatId) && DeliversTo(t, chatId)
    ensures !(env.numberId.Ok? && Truthy(env.numberId.value)) ==>
      NoDelivery(LookUpAndSend(chatId, body, env).effects)
  {
    if env.numberId.Err? {
      ErrorEffectsDeliverNothing(env.numberId.message, env.cleanup);
    } else if Truthy(env.numberId.value) {
      ContentDeliversTo(chatId, body, env);
    }
  }

  /** No content is fetched or sent unless every gate has been passed: the
      token, readiness, validation, the status-recipient check and the
      number lookup all come first. When they have been passed, the client is
      asked for its state, then for the number, before anything else, and
      every send goes to the chat id built from the phone number. */
  lemma DeliveriesFollowGates(tokenAccess: Option<string>, req: SendRequest, wasReady: bool, env: RouteEnv)
    ensures var run := SendRun(tokenAccess, req, wasReady, env);
      !GatesPass(tokenAccess, req, wasReady, env) ==> NoDelivery(run.effects)
    ensures var run := SendRun(tokenAccess, req, wasReady, env);
      GatesPass(tokenAccess, req, wasReady, env) ==>
        var chatId := ChatIdOf(req.body.phoneNumber.s);
        && |run.effects| >= 2
        && run.effects[..2] == [GetState, LookupNumber(chatId)]
        && DeliversTo(run.effects, chatId)
  {
    if Authorize(req.authorization, tokenAccess) == None && wasReady && env.state == Ok(Connected)
      && Validate(req.body) == None
    {
      var chatId := ChatIdOf(req.body.phoneNumber.s);
      if !IsStatusIdentity(chatId) {
        LookUpFirst(chatId, req.body, env);
        var t := LookUpAndSend(chatId, req.body, env).effects;
        assert SendRun(tokenAccess, req, wasReady, env).effects == [GetState] + t;
      }
    }
  }

  /** Authorization is decided first: a refused token answers 401 or 403
      with no call made and no state changed. */
  lemma AuthDecidedFirst(tokenAccess: Option<string>, req: SendRequest, wasReady: bool, env: RouteEnv)
    requires Authorize(req.authorization, tokenAccess).Some?
    ensures var run := SendRun(tokenAccess, req, wasReady, env);
      && run.reply.Status() in {401, 403}
      && (run.reply.Status() == 401 <==>
            req.authorization.None? || !Text.StartsWith(req.authorization.value, BearerPrefix))
      && run.effects == [] && run.ready == wasReady
  {
  }

  /** A client that is not ready answers 503 before the body is looked at;
      at most the state question is asked. */
  lemma ReadinessGate(tokenAccess: Option<string>, req: SendRequest, wasReady: bool, env: RouteEnv)
    requires Authorize(req.authorization, tokenAccess) == None
    requires !(wasReady && env.state == Ok(Connected))
    ensures var run := SendRun(tokenAccess, req, wasReady, env);
      && run.reply == NotConnected && run.reply.Status() == 503
      && run.effects == (if wasReady then [GetState] else [])
      && run.ready == (wasReady && env.state.Ok?)
  {
  }

  /** An invalid body answers 400 with the first failed check, before the
      chat id is built or the number looked up. */
  lemma InvalidBodyStopsEarly(tokenAccess: Option<string>, req: SendRequest, env: RouteEnv)
    requires Authorize(req.authorization, tokenAccess) == None && env.state == Ok(Connected)
    requires Validate(req.body).Some?
    ensures var run := SendRun(tokenAccess, req, true, env);
      && run.reply == Invalid(Validate(req.body).value) && run.reply.Status() == 400
      && run.effects == [GetState]
  {
  }

  /** The status chat id is refused with 400 before the number is looked up. */
  lemma StatusRecipientRefused(tokenAccess: Option<string>, req: SendRequest, env: RouteEnv)
    requires Authorize(req.authorization, tokenAccess) == None && env.state == Ok(Connected)
    requires Validate(req.body) == None
    requires !IsAstral(req.body.phoneNumber.s[0]) && req.body.phoneNumber.s[1..] == "status"
    ensures var run := SendRun(tokenAccess, req, true, env);
      run.reply == RecipientNotAllowed && run.reply.Status() == 400 && run.effects == [GetState]
  {
    ChatIdStatus(req.body.phoneNumber.s);
  }

  /** A falsy lookup result answers 404 and nothing is sent. */
  lemma UnknownNumber(tokenAccess: Option<string>, req: SendRequest, env: RouteEnv)
    requires Authorize(req.authorization, tokenAccess) == None && env.state == Ok(Connected)
    requires Validate(req.body) == None && !IsStatusIdentity(ChatIdOf(req.body.phoneNumber.s))
    requires env.numberId.Ok? && !Truthy(env.numberId.value)
    ensures var run := SendRun(tokenAccess, req, true, env);
      && run.reply == NumberNotFound && run.reply.Status() == 404
      && run.effects == [GetState, LookupNumber(ChatIdOf(req.body.phoneNumber.s))]
  {
  }

  /** An image batch answers 200 whatever fails inside it, and leaves the
      client ready. */
  lemma BatchAlwaysSucceeds(tokenAccess: Option<string>, req: SendRequest, env: RouteEnv)
    requires GatesPass(tokenAccess, req, true, env)
    requires SelectContent(req.body).ImageBatch?
    ensures var run := SendRun(tokenAccess, req, true, env);
      run.reply == Sent && run.reply.Status() == 200 && run.ready
  {
  }

  /** An error escaping the lookup or a single send answers 503 with the
      retry hint exactly when the classifier recognises it, and 500
      otherwise; a closed session also clears readiness. */
  lemma ErrorMapping(tokenAccess: Option<string>, req: SendRequest, env: RouteEnv, message: string)
    requires Authorize(req.authorization, tokenAccess) == None && env.state == Ok(Connected)
    requires Validate(req.body) == None && !IsStatusIdentity(ChatIdOf(req.body.phoneNumber.s))
    requires env.numberId == Err(message)
      || (env.numberId.Ok? && Truthy(env.numberId.value)
          && Dispatch(ChatIdOf(req.body.phoneNumber.s), SelectContent(req.body), env).failure == Some(message))
    ensures var run := SendRun(tokenAccess, req, true, env);
      && (run.reply.Retry() <==> Recoverable(message))
      && run.reply.Status() == (if Recoverable(message) then 503 else 500)
      && (Classify(message) == SessionClosed ==> !run.ready)
      && (Classify(message) == Unrecognised ==> run.ready)
  {
  }

  /** A text message to a known number: the state question, the lookup and
      one send of the text, answered with 200. */
  lemma TextMessageEndToEnd(token: string, env: RouteEnv)
    requires ' ' !in token
    requires env.state == Ok(Connected) && env.numberId == Ok(Str("15551234567@c.us"))
    requires env.send(0).Ok?
    ensures var req := SendRequest(Some("Bearer " + token),
                                   RequestBody(Str("+15551234567"), Str("hi"), Undefined, Undefined, Undefined));
      var run := SendRun(Some(token), req, true, env);
      && run.reply == Sent
      && run.effects == [GetState, LookupNumber("15551234567@c.us"), SendText("15551234567@c.us", Str("hi"))]
  {
    AuthorizeIff(Some("Bearer " + token), Some(token));
    assert ("Bearer " + token)[..|BearerPrefix| + |token|] == BearerPrefix + token;
    assert "+15551234567"[1..] + ChatSuffix == "15551234567@c.us";
  }

  /** Fetch one media and send it. */
  method SendMediaOnce(s: Supervisor, chatId: string, url: Json, kind: MediaKind, caption: Json, env: RouteEnv)
    returns (failure: Option<string>)
    modifies s`trace
    ensures s.trace == old(s.trace) + SendOne(chatId, url, kind, caption, env).effects
    ensures failure == SendOne(chatId, url, kind, caption, env).failure
  {
    s.trace := s.trace + [FetchMedia(url, kind)];
    if env.fetch(0).Err? {
      return Some(env.fetch(0).message);
    }
    s.trace := s.trace + [SendMedia(chatId, url, caption)];
    if env.send(0).Err? {
      return Some(env.send(0).message);
    }
    return None;
  }

  /** The priority branch as the handler runs it. */
  method Deliver(s: Supervisor, chatId: string, b: RequestBody, env: RouteEnv) returns (failure: Option<string>)
    modifies s`trace
    ensures s.trace == old(s.trace) + Dispatch(chatId, SelectContent(b), env).effects
    ensures failure == Dispatch(chatId, SelectContent(b), env).failure
  {
    if Truthy(b.pdfUrl) {
      failure := SendMediaOnce(s, chatId, b.pdfUrl, PdfDocument, Or(b.message, Str("")), env);
    } else if b.imageUrls.Arr? && |b.imageUrls.items| > 0 {
      SendImages(s, chatId, b.imageUrls.items, b.message, env.fetch, env.send);
      failure := None;
    } else if Truthy(b.imageUrl) {
      failure := SendMediaOnce(s, chatId, b.imageUrl, Picture, Or(b.message, Str("")), env);
    } else if Truthy(b.message) {
      s.trace := s.trace + [SendText(chatId, b.message)];
      failure := if env.send(0).Err? then Some(env.send(0).message) else None;
    } else {
      failure := None;
    }
  }

  /** The `catch` of the handler, for a client that was ready. */
  method Recover(s: Supervisor, message: string, cleanup: Cleanup) returns (reply: SendReply)
    requires s.ready
    modifies s`ready, s`trace
    ensures reply == ErrorReply(message)
    ensures s.trace == old(s.trace) + ErrorEffects(message, cleanup)
    ensures s.ready == ReadyAfterError(true, message, cleanup)
  {
    var recoverable := s.HandleSessionError(message, cleanup);
    reply := if recoverable then SessionUnavailable else InternalError;
  }

  /** The handler once the number was found. */
  method SendContentTo(s: Supervisor, chatId: string, b: RequestBody, env: RouteEnv) returns (reply: SendReply)
    requires s.ready
    modifies s`ready, s`trace
    ensures reply == SendContent(chatId, b, env).reply
    ensures s.trace == old(s.trace) + SendContent(chatId, b, env).effects
    ensures s.ready == SendContent(chatId, b, env).ready
  {
    var failure := Deliver(s, chatId, b, env);
    if failure.None? {
      return Sent;
    }
    reply := Recover(s, failure.value, env.cleanup);
  }

  /** The handler from the number lookup on. */
  method LookUpAndSendTo(s: Supervisor, chatId: string, b: RequestBody, env: RouteEnv) returns (reply: SendReply)
    requires s.ready
    modifies s`ready, s`trace
    ensures reply == LookUpAndSend(chatId, b, env).reply
    ensures s.trace == old(s.trace) + LookUpAndSend(chatId, b, env).effects
    ensures s.ready == LookUpAndSend(chatId, b, env).ready
  {
    s.trace := s.trace + [LookupNumber(chatId)];
    match env.numberId {
      case Err(m) =>
        reply := Recover(s, m, env.cleanup);
      case Ok(id) =>
        if !Truthy(id) {
          return NumberNotFound;
        }
        reply := SendContentTo(s, chatId, b, env);
        AppendAssoc(old(s.trace), [LookupNumber(chatId)], SendContent(chatId, b, env).effects);
    }
  }

  /** The handler from the status-recipient check on. */
  method SendValidBody(s: Supervisor, b: RequestBody, env: RouteEnv) returns (reply: SendReply)
    requires Validate(b) == None
    requires s.ready
    modifies s`ready, s`trace
    ensures reply == SendValid(b, env).reply
    ensures s.trace == old(s.trace) + SendValid(b, env).effects
    ensures s.ready == SendValid(b, env).ready
  {
    var chatId := ChatIdOf(b.phoneNumber.s);
    if chatId == "status@c.us" || chatId == "status@broadcast" {
      return RecipientNotAllowed;
    }
    reply := LookUpAndSendTo(s, chatId, b, env);
  }

  /** The handler once the client was found connected. */
  method SendCheckedBody(s: Supervisor, b: RequestBody, env: RouteEnv) returns (reply: SendReply)
    requires s.ready
    modifies s`ready, s`trace
    ensures reply == SendChecked(b, env).reply
    ensures s.trace == old(s.trace) + SendChecked(b, env).effects
    ensures s.ready == SendChecked(b, env).ready
  {
    var invalid := CheckBody(b);
    if invalid.Some? {
      return Invalid(invalid.value);
    }
    reply := SendValidBody(s, b, env);
  }

  /** The handler once the token was accepted. */
  method SendAuthorizedBy(s: Supervisor, b: RequestBody, env: RouteEnv, now: int) returns (reply: SendReply)
    modifies s
    ensures var run := SendAuthorized(b, old(s.ready), env);
      && reply == run.reply
      && s.trace == old(s.trace) + run.effects
      && s.ready == run.ready
    ensures s.lastOp == if old(s.ready) && env.state.Ok? then now else old(s.lastOp)
  {
    var clientReady := s.IsClientReady(now, env.state);
    if !clientReady {
      return NotConnected;
    }
    reply := SendCheckedBody(s, b, env);
    AppendAssoc(old(s.trace), [GetState], SendChecked(b, env).effects);
  }

  /** The `POST /send` handler. */
  method HandleSend(s: Supervisor, cfg: Config, req: SendRequest, env: RouteEnv, now: int)
    returns (reply: SendReply)
    modifies s
    ensures var run := SendRun(cfg.tokenAccess, req, old(s.ready), env);
      && reply == run.reply
      && s.trace == old(s.trace) + run.effects
      && s.ready == run.ready
    ensures s.lastOp ==
      if Answered(cfg.tokenAccess, req, old(s.ready), env) then now else old(s.lastOp)
  {
    var denied := Authorize(req.authorization, cfg.tokenAccess);
    if denied.Some? {
      return denied.value;
    }
    reply := SendAuthorizedBy(s, req.body, env, now);
  }

  /** The `GET /test` handler: 200 exactly when the readiness probe passes. */
  method HandleTest(s: Supervisor, now: int, state: Result<string>) returns (reply: TestReply)
    modifies s
    ensures reply.Status() == 200 <==> old(s.ready) && state == Ok(Connected)
    ensures reply.Status() != 200 ==> reply.Status() == 503
    ensures s.ready == (old(s.ready) && state.Ok?)
    ensures s.trace == old(s.trace) + if old(s.ready) then [GetState] else []
    ensures s.lastOp == if old(s.ready) && state.Ok? then now else old(s.lastOp)
  {
    var clientReady := s.IsClientReady(now, state);
    reply := if clientReady then TestPassed else TestFailed;
  }
}
