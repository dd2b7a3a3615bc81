/**
 * The authorization gate `protect` of src/controllers/authControllers.ts.
 *
 * It takes the bearer token from the `Authorization` header, forwards it to
 * the identity service and sorts the reply into four outcomes: no token or a
 * 401 reply (401 `fail`), any other non-200 status (500 `error`), or a 200
 * reply, which attaches the user to the request and calls `next()`. A call
 * that throws is left to the `catchAsync` guard (500 `fail`). The identity
 * service is a parameter: a function from the header sent to the reply.
 */
module AuthControllers {
  import opened Wrappers
  import opened RainlogTypes
  import opened Strings
  import opened Http
  import opened AsyncGuard

  const NotLoggedInMessage := "You are not logged in! Please log in to get access."
  const UpstreamMessage := "Something went wrong. Please try again later."

  /** The answer to a request without a usable token, or one the identity service refuses. */
  const NotLoggedIn := Response(401, None, Envelope(Fail, Some(NotLoggedInMessage), None, None))

  /** The answer when the identity service replies with a status other than 200 or 401. */
  const UpstreamFailure := Response(500, None, Envelope(Error, Some(UpstreamMessage), None, None))

  /** The reply body as the gate reads `authData.data.user`: not JSON, JSON without `data`, or `data` with or without a user. */
  datatype AuthBody = Unparseable | WithoutData | WithData(user: Option<User>)

  /** One call to the identity service: it throws (the 30 s timeout or a network failure) or replies. */
  datatype AuthReply = Unreachable | Replied(status: int, body: AuthBody)

  /** The decision of the gate: let the request through with a user, answer it, or throw. */
  datatype GateResult = Admit(user: Option<User>) | Refuse(response: Response) | Throw(reason: Failure)

  /** The `Authorization` header the gate sends to the identity service. */
  function AuthHeader(token: string): string
  {
    "Bearer " + token
  }

  /**
   * The token taken from the header: the header must be present, non-empty
   * and start with "Bearer" (no space required), and the token is the second
   * piece of `split(' ')`; an absent or empty piece counts as no token.
   */
  function BearerToken(header: Option<string>): (token: Option<string>)
    ensures token.Some? ==> header.Some? && StartsWith(header.value, "Bearer")
    ensures token.Some? ==> token.value != "" && ' ' !in token.value
  {
    if header.Some? && header.value != "" && StartsWith(header.value, "Bearer") then
      var pieces := Split(header.value, ' ');
      if |pieces| > 1 && pieces[1] != "" then Some(pieces[1]) else None
    else None
  }

  /** The token is forwarded unchanged: the header sent to the identity service yields the same token again. */
  lemma BearerRoundTrip(token: string)
    requires token != "" && ' ' !in token
    ensures BearerToken(Some(AuthHeader(token))) == Some(token)
  {
    assert "Bearer"[..6] == "Bearer";
    TokenIsSecondPiece("Bearer", token, "");
    assert AuthHeader(token) == "Bearer" + [' '] + token + "";
  }

  /** A header that starts with "Bearer" and holds no space has no second piece: no token. */
  lemma NoSpaceHasNoToken(header: string)
    requires StartsWith(header, "Bearer") && ' ' !in header
    ensures BearerToken(Some(header)) == None
  {
    SplitWithoutSeparator(header, ' ');
  }

  /** "Bearer" alone has no second piece: no token. */
  lemma BearerAloneHasNoToken()
    ensures BearerToken(Some("Bearer")) == None
  {
    assert "Bearer"[..6] == "Bearer";
    NoSpaceHasNoToken("Bearer");
  }

  /** Two spaces after "Bearer" make the second piece empty: no token. */
  lemma DoubleSpaceHasNoToken()
    ensures BearerToken(Some("Bearer  abc")) == None
  {
    assert "Bearer"[..6] == "Bearer";
    assert "Bearer  abc" == "Bearer" + [' '] + ([' '] + "abc");
    SecondSpaceHasNoToken("Bearer", "abc");
  }

  /** A first piece that starts with "Bearer", then two spaces: the second piece is empty, so there is no token. */
  lemma SecondSpaceHasNoToken(first: string, rest: string)
    requires StartsWith(first, "Bearer") && ' ' !in first
    ensures BearerToken(Some(first + [' '] + ([' '] + rest))) == None
  {
    SplitAtFirstSeparator(first, ' ', [' '] + rest);
    SplitAtFirstSeparator("", ' ', rest);
    assert [' '] + rest == "" + [' '] + rest;
  }

  /** "BearerXYZ" passes the prefix test, which has no trailing space, but has no second piece: no token. */
  lemma GluedPrefixHasNoToken()
    ensures BearerToken(Some("BearerXYZ")) == None
  {
    assert "BearerXYZ"[..6] == "Bearer";
    NoSpaceHasNoToken("BearerXYZ");
  }

  /**
   * A header made of a first piece that starts with "Bearer", one space, a
   * non-empty token without spaces, and nothing else or a space and anything,
   * yields exactly that token.
   */
  lemma TokenIsSecondPiece(first: string, token: string, rest: string)
    requires StartsWith(first, "Bearer") && ' ' !in first
    requires token != "" && ' ' !in token
    requires rest == "" || rest[0] == ' '
    ensures BearerToken(Some(first + [' '] + token + rest)) == Some(token)
  {
    var header := first + [' '] + token + rest;
    assert header == first + [' '] + (token + rest);
    assert header[..6] == first[..6];
    SplitAtFirstSeparator(first, ' ', token + rest);
    if rest == "" {
      assert token + rest == token;
      SplitWithoutSeparator(token, ' ');
    } else {
      assert token + rest == token + [' '] + rest[1..];
      SplitAtFirstSeparator(token, ' ', rest[1..]);
    }
  }

  /** Because the prefix test has no trailing space, "BearerXYZ abc" is accepted with token "abc". */
  lemma GluedPrefixWithTokenPasses()
    ensures BearerToken(Some("BearerXYZ abc")) == Some("abc")
  {
    assert "BearerXYZ"[..6] == "Bearer";
    TokenIsSecondPiece("BearerXYZ", "abc", "");
    assert "BearerXYZ" + [' '] + "abc" + "" == "BearerXYZ abc";
  }

  /** Pieces after the second are ignored. */
  lemma ExtraPiecesIgnored()
    ensures BearerToken(Some("Bearer abc def")) == Some("abc")
  {
    assert "Bearer"[..6] == "Bearer";
    TokenIsSecondPiece("Bearer", "abc", " def");
    assert "Bearer" + [' '] + "abc" + " def" == "Bearer abc def";
  }

  /** Another scheme fails the prefix test. */
  lemma OtherSchemeHasNoToken()
    ensures BearerToken(Some("Basic abc")) == None
  {
    assert "Basic abc"[..6] != "Bearer" by { assert "Basic abc"[1] != "Bearer"[1]; }
  }

  /**
   * The decision of `protect` for a header, given how the identity service
   * answers: only a 200 reply with a `data` object admits, with `data.user`.
   */
  function Gate(header: Option<string>, verify: string -> AuthReply): (g: GateResult)
    ensures BearerToken(header).None? ==> g == Refuse(NotLoggedIn)
    ensures g.Admit? <==>
      BearerToken(header).Some? && verify(AuthHeader(BearerToken(header).value)).Replied? &&
      verify(AuthHeader(BearerToken(header).value)).status == 200 &&
      verify(AuthHeader(BearerToken(header).value)).body.WithData?
    ensures g.Admit? ==> g.user == verify(AuthHeader(BearerToken(header).value)).body.user
  {
    match BearerToken(header)
    case None => Refuse(NotLoggedIn)
    case Some(token) =>
      match verify(AuthHeader(token))
      case Unreachable => Throw(FetchFailed)
      case Replied(status, body) =>
        if status == 401 then Refuse(NotLoggedIn)
        else if status != 200 then Refuse(UpstreamFailure)
        else
          match body
          case WithData(user) => Admit(user)
          case _ => Throw(MalformedAuthReply)
  }

  /** What the exported `protect` (the gate inside `catchAsync`) does with the request. */
  function GateEffect(g: GateResult): (e: Effect)
    ensures e == Next <==> g.Admit?
  {
    match g
    case Admit(_) => Next
    case Refuse(response) => Sent(response)
    case Throw(reason) => CatchAsync(Rejected(reason))
  }

  /**
   * How the identity service's reply is classified once a token was sent:
   * 401 gives 401 `fail`, any status other than 200 and 401 (other 2xx codes
   * too) gives 500 `error`, and a call that throws gives the guard's 500 `fail`.
   */
  lemma ReplyClassification(header: Option<string>, verify: string -> AuthReply)
    requires BearerToken(header).Some?
    ensures var reply := verify(AuthHeader(BearerToken(header).value));
      && (reply.Replied? && reply.status == 401 ==> GateEffect(Gate(header, verify)) == Sent(NotLoggedIn))
      && (reply.Replied? && reply.status != 401 && reply.status != 200 ==>
            GateEffect(Gate(header, verify)) == Sent(UpstreamFailure))
      && (reply.Unreachable? ==> GateEffect(Gate(header, verify)) == Sent(InternalError))
  {
  }

  /** A thrown call is not the `error` branch: both are 500, but the envelopes differ. */
  lemma ThrownCallDistinctFromUpstreamError()
    ensures InternalError.code == UpstreamFailure.code
    ensures InternalError.body.status == Fail && UpstreamFailure.body.status == Error
    ensures InternalError != UpstreamFailure
  {
  }

  /** Without a usable token the identity service is never consulted: its answers cannot change the outcome. */
  lemma NoTokenNoCall(header: Option<string>, verify1: string -> AuthReply, verify2: string -> AuthReply)
    requires BearerToken(header).None?
    ensures Gate(header, verify1) == Gate(header, verify2) == Refuse(NotLoggedIn)
  {
  }

  /**
   * `protect`: on admission it sets `req.user` and passes the request on;
   * on every other path `req.user` is untouched and the request is answered.
   * `calls` lists the `Authorization` headers sent to the identity service:
   * none without a token, otherwise exactly `Bearer <token>`.
   */
  method Protect(req: Request, verify: string -> AuthReply) returns (effect: Effect, calls: seq<string>)
    modifies req`user
    ensures effect == GateEffect(Gate(req.authorization, verify))
    ensures Gate(req.authorization, verify).Admit? ==> req.user == Gate(req.authorization, verify).user
    ensures !Gate(req.authorization, verify).Admit? ==> req.user == old(req.user)
    ensures calls == if BearerToken(req.authorization).Some? then [AuthHeader(BearerToken(req.authorization).value)] else []
  {
    // 1) the token, from the Authorization header only
    var token: Option<string> := None;
    var header := req.authorization;
    if header.Some? && header.value != "" && StartsWith(header.value, "Bearer") {
      var pieces := Split(header.value, ' ');
      if |pieces| > 1 {
        token := Some(pieces[1]);
      }
    }
    if token.None? || token.value == "" {
      return Sent(NotLoggedIn), [];
    }
    // 2) verification by the identity service
    calls := [AuthHeader(token.value)];
    var reply := verify(AuthHeader(token.value));
    if reply.Unreachable? {
      return CatchAsync(Rejected(FetchFailed)), calls;
    }
    if reply.status == 401 {
      return Sent(NotLoggedIn), calls;
    } else if reply.status != 200 {
      return Sent(UpstreamFailure), calls;
    }
    if !reply.body.WithData? {
      return CatchAsync(Rejected(MalformedAuthReply)), calls;
    }
    // 3) access granted: the user is attached to the request
    req.user := reply.body.user;
    effect := Next;
  }
}
