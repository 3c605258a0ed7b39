/** The authentication gate (server/middleware/authJwt.js): the token stored
    in the session is verified and its claims attached to the request as
    `req.user`; otherwise the request is refused with 401. */
module AuthJwt {
  import opened Runtime
  import opened SessionConfig

  const AuthTokenKey := "authToken"
  const SessionExpiredMessage := "Session expired."
  const InvalidTokenMessage := "Invalid token."

  /** `jwt.verify(token, secret)`: the decoded claims, or a throw when the
      token is not a well-formed token signed with that secret. */
  type JwtVerify = (Value, string) -> Completion<Value>

  /** The three ways the gate can end. */
  datatype Decision = Authenticated(claims: Value) | SessionExpired | InvalidToken

  /** The gate's decision for the session token `token`, verified with `secret`. */
  function Decide(token: Value, secret: string, verify: JwtVerify): (d: Decision)
    ensures d == SessionExpired <==> !Truthy(token)
    ensures d == InvalidToken <==> Truthy(token) && verify(token, secret).Throw?
    ensures d.Authenticated? <==> Truthy(token) && verify(token, secret).Normal?
    ensures d.Authenticated? ==> d.claims == verify(token, secret).value
  {
    if !Truthy(token) then SessionExpired
    else match verify(token, secret)
      case Normal(decoded) => Authenticated(decoded)
      case Throw(_) => InvalidToken
  }

  /** What the request sees of a decision. */
  function Answer(d: Decision): (r: Outcome)
    ensures r == Proceed <==> d.Authenticated?
    ensures r != Proceed ==> r.Respond? && r.status == 401
    ensures d.SessionExpired? ==> r == Respond(401, SessionExpiredMessage)
    ensures d.InvalidToken? ==> r == Respond(401, InvalidTokenMessage)
  {
    match d
    case Authenticated(_) => Proceed
    case SessionExpired => Respond(401, SessionExpiredMessage)
    case InvalidToken => Respond(401, InvalidTokenMessage)
  }

  /** Every request ends in exactly one of: proceed, 401 "Session expired.", 401 "Invalid token.". */
  lemma ThreeEndings(token: Value, secret: string, verify: JwtVerify)
    ensures var o := Answer(Decide(token, secret, verify));
      || (o == Proceed && Truthy(token))
      || (o == Respond(401, SessionExpiredMessage) && !Truthy(token))
      || (o == Respond(401, InvalidTokenMessage) && Truthy(token))
  {
  }

  /** Without a token, the verifier plays no part in the decision. */
  lemma ExpiredIgnoresVerifier(token: Value, secret: string, verify: JwtVerify, other: JwtVerify)
    requires !Truthy(token)
    ensures Decide(token, secret, verify) == Decide(token, secret, other) == SessionExpired
  {
  }

  /** A session that holds no truthy token, such as the fresh one that
      replaces a destroyed session, is refused whatever the secret and the verifier. */
  lemma NoTokenSessionExpired(data: map<string, Value>, secret: string, verify: JwtVerify)
    requires !Truthy(Lookup(data, AuthTokenKey))
    ensures Answer(Decide(Lookup(data, AuthTokenKey), secret, verify)) == Respond(401, SessionExpiredMessage)
  {
  }

  /** The request as the gate sees it: its session and the `user` field the gate may set. */
  class Request {
    const session: Session
    var user: Value

    constructor (session: Session)
      ensures this.session == session && user == Undefined
    {
      this.session := session;
      user := Undefined;
    }
  }

  /** `verifyJwt(req, res, next)`, with `jwtSecret` the environment variable
      JWT_SECRET. The token is verified with the text the session cookie is
      signed with. Reading a token from a destroyed session throws. */
  method VerifyJwt(req: Request, jwtSecret: Option<string>, verify: JwtVerify) returns (o: Outcome)
    modifies req`user
    ensures unchanged(req.session)
    ensures req.session.destroyed ==> o.Raise? && req.user == old(req.user)
    ensures !req.session.destroyed ==>
      var d := Decide(Lookup(req.session.data, AuthTokenKey), InitializeSession(jwtSecret).secret, verify);
      && o == Answer(d)
      && req.user == (if d.Authenticated? then d.claims else old(req.user))
  {
    var read := req.session.GetSession(AuthTokenKey);
    if read.Throw? {
      return Raise(read.error);
    }
    var token := read.value;
    if !Truthy(token) {
      return Respond(401, SessionExpiredMessage);
    }
    match verify(token, EnvString(jwtSecret)) {
      case Normal(decoded) =>
        req.user := decoded;
        o := Proceed;
      case Throw(_) =>
        o := Respond(401, InvalidTokenMessage);
    }
  }
}
