/**
 * `verifyToken` (Backend/middleware/auth.middleware.js): the bearer-token
 * check of RFC 6750, section 2.1 ("Authorization: Bearer <token>"), with the
 * token verification of the identity provider as an oracle. On success the
 * request gets the decoded token and a session record, and `next` runs once.
 */
module AuthMiddleware {
  import opened Common
  import JsString

  datatype DecodedToken = DecodedToken(uid: string, email: Option<string>, name: Option<string>)

  datatype SessionData = SessionData(uid: string, email: Option<string>, displayName: string, onboardingComplete: bool, expiresAt: int)

  /** The 401 responses; on success no response is written here. */
  datatype AuthFailure = NoToken | InvalidToken

  function FailureMessage(f: AuthFailure): string {
    match f
    case NoToken => "Unauthorized: No token provided"
    case InvalidToken => "Unauthorized: Invalid token"
  }

  const BearerPrefix: string := "Bearer "

  /** 24 hours, in milliseconds. */
  const SessionLifetime: int := 24 * 60 * 60 * 1000

  /** `authHeader.split(" ")[1]`, once the header is known to start with "Bearer ". */
  function BearerToken(header: Option<string>): (token: Option<string>)
    ensures token.None? <==> header.None? || !JsString.StartsWith(header.value, BearerPrefix)
  {
    if header.None? || !JsString.StartsWith(header.value, BearerPrefix) then None
    else
      var h := header.value;
      SplitAfterBearer(h);
      Some(JsString.Split(h, ' ')[1])
  }

  /** A header "Bearer rest" splits into "Bearer" and then the pieces of `rest`. */
  lemma SplitAfterBearer(h: string)
    requires JsString.StartsWith(h, BearerPrefix)
    ensures JsString.Split(h, ' ') == ["Bearer"] + JsString.Split(h[|BearerPrefix|..], ' ')
  {
    assert h[6] == ' ';
    assert ' ' in h;
    assert JsString.IndexOf(h, ' ') == 6 by {
      assert ' ' !in h[..6] by { assert h[..6] == "Bearer"; }
    }
    assert h[..6] == "Bearer";
  }

  /** The token is what follows "Bearer " up to the next space (so "Bearer abc" gives "abc"). */
  lemma BearerTokenIsFirstField(h: string)
    requires JsString.StartsWith(h, BearerPrefix)
    ensures var rest := h[|BearerPrefix|..];
      BearerToken(Some(h)) == Some(JsString.Split(rest, ' ')[0])
      && (' ' !in rest ==> BearerToken(Some(h)) == Some(rest))
      && ' ' !in BearerToken(Some(h)).value
  {
    SplitAfterBearer(h);
    JsString.SplitJoin(h[|BearerPrefix|..], ' ');
  }

  lemma BearerTokenExample()
    ensures BearerToken(Some("Bearer abc")) == Some("abc")
  {
    BearerTokenIsFirstField("Bearer abc");
  }

  /** The prefix is case-sensitive: a lower-case scheme is refused. */
  lemma LowerCaseSchemeRefused()
    ensures BearerToken(Some("bearer abc")) == None
  {
    assert "bearer abc"[..7] != BearerPrefix by { assert "bearer abc"[0] != BearerPrefix[0]; }
  }

  /** The session record the middleware attaches (a fixed stand-in; no session store is consulted). */
  function SessionFor(t: DecodedToken, now: int): (s: SessionData)
    ensures s.uid == t.uid && s.email == t.email && s.onboardingComplete
    ensures s.displayName == (if JsString.Truthy(t.name) then t.name.value else "User")
    ensures s.expiresAt == now + 86400000
  {
    SessionData(t.uid, t.email, if JsString.Truthy(t.name) then t.name.value else "User", true, now + SessionLifetime)
  }

  /** The parts of the Express request and response the middleware touches. */
  class AuthContext {
    const authorization: Option<string>
    var user: Option<DecodedToken>
    var sessionData: Option<SessionData>
    var failure: Option<AuthFailure>
    var nextCalls: nat

    constructor (authorization: Option<string>)
      ensures this.authorization == authorization
      ensures user == None && sessionData == None && failure == None && nextCalls == 0
    {
      this.authorization := authorization;
      user := None;
      sessionData := None;
      failure := None;
      nextCalls := 0;
    }

    /** `verifyToken(req, res, next)`; `verify` is the identity provider's check of the ID token. */
    method VerifyToken(verify: string -> Option<DecodedToken>, now: int)
      requires user == None && sessionData == None && failure == None && nextCalls == 0
      modifies this
      ensures BearerToken(authorization).None? ==>
        failure == Some(NoToken) && nextCalls == 0 && user == None && sessionData == None
      ensures BearerToken(authorization).Some? && verify(BearerToken(authorization).value).None? ==>
        failure == Some(InvalidToken) && nextCalls == 0 && user == None && sessionData == None
      ensures BearerToken(authorization).Some? && verify(BearerToken(authorization).value).Some? ==>
        var t := verify(BearerToken(authorization).value).value;
        failure == None && nextCalls == 1 && user == Some(t) && sessionData == Some(SessionFor(t, now))
      ensures nextCalls == 1 <==> failure == None
    {
      var token := BearerToken(authorization);
      if token.None? {
        failure := Some(NoToken);
        return;
      }
      var decoded := verify(token.value);
      if decoded.None? {
        failure := Some(InvalidToken);
        return;
      }
      user := decoded;
      sessionData := Some(SessionFor(decoded.value, now));
      nextCalls := nextCalls + 1;
    }
  }
}
