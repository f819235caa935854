/**
 * The server's `auth` middleware: take the bearer token out of the
 * `Authorization` header, verify it, look its user up, and either let the
 * request through (`next`) or answer 401. Token verification and the user
 * lookup are oracles passed in as functions.
 */
module AuthMiddleware {
  import opened Wrappers
  import opened Strings

  /** The claims a verified token carries. */
  datatype DecodedToken = DecodedToken(userId: string, email: string)

  /** `User.findOne` on the claims: a match, no match, or a thrown error. */
  datatype Lookup = Found | NotFound | LookupFailed

  const NoTokenError: string := "Unauthorized: No token provided"
  const UserNotFoundError: string := "Unauthorized: User not found"
  const InvalidTokenError: string := "Unauthorized: Invalid or expired token"

  /**
   * `authorization?.split(' ')[1]`: the second space-separated field of the
   * header, present exactly when the header contains a space.
   */
  function BearerToken(authorization: Option<string>): (t: Option<string>)
    ensures t.Some? <==> authorization.Some? && Contains(authorization.value, " ")
    ensures t.Some? ==>
      var h := authorization.value;
      var scheme := Split(h, " ")[0];
      var upTo := scheme + " " + t.value;
      && !Contains(scheme, " ") && !Contains(t.value, " ")
      && StartsWith(h, upTo)
      && (|h| == |upTo| || h[|upTo|] == ' ')
  {
    match authorization
    case None => None
    case Some(h) =>
      var fields := Split(h, " ");
      SplitSinglePart(h, " ");
      SplitPartsFree(h, " ");
      if |fields| >= 2 then
        SplitFirstTwo(h, " ");
        Some(fields[1])
      else None
  }

  /** The middleware's verdict: call `next` with the decoded claims, or send one error response. */
  datatype Decision = CallNext(user: DecodedToken) | Respond(status: int, error: string)

  function Authenticate(
    authorization: Option<string>,
    verify: string -> Option<DecodedToken>,
    lookup: DecodedToken -> Lookup): (d: Decision)
    ensures d.Respond? ==> d.status == 401
    ensures d == Respond(401, NoTokenError) <==> !Truthy(BearerToken(authorization))
    ensures d == Respond(401, InvalidTokenError) <==>
      var t := BearerToken(authorization);
      Truthy(t) && (verify(t.value).None? || lookup(verify(t.value).value) == LookupFailed)
    ensures d == Respond(401, UserNotFoundError) <==>
      var t := BearerToken(authorization);
      Truthy(t) && verify(t.value).Some? && lookup(verify(t.value).value) == NotFound
    ensures d.CallNext? <==>
      var t := BearerToken(authorization);
      Truthy(t) && verify(t.value).Some? && lookup(verify(t.value).value) == Found
    ensures d.CallNext? ==> d.user == verify(BearerToken(authorization).value).value
  {
    var token := BearerToken(authorization);
    if !Truthy(token) then Respond(401, NoTokenError)
    else match verify(token.value)
      case None => Respond(401, InvalidTokenError)
      case Some(decoded) =>
        match lookup(decoded)
        case NotFound => Respond(401, UserNotFoundError)
        case LookupFailed => Respond(401, InvalidTokenError)
        case Found => CallNext(decoded)
  }

  /** One request passing through the middleware: `req.user`, the responses sent, the calls to `next`. */
  class Exchange {
    const authorization: Option<string>
    var user: Option<DecodedToken>
    var sent: seq<(int, string)>
    var nextCalls: nat

    constructor (authorization: Option<string>)
      ensures this.authorization == authorization
      ensures user.None? && sent == [] && nextCalls == 0
    {
      this.authorization := authorization;
      user := None;
      sent := [];
      nextCalls := 0;
    }

    /**
     * `auth`: on success it sets `req.user` and calls `next` once and sends
     * nothing; otherwise it sends exactly one 401 and never calls `next`.
     */
    method Auth(verify: string -> Option<DecodedToken>, lookup: DecodedToken -> Lookup)
      modifies this
      ensures match Authenticate(authorization, verify, lookup)
        case CallNext(u) =>
          user == Some(u) && nextCalls == old(nextCalls) + 1 && sent == old(sent)
        case Respond(status, error) =>
          sent == old(sent) + [(status, error)] && nextCalls == old(nextCalls) && user == old(user)
    {
      var token := BearerToken(authorization);
      if !Truthy(token) {
        sent := sent + [(401, NoTokenError)];
        return;
      }
      var decoded := verify(token.value);
      if decoded.None? {
        sent := sent + [(401, InvalidTokenError)];
        return;
      }
      var found := lookup(decoded.value);
      if found == NotFound {
        sent := sent + [(401, UserNotFoundError)];
        return;
      }
      if found == LookupFailed {
        sent := sent + [(401, InvalidTokenError)];
        return;
      }
      user := decoded;
      nextCalls := nextCalls + 1;
    }
  }
}
