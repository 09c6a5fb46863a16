/** The token gate in front of the protected product routes
    (backend/middleware/auth.js). The token is the second space-separated
    field of the `Authorization` header, in the bearer format of section 2.1
    of RFC 6750 except that the scheme word is never checked; the identity
    provider then resolves it to a user. */
module AuthMiddleware {
  import opened Wrappers
  import opened Text
  import opened Schema

  /** The user object the identity provider returns for a valid token. */
  datatype AuthUser = AuthUser(id: UserId, email: string)

  /** What `auth.getUser(token)` can come back with. */
  datatype Verification =
    | Verified(user: AuthUser)   // a user, no error
    | Rejected(message: string)  // an error object
    | NoUser                     // neither a user nor an error
    | Threw(message: string)     // the call itself threw

  /** The JSON reply the gate sends when it stops the request. */
  datatype Reply = Reply(status: int, success: bool, message: string)

  const MissingToken := Reply(401, false, "Access token required")
  const InvalidToken := Reply(403, false, "Invalid or expired token")
  const GateError := Reply(500, false, "Authentication error")

  /** `authHeader && authHeader.split(' ')[1]`: the second field, where a
      missing header, a missing field and an empty field all count as no
      token. */
  function ExtractToken(header: Option<string>): (token: Option<string>)
    ensures token.Some? ==> token.value != "" && ' ' !in token.value
  {
    match header
    case None => None
    case Some(h) =>
      var fields := Split(h, ' ');
      if |fields| >= 2 && fields[1] != "" then Some(fields[1]) else None
  }

  /** `h` is `scheme`, one space, `token`, and then either nothing or more
      fields after another space, with no space inside `scheme`. */
  ghost predicate HeaderLayout(h: string, scheme: string, token: string, rest: string) {
    && ' ' !in scheme
    && (rest == "" || rest[0] == ' ')
    && h == scheme + " " + token + rest
  }

  /** Where an extracted token comes from: the header is a first word without
      spaces, one space, the token, and then either nothing or more fields
      after another space. */
  lemma ExtractedTokenShape(h: string)
    requires ExtractToken(Some(h)).Some?
    ensures exists scheme, rest :: HeaderLayout(h, scheme, ExtractToken(Some(h)).value, rest)
  {
    var fields := Split(h, ' ');
    var scheme, token := fields[0], fields[1];
    var rest := if |fields| == 2 then "" else " " + Join(fields[2..], ' ');
    assert h == scheme + " " + token + rest by {
      JoinSplit(h, ' ');
      JoinFirstTwo(fields, ' ');
    }
    LayoutWitness(h, scheme, token, rest);
  }

  /** A layout with that token exists once one is exhibited. */
  lemma LayoutWitness(h: string, scheme: string, token: string, rest: string)
    requires HeaderLayout(h, scheme, token, rest)
    ensures exists s, r :: HeaderLayout(h, s, token, r)
  {
  }

  /** Any first word is accepted: a word without spaces, one space and a
      non-empty token without spaces yields that token, whether the word is
      `Bearer` or anything else. */
  lemma AnySchemeWord(scheme: string, token: string)
    requires ' ' !in scheme && ' ' !in token && token != ""
    ensures ExtractToken(Some(scheme + " " + token)) == Some(token)
  {
    SplitAfterFirst(scheme, token, ' ');
    SplitNoSeparator(token, ' ');
  }

  /** Two spaces after the first word leave the second field empty, so no
      token is found. */
  lemma DoubleSpaceNoToken(scheme: string, token: string)
    requires ' ' !in scheme
    ensures ExtractToken(Some(scheme + "  " + token)) == None
  {
    SplitAfterFirst(scheme, " " + token, ' ');
    assert scheme + "  " + token == scheme + [' '] + (" " + token);
    assert Split(" " + token, ' ') == [""] + Split(token, ' ') by {
      assert (" " + token)[1..] == token;
    }
  }

  /** A header without a space has no second field. */
  lemma NoSpaceNoToken(h: string)
    requires ' ' !in h
    ensures ExtractToken(Some(h)) == None
  {
    SplitNoSeparator(h, ' ');
  }

  /** The gate's decision: stop with a reply, or let the request through with
      the verified user. */
  datatype Decision = Pass(user: AuthUser) | Stop(reply: Reply)

  /** `authenticateToken`'s decision, with `verify` standing for the identity
      provider's `getUser`: 401 without a token (the provider is not asked),
      403 when the provider returns an error or no user, 500 when the call
      throws, and otherwise the provider's user. */
  function Gate(header: Option<string>, verify: string -> Verification): (d: Decision)
    ensures ExtractToken(header).None? ==> d == Stop(MissingToken)
    ensures d.Pass? <==> ExtractToken(header).Some? && verify(ExtractToken(header).value).Verified?
    ensures d.Pass? ==> d.user == verify(ExtractToken(header).value).user
    ensures d == Stop(InvalidToken) <==>
      ExtractToken(header).Some? && (verify(ExtractToken(header).value).Rejected? || verify(ExtractToken(header).value) == NoUser)
    ensures d == Stop(GateError) <==> ExtractToken(header).Some? && verify(ExtractToken(header).value).Threw?
  {
    match ExtractToken(header)
    case None => Stop(MissingToken)
    case Some(token) =>
      match verify(token)
      case Verified(user) => Pass(user)
      case Rejected(_) => Stop(InvalidToken)
      case NoUser => Stop(InvalidToken)
      case Threw(_) => Stop(GateError)
  }

  /** One request/response pair as the middleware handles it: the header it
      reads, and what it changes: `req.user`, the calls of `next`, the reply
      sent, and the tokens handed to the identity provider. */
  class Exchange {
    const authorization: Option<string>
    var user: Option<AuthUser>
    var nextCalls: nat
    var reply: Option<Reply>
    var verifierCalls: seq<string>

    constructor (authorization: Option<string>)
      ensures this.authorization == authorization
      ensures user == None && nextCalls == 0 && reply == None && verifierCalls == []
    {
      this.authorization := authorization;
      user := None;
      nextCalls := 0;
      reply := None;
      verifierCalls := [];
    }

    /** `authenticateToken(req, res, next)`. */
    method AuthenticateToken(verify: string -> Verification)
      modifies this
      ensures verifierCalls == old(verifierCalls) + (match ExtractToken(authorization) case Some(t) => [t] case None => [])
      ensures Gate(authorization, verify).Pass? ==>
        user == Some(Gate(authorization, verify).user) && nextCalls == old(nextCalls) + 1 && reply == old(reply)
      ensures Gate(authorization, verify).Stop? ==>
        user == old(user) && nextCalls == old(nextCalls) && reply == Some(Gate(authorization, verify).reply)
    {
      var token := ExtractToken(authorization);
      if token.None? {
        reply := Some(MissingToken);
        return;
      }
      verifierCalls := verifierCalls + [token.value];
      var outcome := verify(token.value);
      match outcome {
        case Verified(u) =>
          user := Some(u);
          nextCalls := nextCalls + 1;
        case Rejected(_) =>
          reply := Some(InvalidToken);
        case NoUser =>
          reply := Some(InvalidToken);
        case Threw(_) =>
          reply := Some(GateError);
      }
    }
  }
}
