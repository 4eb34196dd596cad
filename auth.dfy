/** The `protect` middleware of server/middleware/auth.js: it picks the
    request's token (the Authorization header first, then the `token`
    cookie), verifies it, looks its user up and, only when all of that
    succeeds, attaches the user to the request and passes it on. Token
    verification and the user lookup are foreign code and come in as
    functions. */
module Auth {
  import opened Js
  import opened TaskSchema

  /** A user record as the lookup returns it, without its password. */
  datatype User = User(id: UserId, name: string, email: string)

  /** What `jwt.verify` does with a token: it returns the decoded payload,
      whose `id` names a user, or it throws an error with a `name`. */
  datatype Verification = Decoded(id: UserId) | Thrown(name: string)

  /** What `User.findById(...).select("-password")` settles to: a user,
      `null`, or a rejection. */
  datatype Lookup = Found(user: User) | NotFound | Rejected

  /** What the middleware does with the request: call `next()`, or answer
      with a status code and a message. */
  datatype Reply = Next | Respond(code: int, message: string)

  const NoTokenMessage: string := "Not authorized to access this route"
  const ExpiredMessage: string := "Token expired"
  const InvalidMessage: string := "Token is not valid"
  const NoUserMessage: string := "No user found with this token"
  const ServerErrorMessage: string := "Server Error"
  const ExpiredErrorName: string := "TokenExpiredError"

  // ---------------------------------------------------------------------
  // Specification

  /** The second space-separated piece, `undefined` when there is none. */
  function SecondPiece(s: string): (r: Option<string>)
    ensures r.Some? ==> ' ' !in r.value
    ensures r.None? <==> ' ' !in s
  {
    var pieces := Split(s, ' ');
    if |pieces| > 1 then Some(pieces[1]) else None
  }

  /** The token a header yields: the second piece of a header that starts
      with "Bearer", nothing otherwise. */
  function HeaderToken(authorization: Option<string>): Option<string> {
    if authorization.Some? && authorization.value != "" && StartsWith(authorization.value, "Bearer")
    then SecondPiece(authorization.value)
    else None
  }

  /** The `token` cookie, when the request has cookies and that one is set. */
  function CookieToken(cookies: Option<map<string, string>>): Option<string> {
    if cookies.Some? && "token" in cookies.value && cookies.value["token"] != ""
    then Some(cookies.value["token"])
    else None
  }

  /** The token the middleware goes on with: the header's when it is
      truthy, else the cookie's; `None` when neither yields a non-empty one. */
  function TokenOf(authorization: Option<string>, cookies: Option<map<string, string>>): (r: Option<string>)
    ensures r.Some? ==> r.value != ""
    ensures Truthy(HeaderToken(authorization)) ==> r == HeaderToken(authorization)
    ensures !Truthy(HeaderToken(authorization)) ==> r == CookieToken(cookies)
  {
    var header := HeaderToken(authorization);
    if Truthy(header) then header else CookieToken(cookies)
  }

  /** The reply for a token: 401 without one, 401 with the failure's
      message when verification throws, 401 when the user is gone, 500
      when the lookup rejects, and `next()` otherwise. */
  function Decide(token: Option<string>, verify: string -> Verification, findById: UserId -> Lookup): Reply {
    if token.None? then Respond(401, NoTokenMessage)
    else
      match verify(token.value)
      case Thrown(name) => Respond(401, if name == ExpiredErrorName then ExpiredMessage else InvalidMessage)
      case Decoded(id) =>
        match findById(id)
        case NotFound => Respond(401, NoUserMessage)
        case Rejected => Respond(500, ServerErrorMessage)
        case Found(_) => Next
  }

  /** The user the middleware attaches on the success path. */
  function Attached(token: Option<string>, verify: string -> Verification, findById: UserId -> Lookup): Option<User> {
    if token.Some? && verify(token.value).Decoded? && findById(verify(token.value).id).Found?
    then Some(findById(verify(token.value).id).user)
    else None
  }

  // ---------------------------------------------------------------------
  // The request

  /** The parts of `req` the middleware reads and writes. */
  class Request {
    var authorization: Option<string>
    var cookies: Option<map<string, string>>
    var user: Option<User>

    constructor (authorization: Option<string>, cookies: Option<map<string, string>>)
      ensures this.authorization == authorization && this.cookies == cookies && user.None?
    {
      this.authorization := authorization;
      this.cookies := cookies;
      user := None;
    }

    /** `protect`: the token is picked step by step, then verified and
        resolved; the user is attached only when the request goes on. */
    method Protect(verify: string -> Verification, findById: UserId -> Lookup) returns (r: Reply)
      modifies this`user
      ensures var token := TokenOf(authorization, cookies);
              && r == Decide(token, verify, findById)
              && (r.Next? ==> user == Attached(token, verify, findById))
              && (!r.Next? ==> user == old(user))
    {
      var token: Option<string> := None;
      if authorization.Some? && authorization.value != "" && StartsWith(authorization.value, "Bearer") {
        token := SecondPiece(authorization.value);
      }
      if !Truthy(token) && cookies.Some? && "token" in cookies.value && cookies.value["token"] != "" {
        token := Some(cookies.value["token"]);
      }
      if !Truthy(token) {
        return Respond(401, NoTokenMessage);
      }
      var decoded := verify(token.value);
      if decoded.Thrown? {
        var message := if decoded.name == ExpiredErrorName then ExpiredMessage else InvalidMessage;
        return Respond(401, message);
      }
      var found := findById(decoded.id);
      if found.Rejected? {
        return Respond(500, ServerErrorMessage);
      }
      if found.NotFound? {
        return Respond(401, NoUserMessage);
      }
      user := Some(found.user);
      return Next;
    }
  }

  // ---------------------------------------------------------------------
  // Properties

  /** "Bearer <token>" yields the token, whatever the cookie says. */
  lemma BearerHeaderWins(t: string, cookies: Option<map<string, string>>)
    requires t != "" && ' ' !in t
    ensures TokenOf(Some("Bearer " + t), cookies) == Some(t)
  {
    assert "Bearer " + t == "Bearer" + [' '] + t;
    SplitAfterFirst("Bearer", ' ', t);
    SplitWithoutSeparator(t, ' ');
    assert StartsWith("Bearer " + t, "Bearer");
  }

  /** A header with two spaces after "Bearer" has an empty second piece,
      so the cookie is used. */
  lemma DoubleSpaceFallsBackToCookie(t: string, cookies: Option<map<string, string>>)
    requires ' ' !in t
    ensures TokenOf(Some("Bearer  " + t), cookies) == CookieToken(cookies)
  {
    assert "Bearer  " + t == "Bearer" + [' '] + ([' '] + t);
    SplitAfterFirst("Bearer", ' ', [' '] + t);
    SplitAfterFirst("", ' ', t);
    assert "" + [' '] + t == [' '] + t;
    assert StartsWith("Bearer  " + t, "Bearer");
  }

  /** Each failure has its own 401 message, and a rejected lookup is a 500. */
  lemma RepliesByCase(token: Option<string>, verify: string -> Verification, findById: UserId -> Lookup)
    ensures token.None? ==> Decide(token, verify, findById) == Respond(401, "Not authorized to access this route")
    ensures token.Some? && verify(token.value) == Thrown("TokenExpiredError") ==>
              Decide(token, verify, findById) == Respond(401, "Token expired")
    ensures token.Some? && verify(token.value).Thrown? && verify(token.value).name != "TokenExpiredError" ==>
              Decide(token, verify, findById) == Respond(401, "Token is not valid")
    ensures token.Some? && verify(token.value).Decoded? && findById(verify(token.value).id) == NotFound ==>
              Decide(token, verify, findById) == Respond(401, "No user found with this token")
    ensures token.Some? && verify(token.value).Decoded? && findById(verify(token.value).id) == Rejected ==>
              Decide(token, verify, findById) == Respond(500, "Server Error")
  {
  }

  /** The request goes on exactly when there is a token, it verifies and
      its user exists; the attached user is that user. */
  lemma NextIffAuthenticated(token: Option<string>, verify: string -> Verification, findById: UserId -> Lookup)
    ensures Decide(token, verify, findById).Next? <==> Attached(token, verify, findById).Some?
    ensures Attached(token, verify, findById).Some? ==>
              Attached(token, verify, findById).value.id == findById(verify(token.value).id).user.id
  {
  }

  /** Every refusal is a 401 except the rejected lookup's 500. */
  lemma RefusalCodes(token: Option<string>, verify: string -> Verification, findById: UserId -> Lookup)
    ensures Decide(token, verify, findById).Respond? ==>
              Decide(token, verify, findById).code in {401, 500}
    ensures Decide(token, verify, findById) == Respond(500, ServerErrorMessage) <==>
              token.Some? && verify(token.value).Decoded? && findById(verify(token.value).id).Rejected?
  {
  }
}
