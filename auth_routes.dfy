/**
 * The authentication endpoints: the registration password rules, and what each of the
 * register, login, logout, me and status handlers answers and does to the session store.
 * A response is its status code, its JSON body and what it does to the session cookie.
 */
module AuthRoutes {
  import opened Wrappers
  import opened Text
  import Auth

  const MinPasswordLength := 8
  const TooShortMessage := "Password must be at least 8 characters"
  const CharacterRuleMessage := "Password must contain at least one lowercase letter, one uppercase letter, and one number"
  const MismatchMessage := "Passwords don't match"
  const ValidationFailed := "Validation failed"
  const InternalError := "Internal server error"

  // ---------------------------------------------------------------------------------
  // Registration rules

  /** The body of a registration request, every field a string. */
  datatype RegistrationBody = RegistrationBody(
    username: string,
    email: string,
    password: string,
    confirmPassword: string,
    firstName: Option<string>,
    lastName: Option<string>)

  /** One validation problem: the field it is about and its message. */
  datatype Issue = Issue(path: string, message: string)

  /** The characters `.` does not match in a regular expression. */
  predicate IsLineTerminator(c: char) {
    c == '\n' || c == '\r' || c == '\U{2028}' || c == '\U{2029}'
  }

  predicate NotLineTerminator(c: char) {
    !IsLineTerminator(c)
  }

  predicate IsLower(c: char) { 'a' <= c <= 'z' }

  predicate IsUpper(c: char) { 'A' <= c <= 'Z' }

  /** The part of `s` before its first line terminator: what the look-aheads `(?=.*x)` can reach. */
  function FirstLine(s: string): (line: string)
    ensures |line| <= |s| && line == s[..|line|]
    ensures forall i :: 0 <= i < |line| ==> !IsLineTerminator(line[i])
    ensures |line| < |s| ==> IsLineTerminator(s[|line|])
  {
    s[..LeadingRun(s, NotLineTerminator)]
  }

  /**
   * `/^(?=.*[a-z])(?=.*[A-Z])(?=.*\d)/`: a lower-case letter, an upper-case letter and a
   * digit all occur before the first line terminator.
   */
  predicate MeetsCharacterRule(password: string) {
    var line := FirstLine(password);
    && (exists i :: 0 <= i < |line| && IsLower(line[i]))
    && (exists i :: 0 <= i < |line| && IsUpper(line[i]))
    && (exists i :: 0 <= i < |line| && IsDigit(line[i]))
  }

  /** The password's checks, both run and reported in order: length, then the character rule. */
  function PasswordIssues(password: string): (issues: seq<Issue>)
    ensures |issues| <= 2
    ensures forall i :: 0 <= i < |issues| ==> issues[i].path == "password"
    ensures issues == [] <==> |password| >= MinPasswordLength && MeetsCharacterRule(password)
  {
    (if |password| < MinPasswordLength then [Issue("password", TooShortMessage)] else [])
    + (if !MeetsCharacterRule(password) then [Issue("password", CharacterRuleMessage)] else [])
  }

  /** The password's issues, then "Passwords don't match" on `confirmPassword` when the two differ. */
  function RegistrationIssues(body: RegistrationBody): (issues: seq<Issue>)
    ensures issues == [] <==>
      |body.password| >= MinPasswordLength && MeetsCharacterRule(body.password) && body.password == body.confirmPassword
    ensures body.password != body.confirmPassword <==>
      issues != [] && issues[|issues| - 1] == Issue("confirmPassword", MismatchMessage)
  {
    PasswordIssues(body.password)
    + (if body.password != body.confirmPassword then [Issue("confirmPassword", MismatchMessage)] else [])
  }

  /** The look-aheads stop at a line terminator: what comes after it is out of their reach. */
  lemma {:induction false} FirstLineStopsAtBreak(line: string, rest: string)
    requires forall i :: 0 <= i < |line| ==> NotLineTerminator(line[i])
    requires rest != [] && IsLineTerminator(rest[0])
    ensures FirstLine(line + rest) == line
  {
    LeadingRunOf(line, rest, NotLineTerminator);
  }

  lemma SampleHasNoDigitOnFirstLine()
    ensures !MeetsCharacterRule("abcdefgH\n1")
  {
    var line := "abcdefgH";
    assert forall i :: 0 <= i < |line| ==> NotLineTerminator(line[i]) && !IsDigit(line[i]);
    FirstLineStopsAtBreak(line, "\n1");
    assert line + "\n1" == "abcdefgH\n1";
  }

  /** A letter or digit after a line break does not count: "abcdefgH" then a line feed and "1" is refused. */
  lemma DigitAfterLineBreakDoesNotCount()
    ensures PasswordIssues("abcdefgH\n1") == [Issue("password", CharacterRuleMessage)]
  {
    SampleHasNoDigitOnFirstLine();
  }

  /** What the route hands to `register`: the body without `confirmPassword`. */
  function ToRegisterRequest(body: RegistrationBody): (req: Auth.RegisterRequest)
    ensures req.username == body.username && req.email == body.email && req.password == body.password
    ensures req.firstName == body.firstName && req.lastName == body.lastName
  {
    Auth.RegisterRequest(body.username, body.email, body.password, body.firstName, body.lastName)
  }

  // ---------------------------------------------------------------------------------
  // Responses

  /** A user as the endpoints send it: every field but the password. */
  datatype PublicUser = PublicUser(
    id: string,
    username: string,
    email: string,
    firstName: Option<string>,
    lastName: Option<string>,
    isActive: bool,
    subscriptionStatus: string,
    trialEndsAt: Option<int>,
    lastLoginAt: Option<int>)

  /** `const { password, ...userWithoutPassword } = user`. */
  function WithoutPassword(u: Auth.User): (p: PublicUser)
    ensures p.id == u.id && p.username == u.username && p.email == u.email
  {
    PublicUser(u.id, u.username, u.email, u.firstName, u.lastName, u.isActive,
               u.subscriptionStatus, u.trialEndsAt, u.lastLoginAt)
  }

  /** The row back from its public part and a password. */
  function WithPassword(p: PublicUser, password: string): (u: Auth.User)
    ensures u.password == password && u.id == p.id
  {
    Auth.User(p.id, p.username, p.email, password, p.firstName, p.lastName, p.isActive,
              p.subscriptionStatus, p.trialEndsAt, p.lastLoginAt)
  }

  /** Only the password is dropped: adding it back gives the row, and the public part of that is the same. */
  lemma OnlyPasswordIsDropped(u: Auth.User, p: PublicUser, password: string)
    ensures WithPassword(WithoutPassword(u), u.password) == u
    ensures WithoutPassword(WithPassword(p, password)) == p
  {
  }

  /** Two rows that differ only in the password look the same to a client. */
  lemma PasswordNeverShows(u: Auth.User, hash: string)
    ensures WithoutPassword(u) == WithoutPassword(u.(password := hash))
  {
  }

  /** The user `/status` reports: id, username and email only. */
  datatype StatusUser = StatusUser(id: string, username: string, email: string)

  /** A `user` key that is left out, null, or an object. */
  datatype UserField = Omitted | Null | Present(user: StatusUser)

  datatype Body =
    | ErrorBody(error: string)
    | ValidationErrorBody(error: string, details: seq<Issue>)
    | UserBody(message: Option<string>, user: PublicUser)
    | MessageBody(text: string)  // `{ message }`
    | StatusBody(authenticated: bool, statusUser: UserField)

  datatype Response = Response(status: int, body: Body, cookie: Auth.CookieAction)

  /**
   * The answer to a registration the service handled: its error as 400, or 201 with the
   * session cookie and the user without the password.
   */
  function RegisterResponse(result: Auth.AuthResult, production: bool): (res: Response)
    ensures result.Failed? ==> res == Response(400, ErrorBody(Auth.Message(result.error)), Auth.KeepCookie)
    ensures result.Authenticated? ==>
      && res.status == 201
      && res.cookie == Auth.SessionCookie(result.sessionId, production)
      && res.body == UserBody(Some("Registration successful"), WithoutPassword(result.user))
  {
    match result
    case Failed(e) => Response(400, ErrorBody(Auth.Message(e)), Auth.KeepCookie)
    case Authenticated(u, sid) =>
      Response(201, UserBody(Some("Registration successful"), WithoutPassword(u)), Auth.SessionCookie(sid, production))
  }

  /** The answer to a login the service handled: its error as 401, or 200 with the cookie and the user. */
  function LoginResponse(result: Auth.AuthResult, production: bool): (res: Response)
    ensures result.Failed? ==> res == Response(401, ErrorBody(Auth.Message(result.error)), Auth.KeepCookie)
    ensures result.Authenticated? ==>
      && res.status == 200
      && res.cookie == Auth.SessionCookie(result.sessionId, production)
      && res.body == UserBody(Some("Login successful"), WithoutPassword(result.user))
  {
    match result
    case Failed(e) => Response(401, ErrorBody(Auth.Message(e)), Auth.KeepCookie)
    case Authenticated(u, sid) =>
      Response(200, UserBody(Some("Login successful"), WithoutPassword(u)), Auth.SessionCookie(sid, production))
  }

  /** A cookie is set exactly when the service succeeded, and then it carries the session id. */
  lemma CookieSetOnlyOnSuccess(result: Auth.AuthResult, production: bool)
    ensures RegisterResponse(result, production).cookie.SetCookie? <==> result.Authenticated?
    ensures LoginResponse(result, production).cookie.SetCookie? <==> result.Authenticated?
    ensures result.Authenticated? ==>
      RegisterResponse(result, production).cookie.value == result.sessionId
      && LoginResponse(result, production).cookie.value == result.sessionId
  {
  }

  /** `/logout`: deletes the session when there is a cookie, then clears it; a failing store is 500. */
  function LogoutResponse(cookie: Option<string>, storeFails: bool): (res: Response)
    ensures Auth.NoCookie(cookie) || !storeFails ==>
      res == Response(200, MessageBody("Logout successful"), Auth.ClearSessionCookie())
    ensures !Auth.NoCookie(cookie) && storeFails ==> res == Response(500, ErrorBody(InternalError), Auth.KeepCookie)
  {
    if !Auth.NoCookie(cookie) && storeFails then Response(500, ErrorBody(InternalError), Auth.KeepCookie)
    else Response(200, MessageBody("Logout successful"), Auth.ClearSessionCookie())
  }

  /**
   * `/me`: no cookie is 401 "Not authenticated"; a failing store is 500; a session that
   * does not resolve clears the cookie and is 401; a live one returns its user.
   */
  function MeResponse(cookie: Option<string>, storeFails: bool, lookup: Auth.Lookup): (res: Response)
    ensures Auth.NoCookie(cookie) ==> res == Response(401, ErrorBody("Not authenticated"), Auth.KeepCookie)
    ensures !Auth.NoCookie(cookie) && storeFails ==> res == Response(500, ErrorBody(InternalError), Auth.KeepCookie)
    ensures !Auth.NoCookie(cookie) && !storeFails ==>
      if lookup.LiveSession? then res == Response(200, UserBody(None, WithoutPassword(lookup.user)), Auth.KeepCookie)
      else res == Response(401, ErrorBody("Invalid or expired session"), Auth.ClearSessionCookie())
  {
    if Auth.NoCookie(cookie) then Response(401, ErrorBody("Not authenticated"), Auth.KeepCookie)
    else if storeFails then Response(500, ErrorBody(InternalError), Auth.KeepCookie)
    else if lookup.LiveSession? then Response(200, UserBody(None, WithoutPassword(lookup.user)), Auth.KeepCookie)
    else Response(401, ErrorBody("Invalid or expired session"), Auth.ClearSessionCookie())
  }

  /**
   * `/status`: always 200. Without a cookie, or when the store fails, it is not
   * authenticated and has no `user` key; otherwise it is authenticated exactly when the
   * session resolves, with id, username and email, and `user` is null when it does not.
   */
  function StatusResponse(cookie: Option<string>, storeFails: bool, lookup: Auth.Lookup): (res: Response)
    ensures res.status == 200 && res.cookie == Auth.KeepCookie && res.body.StatusBody?
    ensures res.body.authenticated <==> !Auth.NoCookie(cookie) && !storeFails && lookup.LiveSession?
    ensures res.body.statusUser.Omitted? <==> Auth.NoCookie(cookie) || storeFails
    ensures res.body.authenticated ==>
      res.body.statusUser == Present(StatusUser(lookup.user.id, lookup.user.username, lookup.user.email))
    ensures !res.body.authenticated && !res.body.statusUser.Omitted? ==> res.body.statusUser == Null
  {
    if Auth.NoCookie(cookie) || storeFails then Response(200, StatusBody(false, Omitted), Auth.KeepCookie)
    else if lookup.LiveSession? then
      Response(200, StatusBody(true, Present(StatusUser(lookup.user.id, lookup.user.username, lookup.user.email))), Auth.KeepCookie)
    else Response(200, StatusBody(false, Null), Auth.KeepCookie)
  }

  /**
   * `/me`, `/status` and the `authenticateUser` middleware agree: `/me` answers 200 exactly
   * when the middleware lets the request through and `/status` says authenticated, all
   * three with the same user, and `/me` clears the cookie exactly when the middleware does.
   */
  lemma EndpointsAgreeWithMiddleware(cookie: Option<string>, storeFails: bool, lookup: Auth.Lookup)
    ensures var me := MeResponse(cookie, storeFails, lookup);
      var gate := Auth.RequireAuth(cookie, storeFails, lookup);
      && (me.status == 200 <==> gate.Proceed?)
      && (me.status == 200 <==> StatusResponse(cookie, storeFails, lookup).body.authenticated)
      && (gate.Proceed? ==> gate.user.Some? && me.body.user == WithoutPassword(gate.user.value))
      && (me.cookie.ClearCookie? <==> gate.Halt? && gate.clearCookie)
  {
  }

  // ---------------------------------------------------------------------------------
  // Handlers over the service

  /** The outcome of validating a login body, which the login schema decides. */
  datatype LoginBody = ValidLogin(username: string, password: string) | InvalidLogin(details: seq<Issue>)

  /**
   * `POST /register`: a body with issues is 400 "Validation failed" with its issues and
   * changes nothing; otherwise the service registers the request without
   * `confirmPassword` and its result is answered as `RegisterResponse` says.
   */
  method RegisterHandler(svc: Auth.AuthService, body: RegistrationBody, hasher: Auth.Hasher, newUserId: string,
                         bytes: seq<Auth.byte>, now: int, production: bool)
    returns (res: Response, ghost result: Option<Auth.AuthResult>)
    requires svc.Valid() && |bytes| == Auth.SessionIdBytes
    modifies svc
    ensures svc.Valid()
    ensures RegistrationIssues(body) != [] ==>
      && res == Response(400, ValidationErrorBody(ValidationFailed, RegistrationIssues(body)), Auth.KeepCookie)
      && result.None? && svc.users == old(svc.users) && svc.sessions == old(svc.sessions)
    ensures RegistrationIssues(body) == [] ==> result.Some? && res == RegisterResponse(result.value, production)
    ensures result.Some? && result.value.Authenticated? ==>
      var sid := result.value.sessionId;
      && sid in svc.sessions && svc.sessions[sid].userId == result.value.user.id
      && result.value.user.id in svc.users && svc.users[result.value.user.id] == result.value.user
      && result.value.user.username == body.username && result.value.user.password == hasher.hash(body.password)
  {
    var issues := RegistrationIssues(body);
    if issues != [] {
      return Response(400, ValidationErrorBody(ValidationFailed, issues), Auth.KeepCookie), None;
    }
    var r, found := svc.Register(ToRegisterRequest(body), hasher, newUserId, bytes, now);
    result := Some(r);
    res := RegisterResponse(r, production);
  }

  /**
   * `POST /login`: an invalid body is 400 "Validation failed"; otherwise the service logs
   * in with the username field as username or email and its result is answered as
   * `LoginResponse` says.
   */
  method LoginHandler(svc: Auth.AuthService, body: LoginBody, hasher: Auth.Hasher, bytes: seq<Auth.byte>, now: int, production: bool)
    returns (res: Response, ghost result: Option<Auth.AuthResult>)
    requires svc.Valid() && |bytes| == Auth.SessionIdBytes
    modifies svc
    ensures svc.Valid()
    ensures body.InvalidLogin? ==>
      && res == Response(400, ValidationErrorBody(ValidationFailed, body.details), Auth.KeepCookie)
      && result.None? && svc.users == old(svc.users) && svc.sessions == old(svc.sessions)
    ensures body.ValidLogin? ==> result.Some? && res == LoginResponse(result.value, production)
    ensures result.Some? && result.value.Authenticated? ==>
      var sid := result.value.sessionId;
      && sid in svc.sessions && svc.sessions[sid].userId == result.value.user.id
      && Auth.MatchesIdentifier(result.value.user, body.username)
      && result.value.user.isActive && hasher.verify(body.password, result.value.user.password)
  {
    match body
    case InvalidLogin(details) =>
      return Response(400, ValidationErrorBody(ValidationFailed, details), Auth.KeepCookie), None;
    case ValidLogin(username, password) =>
      var r, found := svc.Login(username, password, hasher, bytes, now);
      result := Some(r);
      res := LoginResponse(r, production);
  }

  /** `POST /logout`: the cookie's session is deleted when there is one, and the answer is `LogoutResponse`. */
  method LogoutHandler(svc: Auth.AuthService, cookie: Option<string>, storeFails: bool) returns (res: Response)
    requires svc.Valid()
    modifies svc
    ensures svc.Valid() && svc.users == old(svc.users)
    ensures res == LogoutResponse(cookie, storeFails)
    ensures Auth.NoCookie(cookie) || storeFails ==> svc.sessions == old(svc.sessions)
    ensures !Auth.NoCookie(cookie) && !storeFails ==> svc.sessions == old(svc.sessions) - {cookie.value}
  {
    if !Auth.NoCookie(cookie) {
      if storeFails {
        return LogoutResponse(cookie, storeFails);
      }
      svc.DeleteSession(cookie.value);
    }
    res := LogoutResponse(cookie, storeFails);
  }

  /** `GET /me`: looks the cookie's session up (deleting it when expired) and answers `MeResponse`. */
  method MeHandler(svc: Auth.AuthService, cookie: Option<string>, storeFails: bool, now: int) returns (res: Response)
    requires svc.Valid()
    modifies svc
    ensures svc.Valid() && svc.users == old(svc.users)
    ensures Auth.NoCookie(cookie) || storeFails ==>
      res == MeResponse(cookie, storeFails, Auth.NoSession) && svc.sessions == old(svc.sessions)
    ensures !Auth.NoCookie(cookie) && !storeFails ==>
      var found := Auth.LookupSession(old(svc.users), old(svc.sessions), cookie.value, now);
      && res == MeResponse(cookie, storeFails, found)
      && (if found.ExpiredSession? then svc.sessions == old(svc.sessions) - {cookie.value} else svc.sessions == old(svc.sessions))
  {
    if Auth.NoCookie(cookie) || storeFails {
      return MeResponse(cookie, storeFails, Auth.NoSession);
    }
    var found := Auth.LookupSession(svc.users, svc.sessions, cookie.value, now);
    var user := svc.GetSessionUser(cookie.value, now);
    res := MeResponse(cookie, storeFails, found);
  }

  /** `GET /status`: looks the cookie's session up (deleting it when expired) and answers `StatusResponse`. */
  method StatusHandler(svc: Auth.AuthService, cookie: Option<string>, storeFails: bool, now: int) returns (res: Response)
    requires svc.Valid()
    modifies svc
    ensures svc.Valid() && svc.users == old(svc.users)
    ensures res.status == 200
    ensures Auth.NoCookie(cookie) || storeFails ==>
      res == StatusResponse(cookie, storeFails, Auth.NoSession) && svc.sessions == old(svc.sessions)
    ensures !Auth.NoCookie(cookie) && !storeFails ==>
      var found := Auth.LookupSession(old(svc.users), old(svc.sessions), cookie.value, now);
      && res == StatusResponse(cookie, storeFails, found)
      && (if found.ExpiredSession? then svc.sessions == old(svc.sessions) - {cookie.value} else svc.sessions == old(svc.sessions))
  {
    if Auth.NoCookie(cookie) || storeFails {
      return StatusResponse(cookie, storeFails, Auth.NoSession);
    }
    var found := Auth.LookupSession(svc.users, svc.sessions, cookie.value, now);
    var user := svc.GetSessionUser(cookie.value, now);
    res := StatusResponse(cookie, storeFails, found);
  }
}
