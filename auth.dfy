/**
 * The session authentication service: a users table and a sessions table, the session
 * lifecycle (create, look up with lazy expiry, delete, clean up), registration, login,
 * the session cookie, and the two middleware decisions built on the session lookup.
 *
 * Password hashing is a pair of given functions, the random bytes of a session id, the
 * id the database assigns to a new user and the current time are parameters. Times are
 * milliseconds; adding days is adding whole days of milliseconds.
 */
module Auth {
  import opened Wrappers

  newtype byte = x: int | 0 <= x < 256

  const SessionCookieName := "session_id"
  const SessionDurationDays := 30
  const TrialDays := 14
  const DayMs := 24 * 60 * 60 * 1000
  const SessionIdBytes := 32
  const TrialStatus := "trial"

  /** `t` moved forward by whole days. */
  function AddDays(t: int, days: int): (r: int)
    ensures days >= 0 ==> r >= t
    ensures r - t == days * 86400000
  {
    t + days * DayMs
  }

  // ---------------------------------------------------------------------------------
  // Session ids

  predicate IsHexDigit(c: char) {
    ('0' <= c <= '9') || ('a' <= c <= 'f')
  }

  /** The lower-case hex digit of a value below 16. */
  function HexDigit(n: nat): (c: char)
    requires n < 16
    ensures IsHexDigit(c)
    ensures n < 10 ==> c as int == '0' as int + n
    ensures n >= 10 ==> c as int == 'a' as int + n - 10
  {
    if n < 10 then ('0' as int + n) as char else ('a' as int + n - 10) as char
  }

  /** The value of a hex digit: the inverse of `HexDigit`. */
  function HexValue(c: char): (n: nat)
    requires IsHexDigit(c)
    ensures n < 16 && HexDigit(n) == c
  {
    if c <= '9' then c as int - '0' as int else c as int - 'a' as int + 10
  }

  /** `Buffer.toString("hex")`: two lower-case hex digits per byte, high digit first. */
  function HexEncode(bytes: seq<byte>): (s: string)
    ensures |s| == 2 * |bytes|
    ensures forall i :: 0 <= i < |s| ==> IsHexDigit(s[i])
  {
    if bytes == [] then []
    else [HexDigit(bytes[0] as int / 16), HexDigit(bytes[0] as int % 16)] + HexEncode(bytes[1..])
  }

  /** Reads hex digits back as bytes, two digits per byte. */
  function HexDecode(s: string): (bytes: seq<byte>)
    requires |s| % 2 == 0
    requires forall i :: 0 <= i < |s| ==> IsHexDigit(s[i])
    ensures 2 * |bytes| == |s|
  {
    if s == [] then []
    else [(HexValue(s[0]) * 16 + HexValue(s[1])) as byte] + HexDecode(s[2..])
  }

  /** Decoding an encoding gives the bytes back, so distinct bytes give distinct ids. */
  lemma {:induction false} HexRoundTrip(bytes: seq<byte>)
    ensures HexDecode(HexEncode(bytes)) == bytes
  {
    if bytes != [] {
      var b := bytes[0] as int;
      var s := HexEncode(bytes);
      assert s[0] == HexDigit(b / 16) && s[1] == HexDigit(b % 16);
      HexDigitValue(b / 16);
      HexDigitValue(b % 16);
      assert s[2..] == HexEncode(bytes[1..]);
      HexRoundTrip(bytes[1..]);
    }
  }

  lemma HexDigitValue(n: nat)
    requires n < 16
    ensures HexValue(HexDigit(n)) == n
  {
  }

  /** Two sessions ids are equal only when they come from the same random bytes. */
  lemma HexEncodeInjective(a: seq<byte>, b: seq<byte>)
    requires HexEncode(a) == HexEncode(b)
    ensures a == b
  {
    HexRoundTrip(a);
    HexRoundTrip(b);
  }

  /** `generateSessionId`: the 32 random bytes, as 64 hex digits. */
  function SessionIdFrom(bytes: seq<byte>): (id: string)
    requires |bytes| == SessionIdBytes
    ensures |id| == 64
    ensures forall i :: 0 <= i < |id| ==> IsHexDigit(id[i])
  {
    HexEncode(bytes)
  }

  // ---------------------------------------------------------------------------------
  // Rows, hashing, results

  datatype User = User(
    id: string,
    username: string,
    email: string,
    password: string,               // the stored hash
    firstName: Option<string>,
    lastName: Option<string>,
    isActive: bool,
    subscriptionStatus: string,
    trialEndsAt: Option<int>,
    lastLoginAt: Option<int>)

  datatype Session = Session(id: string, userId: string, expiresAt: int)

  /** bcrypt's `hash` and `compare`, as given functions. */
  datatype Hasher = Hasher(hash: string -> string, verify: (string, string) -> bool)

  /** A hasher whose `verify` accepts every password against its own hash. */
  ghost predicate Sound(h: Hasher) {
    forall p :: h.verify(p, h.hash(p))
  }

  datatype RegisterRequest = RegisterRequest(
    username: string,
    email: string,
    password: string,
    firstName: Option<string>,
    lastName: Option<string>)

  datatype AuthError =
    | UsernameExists
    | EmailExists
    | RegistrationFailed
    | InvalidCredentials
    | AccountDeactivated
    | LoginFailed

  /** The text of each error, as the service returns it. */
  function Message(e: AuthError): string {
    match e
    case UsernameExists => "Username already exists"
    case EmailExists => "Email already exists"
    case RegistrationFailed => "Registration failed"
    case InvalidCredentials => "Invalid credentials"
    case AccountDeactivated => "Account is deactivated"
    case LoginFailed => "Login failed"
  }

  /** `{ user, sessionId }` or `{ error }`. */
  datatype AuthResult = Authenticated(user: User, sessionId: string) | Failed(error: AuthError)

  // ---------------------------------------------------------------------------------
  // The decisions the operations make, as functions of what the store returned

  /** The outcome of looking a session id up in the join of sessions and users. */
  datatype Lookup = NoSession | ExpiredSession | LiveSession(user: User)

  /**
   * `getSessionUser`'s decision: no row when the id is unknown or its user is missing;
   * expired when `now` is strictly past the expiry; otherwise the owning user.
   */
  function LookupSession(users: map<string, User>, sessions: map<string, Session>, sessionId: string, now: int): (r: Lookup)
    ensures r.LiveSession? <==>
      sessionId in sessions && sessions[sessionId].userId in users && now <= sessions[sessionId].expiresAt
    ensures r.LiveSession? ==> r.user == users[sessions[sessionId].userId]
    ensures r.ExpiredSession? <==>
      sessionId in sessions && sessions[sessionId].userId in users && now > sessions[sessionId].expiresAt
  {
    if sessionId !in sessions || sessions[sessionId].userId !in users then NoSession
    else if now > sessions[sessionId].expiresAt then ExpiredSession
    else LiveSession(users[sessions[sessionId].userId])
  }

  /** The sessions `cleanupExpiredSessions` keeps: those whose expiry is not before `now`. */
  function Unexpired(sessions: map<string, Session>, now: int): (kept: map<string, Session>)
    ensures forall id :: id in kept <==> id in sessions && sessions[id].expiresAt >= now
    ensures forall id :: id in kept ==> kept[id] == sessions[id]
  {
    map id | id in sessions && sessions[id].expiresAt >= now :: sessions[id]
  }

  /**
   * Cleaning up at `now` uses the same boundary as the lookup: nothing a lookup at `now`
   * would find expired survives, and every lookup at `now` other than an expired one
   * gives the same answer before and after.
   */
  lemma CleanupAgreesWithLookup(users: map<string, User>, sessions: map<string, Session>, now: int, sessionId: string)
    ensures !LookupSession(users, Unexpired(sessions, now), sessionId, now).ExpiredSession?
    ensures LookupSession(users, sessions, sessionId, now).ExpiredSession? ==>
      LookupSession(users, Unexpired(sessions, now), sessionId, now) == NoSession
    ensures !LookupSession(users, sessions, sessionId, now).ExpiredSession? ==>
      LookupSession(users, Unexpired(sessions, now), sessionId, now) == LookupSession(users, sessions, sessionId, now)
  {
  }

  /** Once a session is deleted, every later lookup of its id finds nothing. */
  lemma DeletedSessionStaysGone(users: map<string, User>, sessions: map<string, Session>, sessionId: string, later: int)
    ensures LookupSession(users, sessions - {sessionId}, sessionId, later) == NoSession
  {
  }

  /**
   * A session created at `t` for an existing user resolves to that user at every time
   * from `t` to the end of its 30 days, and is expired at every time after.
   */
  lemma SessionLifetime(users: map<string, User>, sessions: map<string, Session>, s: Session, t: int, now: int)
    requires s.userId in users && s.expiresAt == AddDays(t, SessionDurationDays)
    ensures t <= now <= t + 30 * 86400000 ==>
      LookupSession(users, sessions[s.id := s], s.id, now) == LiveSession(users[s.userId])
    ensures now > t + 30 * 86400000 ==> LookupSession(users, sessions[s.id := s], s.id, now) == ExpiredSession
  {
  }

  /** A user row found by the identifier: its username or its email is the identifier. */
  predicate MatchesIdentifier(u: User, identifier: string) {
    u.username == identifier || u.email == identifier
  }

  /** What `login` decides about the row the lookup returned: the checks come in a fixed order. */
  datatype LoginCheck = Rejected(error: AuthError) | Accepted(user: User)

  function CheckLogin(found: Option<User>, password: string, hasher: Hasher): (r: LoginCheck)
    ensures found.None? ==> r == Rejected(InvalidCredentials)
    ensures found.Some? && !found.value.isActive ==> r == Rejected(AccountDeactivated)
    ensures found.Some? && found.value.isActive ==>
      if hasher.verify(password, found.value.password) then r == Accepted(found.value) else r == Rejected(InvalidCredentials)
  {
    match found
    case None => Rejected(InvalidCredentials)
    case Some(u) =>
      if !u.isActive then Rejected(AccountDeactivated)
      else if !hasher.verify(password, u.password) then Rejected(InvalidCredentials)
      else Accepted(u)
  }

  /** A deactivated account is refused before the password is looked at: any password gets the same answer. */
  lemma DeactivatedIgnoresPassword(u: User, p1: string, p2: string, hasher: Hasher)
    requires !u.isActive
    ensures CheckLogin(Some(u), p1, hasher) == CheckLogin(Some(u), p2, hasher) == Rejected(AccountDeactivated)
  {
  }

  /** An unknown identifier and a wrong password for an active user get the same message. */
  lemma UnknownUserLooksLikeWrongPassword(u: User, password: string, hasher: Hasher)
    requires u.isActive && !hasher.verify(password, u.password)
    ensures CheckLogin(None, password, hasher) == CheckLogin(Some(u), password, hasher)
    ensures Message(CheckLogin(None, password, hasher).error) == "Invalid credentials"
  {
  }

  /** An active user who gives the password their stored hash was made from is accepted. */
  lemma RegisteredPasswordAccepted(u: User, password: string, hasher: Hasher)
    requires Sound(hasher)
    requires u.isActive && u.password == hasher.hash(password)
    ensures CheckLogin(Some(u), password, hasher) == Accepted(u)
  {
    assert hasher.verify(password, hasher.hash(password));
  }

  /** `register`'s uniqueness decision about the row found by username or email. */
  function CheckRegistration(found: Option<User>, req: RegisterRequest): (r: Option<AuthError>)
    ensures found.None? <==> r.None?
    ensures found.Some? && found.value.username == req.username ==> r == Some(UsernameExists)
    ensures found.Some? && found.value.username != req.username ==> r == Some(EmailExists)
  {
    match found
    case None => None
    case Some(u) => if u.username == req.username then Some(UsernameExists) else Some(EmailExists)
  }

  /** A clash on the email with a user of another username reports the email, never the username. */
  lemma EmailClashReportsEmail(u: User, req: RegisterRequest)
    requires u.email == req.email && u.username != req.username
    ensures CheckRegistration(Some(u), req) == Some(EmailExists)
    ensures Message(CheckRegistration(Some(u), req).value) == "Email already exists"
  {
  }

  /**
   * The row `register` inserts: the request's fields, the hash in place of the password,
   * an active account on a trial that ends 14 days from now, never logged in.
   */
  function NewUser(id: string, req: RegisterRequest, hasher: Hasher, now: int): (u: User)
    ensures u.id == id && u.username == req.username && u.email == req.email
    ensures u.firstName == req.firstName && u.lastName == req.lastName
    ensures u.password == hasher.hash(req.password)
    ensures u.isActive && u.subscriptionStatus == TrialStatus && u.lastLoginAt.None?
    ensures u.trialEndsAt == Some(AddDays(now, TrialDays))
  {
    User(id, req.username, req.email, hasher.hash(req.password), req.firstName, req.lastName,
         true, TrialStatus, Some(AddDays(now, TrialDays)), None)
  }

  /** The password a user registers with logs them in. */
  lemma RegisteredUserCanLogIn(id: string, req: RegisterRequest, hasher: Hasher, now: int)
    requires Sound(hasher)
    ensures CheckLogin(Some(NewUser(id, req, hasher, now)), req.password, hasher) == Accepted(NewUser(id, req, hasher, now))
  {
    RegisteredPasswordAccepted(NewUser(id, req, hasher, now), req.password, hasher);
  }

  // ---------------------------------------------------------------------------------
  // Cookies

  /** What a response does with the session cookie. */
  datatype CookieAction =
    | KeepCookie
    | SetCookie(name: string, value: string, maxAgeMs: int, httpOnly: bool, sameSiteStrict: bool, secure: bool)
    | ClearCookie(name: string)

  /** `setSessionCookie`: http-only, same-site strict, secure in production, for 30 days. */
  function SessionCookie(sessionId: string, production: bool): (c: CookieAction)
    ensures c.SetCookie? && c.name == SessionCookieName && c.value == sessionId
    ensures c.httpOnly && c.sameSiteStrict && c.secure == production
    ensures c.maxAgeMs == AddDays(0, SessionDurationDays)
  {
    SetCookie(SessionCookieName, sessionId, SessionDurationDays * 24 * 60 * 60 * 1000, true, true, production)
  }

  /** `clearSessionCookie`. */
  function ClearSessionCookie(): (c: CookieAction)
    ensures c == ClearCookie(SessionCookieName)
  {
    ClearCookie(SessionCookieName)
  }

  /** The cookie lives exactly as long as the session it carries. */
  lemma CookieLastsAsLongAsSession(sessionId: string, production: bool, now: int)
    ensures now + SessionCookie(sessionId, production).maxAgeMs == AddDays(now, SessionDurationDays)
  {
  }

  // ---------------------------------------------------------------------------------
  // Middleware decisions

  /** `!req.cookies?.session_id`: no cookie, or an empty one. */
  predicate NoCookie(cookie: Option<string>) {
    cookie.None? || cookie.value == ""
  }

  /** Whether the middleware lets the request through, with the user it attaches, or answers it. */
  datatype GateOutcome =
    | Proceed(user: Option<User>)
    | Halt(status: int, error: string, clearCookie: bool)

  /**
   * `authenticateUser`: no cookie is 401 "Authentication required"; a failing store is 500
   * "Authentication error"; a session that does not resolve clears the cookie and is 401
   * "Invalid or expired session"; a live session passes with its user attached.
   */
  function RequireAuth(cookie: Option<string>, storeFails: bool, lookup: Lookup): (o: GateOutcome)
    ensures NoCookie(cookie) ==> o == Halt(401, "Authentication required", false)
    ensures !NoCookie(cookie) && storeFails ==> o == Halt(500, "Authentication error", false)
    ensures !NoCookie(cookie) && !storeFails && lookup.LiveSession? ==> o == Proceed(Some(lookup.user))
    ensures !NoCookie(cookie) && !storeFails && !lookup.LiveSession? ==> o == Halt(401, "Invalid or expired session", true)
  {
    if NoCookie(cookie) then Halt(401, "Authentication required", false)
    else if storeFails then Halt(500, "Authentication error", false)
    else if lookup.LiveSession? then Proceed(Some(lookup.user))
    else Halt(401, "Invalid or expired session", true)
  }

  /** `optionalAuth`: always passes; the user is attached only when a live session resolves. */
  function OptionalAuth(cookie: Option<string>, storeFails: bool, lookup: Lookup): (o: GateOutcome)
    ensures o.Proceed?
    ensures o.user.Some? <==> !NoCookie(cookie) && !storeFails && lookup.LiveSession?
    ensures o.user.Some? ==> o.user.value == lookup.user
  {
    if !NoCookie(cookie) && !storeFails && lookup.LiveSession? then Proceed(Some(lookup.user)) else Proceed(None)
  }

  /** Both middlewares attach the same user: the optional one attaches exactly when the required one passes. */
  lemma MiddlewaresAgree(cookie: Option<string>, storeFails: bool, lookup: Lookup)
    ensures RequireAuth(cookie, storeFails, lookup).Proceed? <==> OptionalAuth(cookie, storeFails, lookup).user.Some?
    ensures RequireAuth(cookie, storeFails, lookup).Proceed? ==>
      RequireAuth(cookie, storeFails, lookup) == OptionalAuth(cookie, storeFails, lookup)
  {
  }

  // ---------------------------------------------------------------------------------
  // The service over the two tables

  class AuthService {
    var users: map<string, User>
    var sessions: map<string, Session>

    /** Rows are stored under their ids; usernames and emails are unique among users. */
    ghost predicate Valid()
      reads this
    {
      && (forall id :: id in users ==> users[id].id == id)
      && (forall id :: id in sessions ==> sessions[id].id == id)
      && (forall a, b :: a in users && b in users && users[a].username == users[b].username ==> a == b)
      && (forall a, b :: a in users && b in users && users[a].email == users[b].email ==> a == b)
    }

    /** Some user's username or email is the identifier. */
    ghost predicate Known(identifier: string)
      reads this
    {
      exists id :: id in users && MatchesIdentifier(users[id], identifier)
    }

    constructor()
      ensures users == map[] && sessions == map[]
      ensures Valid()
    {
      users := map[];
      sessions := map[];
    }

    /**
     * `createSession`: a new session for the user, expiring 30 days from now, under the id
     * made from the random bytes. An id already in the table makes the insert fail, and
     * nothing is stored.
     */
    method CreateSession(userId: string, bytes: seq<byte>, now: int) returns (sessionId: Option<string>)
      requires Valid() && |bytes| == SessionIdBytes
      modifies this
      ensures Valid() && users == old(users)
      ensures var id := SessionIdFrom(bytes);
        if id in old(sessions) then sessionId.None? && sessions == old(sessions)
        else (sessionId == Some(id)
          && sessions == old(sessions)[id := Session(id, userId, AddDays(now, SessionDurationDays))])
    {
      var id := SessionIdFrom(bytes);
      if id in sessions {
        return None;
      }
      sessions := sessions[id := Session(id, userId, AddDays(now, SessionDurationDays))];
      return Some(id);
    }

    /**
     * `getSessionUser`: the owning user of a live session; nothing for an unknown id, a
     * session without user, or an expired session, which is also deleted.
     */
    method GetSessionUser(sessionId: string, now: int) returns (user: Option<User>)
      requires Valid()
      modifies this
      ensures Valid() && users == old(users)
      ensures var found := LookupSession(old(users), old(sessions), sessionId, now);
        && (user.Some? <==> found.LiveSession?)
        && (user.Some? ==> user.value == found.user)
        && (if found.ExpiredSession? then sessions == old(sessions) - {sessionId} else sessions == old(sessions))
    {
      var found := LookupSession(users, sessions, sessionId, now);
      match found
      case NoSession =>
        user := None;
      case ExpiredSession =>
        DeleteSession(sessionId);
        user := None;
      case LiveSession(u) =>
        user := Some(u);
    }

    /** `deleteSession`: removes that id only; an unknown id changes nothing. */
    method DeleteSession(sessionId: string)
      requires Valid()
      modifies this
      ensures Valid() && users == old(users)
      ensures sessions == old(sessions) - {sessionId}
      ensures sessionId !in old(sessions) ==> sessions == old(sessions)
    {
      sessions := sessions - {sessionId};
    }

    /** `cleanupExpiredSessions`: removes exactly the sessions that expired before now. */
    method CleanupExpiredSessions(now: int)
      requires Valid()
      modifies this
      ensures Valid() && users == old(users)
      ensures sessions == Unexpired(old(sessions), now)
    {
      sessions := Unexpired(sessions, now);
    }

    /**
     * `register`. A user whose username or email is taken by the request is found first,
     * and the request is refused with nothing changed. Otherwise the new row is inserted
     * under the id the database assigns, then a session is created for it. An insert that
     * fails on a taken id ends in "Registration failed"; a failing session insert leaves
     * the user row in place.
     */
    method Register(req: RegisterRequest, hasher: Hasher, newUserId: string, bytes: seq<byte>, now: int)
      returns (result: AuthResult, ghost found: Option<User>)
      requires Valid() && |bytes| == SessionIdBytes
      modifies this
      ensures Valid()
      ensures found.Some? <==> exists id :: id in old(users) && (old(users)[id].username == req.username || old(users)[id].email == req.email)
      ensures found.Some? ==>
        found.value in old(users).Values && (found.value.username == req.username || found.value.email == req.email)
      ensures CheckRegistration(found, req).Some? ==>
        result == Failed(CheckRegistration(found, req).value) && users == old(users) && sessions == old(sessions)
      ensures found.None? && newUserId in old(users) ==>
        result == Failed(RegistrationFailed) && users == old(users) && sessions == old(sessions)
      ensures found.None? && newUserId !in old(users) ==>
        && users == old(users)[newUserId := NewUser(newUserId, req, hasher, now)]
        && var sid := SessionIdFrom(bytes);
          if sid in old(sessions) then result == Failed(RegistrationFailed) && sessions == old(sessions)
          else (result == Authenticated(NewUser(newUserId, req, hasher, now), sid)
            && sessions == old(sessions)[sid := Session(sid, newUserId, AddDays(now, SessionDurationDays))])
    {
      if id :| id in users && (users[id].username == req.username || users[id].email == req.email) {
        var row := Some(users[id]);
        found := row;
        return Failed(CheckRegistration(row, req).value), found;
      }
      found := None;
      if newUserId in users {
        return Failed(RegistrationFailed), found;
      }
      var u := NewUser(newUserId, req, hasher, now);
      users := users[newUserId := u];
      var sid := CreateSession(newUserId, bytes, now);
      if sid.None? {
        return Failed(RegistrationFailed), found;
      }
      result := Authenticated(u, sid.value);
    }

    /**
     * `login`. The row whose username or email is the identifier is looked up; the checks
     * then run in order: no row, a deactivated account, a wrong password. On success the
     * last login time is set, then a session is added beside the user's other ones; the
     * user returned is the row as it was read. A failing session insert ends in "Login
     * failed", after the last login time was already set.
     */
    method Login(identifier: string, password: string, hasher: Hasher, bytes: seq<byte>, now: int)
      returns (result: AuthResult, ghost found: Option<User>)
      requires Valid() && |bytes| == SessionIdBytes
      modifies this
      ensures Valid()
      ensures found.Some? <==> old(Known(identifier))
      ensures found.Some? ==> found.value in old(users).Values && MatchesIdentifier(found.value, identifier)
      ensures CheckLogin(found, password, hasher).Rejected? ==>
        result == Failed(CheckLogin(found, password, hasher).error) && users == old(users) && sessions == old(sessions)
      ensures CheckLogin(found, password, hasher).Accepted? ==>
        var u := found.value;
        var sid := SessionIdFrom(bytes);
        && users == old(users)[u.id := u.(lastLoginAt := Some(now))]
        && (if sid in old(sessions) then result == Failed(LoginFailed) && sessions == old(sessions)
          else (result == Authenticated(u, sid)
            && sessions == old(sessions)[sid := Session(sid, u.id, AddDays(now, SessionDurationDays))]))
    {
      var row: Option<User> := None;
      if id :| id in users && MatchesIdentifier(users[id], identifier) {
        row := Some(users[id]);
      }
      found := row;
      var check := CheckLogin(row, password, hasher);
      if check.Rejected? {
        return Failed(check.error), found;
      }
      var u := check.user;
      users := users[u.id := u.(lastLoginAt := Some(now))];
      var sid := CreateSession(u.id, bytes, now);
      if sid.None? {
        return Failed(LoginFailed), found;
      }
      result := Authenticated(u, sid.value);
    }

    /** `authenticateUser`, deciding on the session lookup; a failing store answers 500 and changes nothing. */
    method AuthenticateUser(cookie: Option<string>, storeFails: bool, now: int) returns (outcome: GateOutcome)
      requires Valid()
      modifies this
      ensures Valid() && users == old(users)
      ensures NoCookie(cookie) || storeFails ==> outcome == RequireAuth(cookie, storeFails, NoSession) && sessions == old(sessions)
      ensures !NoCookie(cookie) && !storeFails ==>
        var found := LookupSession(old(users), old(sessions), cookie.value, now);
        && outcome == RequireAuth(cookie, storeFails, found)
        && (if found.ExpiredSession? then sessions == old(sessions) - {cookie.value} else sessions == old(sessions))
    {
      if NoCookie(cookie) || storeFails {
        return RequireAuth(cookie, storeFails, NoSession);
      }
      var found := LookupSession(users, sessions, cookie.value, now);
      var user := GetSessionUser(cookie.value, now);
      outcome := RequireAuth(cookie, storeFails, found);
    }

    /** `optionalAuth`, deciding on the session lookup; it always lets the request through. */
    method OptionalAuthenticate(cookie: Option<string>, storeFails: bool, now: int) returns (outcome: GateOutcome)
      requires Valid()
      modifies this
      ensures Valid() && users == old(users)
      ensures outcome.Proceed?
      ensures NoCookie(cookie) || storeFails ==> outcome == Proceed(None) && sessions == old(sessions)
      ensures !NoCookie(cookie) && !storeFails ==>
        var found := LookupSession(old(users), old(sessions), cookie.value, now);
        && outcome == OptionalAuth(cookie, storeFails, found)
        && (if found.ExpiredSession? then sessions == old(sessions) - {cookie.value} else sessions == old(sessions))
    {
      if NoCookie(cookie) || storeFails {
        return Proceed(None);
      }
      var found := LookupSession(users, sessions, cookie.value, now);
      var user := GetSessionUser(cookie.value, now);
      outcome := OptionalAuth(cookie, storeFails, found);
    }
  }
}
