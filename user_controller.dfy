/** `server/controllers/user.controller.ts`: registration, activation, login, logout, token
    refresh, /me and profile update, each as the ordered guard chain the handler runs.
    Every error reaches the error middleware through `next(new ErrorHandler(...))`. */
module UserController {
  import opened Base
  import opened JsNumbers
  import opened Signing
  import opened Http
  import opened Stores
  import opened Jwt
  import opened UserService

  const EMAIL_EXISTS := "Email is already exist"
  const INVALID_TOKEN := "Invalid token"
  const INVALID_CODE := "Invalid or expired activation code"
  const MISSING_CREDENTIALS := "Please enter email & password"
  const INVALID_CREDENTIALS := "Invalid email or password"
  const REFRESH_NOT_FOUND := "Refresh token not found"
  const SESSION_NOT_FOUND := "Session not found"

  /** The activation code is good for one minute after it was issued. */
  const ACTIVATION_WINDOW_MS := 60 * 1000
  /** The lifetimes `updateAccessToken` signs with: `"5m"` and `"3d"`. */
  const ROTATED_ACCESS_LIFETIME := 5 * MINUTE_MS
  const ROTATED_REFRESH_LIFETIME := 3 * 24 * 60 * MINUTE_MS

  // ----- registration -------------------------------------------------------------------

  /** `IRegistrationBody`; a missing field is the empty string. */
  datatype RegistrationBody = RegistrationBody(name: string, email: string, password: string, avatar: Option<string>)

  /** `IActivationToken`: the signed token and the code as a string. */
  datatype ActivationTicket = ActivationTicket(token: Token, activationCode: string)

  /** `Math.floor(1000 + Math.random() * 9000)`, with `random` the value `Math.random()` gave. */
  function ActivationNumber(random: real): (n: int)
    requires 0.0 <= random < 1.0
    ensures 1000 <= n <= 9999
  {
    (1000.0 + random * 9000.0).Floor
  }

  /** `createActivationToken(user)` at time `now`: a four-digit code, and a token that
      carries the draft, that code and `now`, valid for ten minutes under `JWT_SECRET`. */
  function CreateActivationToken(user: Draft, random: real, now: int): (t: ActivationTicket)
    requires 0.0 <= random < 1.0
    ensures |t.activationCode| == 4 && AllDigits(t.activationCode)
    ensures ParseInt(t.activationCode).Finite? && 1000 <= ParseInt(t.activationCode).value <= 9999
    ensures forall at :: now <= at < now + ACTIVATION_TOKEN_LIFETIME ==>
      Verify(t.token, ActivationSecret, at) == Decoded(Activation(user, t.activationCode, now))
    ensures forall at :: now + ACTIVATION_TOKEN_LIFETIME <= at ==>
      Verify(t.token, ActivationSecret, at) == Rejected(JWT_EXPIRED)
  {
    var n := ActivationNumber(random);
    var code := DecimalString(n);
    FourDigits(n);
    assert code + "" == code;
    ParseIntOfDecimal(n, "");
    ActivationTicket(Sign(Activation(user, code, now), ActivationSecret, now, ACTIVATION_TOKEN_LIFETIME), code)
  }

  /** The activation mail handed to the mail collaborator. */
  datatype ActivationMail = ActivationMail(to: string, subject: string, template: string, name: string, activationCode: string)

  /** Whether `sendMail` resolved or threw (with its message). */
  datatype MailDelivery = Delivered | DeliveryFailed(message: string)

  datatype Registration = Registration(reply: Reply, mail: Option<ActivationMail>)

  /** `registerUser`: refuse a taken email before anything else; otherwise issue the
      activation token without the avatar, mail the code, and answer 201 only when the mail
      went out. Nothing is stored. */
  function RegisterUser(body: RegistrationBody, users: map<string, User>, random: real, now: int,
                        delivery: MailDelivery): (r: Registration)
    requires 0.0 <= random < 1.0
    ensures body.email in users ==> r == Registration(ErrorReply(HttpError(400, EMAIL_EXISTS)), None)
    ensures body.email !in users ==>
      && r.mail.Some?
      && r.mail.value.to == body.email && r.mail.value.name == body.name
      && r.mail.value.subject == "Account Activation" && r.mail.value.template == "activation-mail"
      && |r.mail.value.activationCode| == 4
    ensures body.email !in users && delivery.DeliveryFailed? ==>
      r.reply == ErrorReply(HttpError(400, delivery.message))
    ensures r.reply.status == 201 <==> body.email !in users && delivery.Delivered?
    ensures r.reply.status == 201 ==>
      && r.reply.body.success == Some(true)
      && r.reply.body.message == Some("Account activation email sent")
      && r.reply.body.activationToken.Some?
      && Verify(r.reply.body.activationToken.value, ActivationSecret, now)
         == Decoded(Activation(Draft(body.name, body.email, body.password), r.mail.value.activationCode, now))
  {
    if body.email in users then
      Registration(ErrorReply(HttpError(400, EMAIL_EXISTS)), None)
    else
      var draft := Draft(body.name, body.email, body.password);
      var ticket := CreateActivationToken(draft, random, now);
      var mail := ActivationMail(body.email, "Account Activation", "activation-mail", body.name, ticket.activationCode);
      match delivery
      case DeliveryFailed(message) => Registration(ErrorReply(HttpError(400, message)), Some(mail))
      case Delivered =>
        Registration(Reply(201, EMPTY_BODY.(success := Some(true), message := Some("Account activation email sent"),
                                            activationToken := Some(ticket.token)), []),
                     Some(mail))
  }

  // ----- activation ---------------------------------------------------------------------

  /** `(Date.now() - activationCodeCreatedAt) / (1000 * 60)`: minutes, as a real number. */
  function MinutesSince(createdAt: int, now: int): real
  {
    (now - createdAt) as real / 60000.0
  }

  /** The code check: the embedded code equals the supplied one and no more than one
      minute has passed. A payload that is not an activation bundle has no code. */
  function CodeAccepted(claims: Claims, supplied: string, now: int): (ok: bool)
    ensures ok <==> claims.Activation? && claims.activationCode == supplied
                    && now - claims.createdAt <= ACTIVATION_WINDOW_MS
  {
    claims.Activation? && claims.activationCode == supplied
    && (WindowInMilliseconds(claims.createdAt, now); !(MinutesSince(claims.createdAt, now) > 1.0))
  }

  /** "More than one minute" is "more than 60000 ms": exactly 60000 ms still passes. */
  lemma WindowInMilliseconds(createdAt: int, now: int)
    ensures MinutesSince(createdAt, now) > 1.0 <==> now - createdAt > ACTIVATION_WINDOW_MS
  {
    var x := (now - createdAt) as real;
    assert MinutesSince(createdAt, now) * 60000.0 == x;
  }

  /** The guard chain of `activateUser` (lines 104-131), in order: a missing token, the
      signature and expiry check, the code and time check, the duplicate email. On success
      it gives the draft to create. */
  function ActivationCheck(carrier: Option<Token>, supplied: string, now: int, users: map<string, User>): (r: Outcome<Draft>)
    ensures carrier.None? ==> r == Refused(HttpError(400, INVALID_TOKEN))
    ensures carrier.Some? && Verify(carrier.value, ActivationSecret, now).Rejected? ==>
      r == Refused(HttpError(400, Verify(carrier.value, ActivationSecret, now).message))
    ensures carrier.Some? && Verify(carrier.value, ActivationSecret, now).Decoded?
            && !CodeAccepted(carrier.value.payload, supplied, now) ==>
      r == Refused(HttpError(400, INVALID_CODE))
    ensures carrier.Some? && Verify(carrier.value, ActivationSecret, now).Decoded?
            && CodeAccepted(carrier.value.payload, supplied, now)
            && carrier.value.payload.user.email in users ==>
      r == Refused(HttpError(400, EMAIL_EXISTS))
    ensures r.Done? <==>
      && carrier.Some? && Verify(carrier.value, ActivationSecret, now).Decoded?
      && CodeAccepted(carrier.value.payload, supplied, now)
      && carrier.value.payload.user.email !in users
    ensures r.Done? ==> r.value == carrier.value.payload.user
    ensures r.Refused? ==> r.error.status == 400
  {
    if carrier.None? then Refused(HttpError(400, INVALID_TOKEN))
    else match Verify(carrier.value, ActivationSecret, now)
      case Rejected(message) => Refused(HttpError(400, message))
      case Decoded(claims) =>
        if !CodeAccepted(claims, supplied, now) then Refused(HttpError(400, INVALID_CODE))
        else if claims.user.email in users then Refused(HttpError(400, EMAIL_EXISTS))
        else Done(claims.user)
  }

  /** `activateUser`: the user is created, under the fresh `_id` the store assigns, only
      when every guard passes; otherwise nothing is stored. */
  method ActivateUser(token: Option<Token>, activationCode: string, now: int, freshId: UserId,
                      store: UserStore) returns (reply: Reply)
    requires store.Valid() && freshId !in store.emailOf
    modifies store
    ensures store.Valid()
    ensures match ActivationCheck(token, activationCode, now, old(store.users))
      case Refused(e) =>
        reply == ErrorReply(e) && store.users == old(store.users) && store.emailOf == old(store.emailOf)
      case Done(d) =>
        && store.users == old(store.users)[d.email := NewDocument(freshId, d)]
        && store.emailOf == old(store.emailOf)[freshId := d.email]
        && reply == Reply(201, EMPTY_BODY.(success := Some(true), message := Some("Account activated successfully"),
                                           user := Some(NewDocument(freshId, d))), [])
  {
    if token.None? {
      return ErrorReply(HttpError(400, INVALID_TOKEN));
    }
    var verified := Verify(token.value, ActivationSecret, now);
    if verified.Rejected? {
      return ErrorReply(HttpError(400, verified.message));
    }
    var claims := verified.claims;
    if !CodeAccepted(claims, activationCode, now) {
      return ErrorReply(HttpError(400, INVALID_CODE));
    }
    var existing := store.FindByEmail(claims.user.email, false);
    if existing.Some? {
      return ErrorReply(HttpError(400, EMAIL_EXISTS));
    }
    var created := store.Create(freshId, claims.user);
    reply := Reply(201, EMPTY_BODY.(success := Some(true), message := Some("Account activated successfully"),
                                    user := Some(created)), []);
  }

  // ----- login --------------------------------------------------------------------------

  /** The guard chain of `loginUser` (lines 162-176): both fields are required, then an
      unknown email and a wrong password fail alike. On success it gives the document
      loaded with its password hash. */
  function LoginCheck(email: string, password: string, users: map<string, User>): (r: Outcome<User>)
    ensures email == "" || password == "" ==> r == Refused(HttpError(400, MISSING_CREDENTIALS))
    ensures email != "" && password != "" && r.Refused? ==> r == Refused(HttpError(401, INVALID_CREDENTIALS))
    ensures r.Done? <==>
      email != "" && password != "" && email in users && users[email].password == Some(Hash(password))
    ensures r.Done? ==> r.value == users[email]
  {
    if email == "" || password == "" then Refused(HttpError(400, MISSING_CREDENTIALS))
    else if email !in users then Refused(HttpError(401, INVALID_CREDENTIALS))
    else
      var user := Projected(users[email], true);
      if user.password != Some(Hash(password)) then Refused(HttpError(401, INVALID_CREDENTIALS))
      else Done(user)
  }

  /** `loginUser`: only a matching password reaches `sendToken(res, user, 200)`; any
      refusal leaves the cache and the cookie options as they were. */
  method LoginUser(email: string, password: string, now: int, lifetimes: SignerLifetimes, env: Env,
                   store: UserStore, cache: SessionCache, settings: CookieSettings) returns (reply: Reply)
    requires store.Valid() && SessionsBacked(cache.entries, store.emailOf)
    modifies cache, settings
    ensures SessionsBacked(cache.entries, store.emailOf)
    ensures match LoginCheck(email, password, store.users)
      case Refused(e) =>
        && reply == ErrorReply(e) && cache.entries == old(cache.entries)
        && settings.accessOptions == old(settings.accessOptions)
        && settings.refreshOptions == old(settings.refreshOptions)
      case Done(user) =>
        && cache.entries == old(cache.entries)[user.id := user]
        && settings.accessOptions == SecuredAccess(old(settings.accessOptions), env)
        && settings.refreshOptions == old(settings.refreshOptions)
        && reply == TokenReply(user, 200, now, lifetimes, settings.accessOptions, settings.refreshOptions)
  {
    if email == "" || password == "" {
      return ErrorReply(HttpError(400, MISSING_CREDENTIALS));
    }
    var found := store.FindByEmail(email, true);
    if found.None? {
      return ErrorReply(HttpError(401, INVALID_CREDENTIALS));
    }
    var user := found.value;
    if user.password != Some(Hash(password)) {
      return ErrorReply(HttpError(401, INVALID_CREDENTIALS));
    }
    reply := SendToken(user, 200, now, lifetimes, env, cache, settings);
  }

  // ----- logout -------------------------------------------------------------------------

  /** The options `logoutUser` clears both cookies with: only `maxAge: 1`. */
  const CLEARING_COOKIE := CookieOptions(None, Finite(1), false, None, false)

  /** The cache after `redis.del(id)`: that one session is gone and every other one is kept. */
  function LoggedOut(cache: map<UserId, User>, id: UserId): (m: map<UserId, User>)
    ensures id !in m && m.Keys == cache.Keys - {id}
    ensures forall k :: k in m ==> m[k] == cache[k]
  {
    cache - {id}
  }

  /** `logoutUser`, behind the gate: both cookies become `""` with `maxAge: 1` and the
      session of `req.user._id` is deleted. */
  method LogoutUser(req: Request, cache: SessionCache) returns (reply: Reply)
    requires req.user.Some?
    modifies cache
    ensures cache.entries == LoggedOut(old(cache.entries), req.user.value.id)
    ensures reply == Reply(200, EMPTY_BODY.(success := Some(true), message := Some("Logged out successfully")),
                           [SetCookie("accessToken", Cleared, CLEARING_COOKIE),
                            SetCookie("refreshToken", Cleared, CLEARING_COOKIE)])
  {
    var cookies := [SetCookie("accessToken", Cleared, CLEARING_COOKIE),
                    SetCookie("refreshToken", Cleared, CLEARING_COOKIE)];
    cache.Del(req.user.value.id);
    reply := Reply(200, EMPTY_BODY.(success := Some(true), message := Some("Logged out successfully")), cookies);
  }

  // ----- refresh ------------------------------------------------------------------------

  /** A successful rotation: the cached snapshot and the two newly signed tokens. */
  datatype Rotation = Rotation(user: User, access: Token, refresh: Token)

  /** The guard chain of `updateAccessToken` (lines 212-244). A verify failure is thrown and
      reaches the generic catch, hence 400; a payload without `id` finds no session. */
  function Rotate(carrier: Option<Token>, cache: map<UserId, User>, now: int): (r: Outcome<Rotation>)
    ensures carrier.None? ==> r == Refused(HttpError(401, REFRESH_NOT_FOUND))
    ensures carrier.Some? && Verify(carrier.value, RefreshSecret, now).Rejected? ==>
      r == Refused(HttpError(400, Verify(carrier.value, RefreshSecret, now).message))
    ensures carrier.Some? && Verify(carrier.value, RefreshSecret, now).Decoded?
            && !(carrier.value.payload.Subject? && carrier.value.payload.id in cache) ==>
      r == Refused(HttpError(404, SESSION_NOT_FOUND))
    ensures r.Done? <==>
      && carrier.Some? && Verify(carrier.value, RefreshSecret, now).Decoded?
      && carrier.value.payload.Subject? && carrier.value.payload.id in cache
    ensures r.Done? ==> r.value.user == cache[carrier.value.payload.id]
    ensures r.Done? ==> forall at :: now <= at < now + ROTATED_ACCESS_LIFETIME ==>
      Verify(r.value.access, AccessSecret, at) == Decoded(Subject(r.value.user.id))
    ensures r.Done? ==> forall at :: now <= at < now + ROTATED_REFRESH_LIFETIME ==>
      Verify(r.value.refresh, RefreshSecret, at) == Decoded(Subject(r.value.user.id))
    ensures r.Done? ==> forall at :: now + ROTATED_ACCESS_LIFETIME <= at ==>
      Verify(r.value.access, AccessSecret, at) == Rejected(JWT_EXPIRED)
    ensures r.Done? ==> forall at :: now + ROTATED_REFRESH_LIFETIME <= at ==>
      Verify(r.value.refresh, RefreshSecret, at) == Rejected(JWT_EXPIRED)
  {
    if carrier.None? then Refused(HttpError(401, REFRESH_NOT_FOUND))
    else match Verify(carrier.value, RefreshSecret, now)
      case Rejected(message) => Refused(HttpError(400, message))
      case Decoded(claims) =>
        match SubjectId(claims)
        case None => Refused(HttpError(404, SESSION_NOT_FOUND))
        case Some(id) =>
          if id !in cache then Refused(HttpError(404, SESSION_NOT_FOUND))
          else
            var current := cache[id];
            Done(Rotation(current,
                          Sign(Subject(current.id), AccessSecret, now, ROTATED_ACCESS_LIFETIME),
                          Sign(Subject(current.id), RefreshSecret, now, ROTATED_REFRESH_LIFETIME)))
  }

  /** `updateAccessToken`: on success `req.user` becomes the snapshot and both cookies carry
      the new pair with the shared option objects; the session cache is only read. */
  method UpdateAccessToken(req: Request, now: int, cache: SessionCache, settings: CookieSettings) returns (reply: Reply)
    modifies req
    ensures cache.entries == old(cache.entries)
    ensures match Rotate(req.refreshToken, cache.entries, now)
      case Refused(e) => reply == ErrorReply(e) && req.user == old(req.user)
      case Done(rotation) =>
        && req.user == Some(rotation.user)
        && reply == Reply(200, EMPTY_BODY.(success := Some(true), accessToken := Some(rotation.access)),
                          [SetCookie("accessToken", Carrying(rotation.access), settings.accessOptions),
                           SetCookie("refreshToken", Carrying(rotation.refresh), settings.refreshOptions)])
  {
    if req.refreshToken.None? {
      return ErrorReply(HttpError(401, REFRESH_NOT_FOUND));
    }
    var verified := Verify(req.refreshToken.value, RefreshSecret, now);
    if verified.Rejected? {
      return ErrorReply(HttpError(400, verified.message));
    }
    var session: Option<User> := None;
    if verified.claims.Subject? {
      session := cache.Get(verified.claims.id);
    }
    if session.None? {
      return ErrorReply(HttpError(404, SESSION_NOT_FOUND));
    }
    var current := session.value;
    var accessTokenNew := Sign(Subject(current.id), AccessSecret, now, ROTATED_ACCESS_LIFETIME);
    var refreshTokenNew := Sign(Subject(current.id), RefreshSecret, now, ROTATED_REFRESH_LIFETIME);
    req.user := Some(current);
    reply := Reply(200, EMPTY_BODY.(success := Some(true), accessToken := Some(accessTokenNew)),
                   [SetCookie("accessToken", Carrying(accessTokenNew), settings.accessOptions),
                    SetCookie("refreshToken", Carrying(refreshTokenNew), settings.refreshOptions)]);
  }

  // ----- /me ----------------------------------------------------------------------------

  /** `getUserInfo`, behind the gate: `getUserById(req.user._id)`, reading the cache only. */
  method GetUserInfo(req: Request, cache: SessionCache) returns (reply: Reply)
    requires req.user.Some?
    ensures reply == GetUserById(cache.entries, req.user.value.id)
  {
    var snapshot := cache.Get(req.user.value.id);
    if snapshot.None? {
      reply := Reply(404, EMPTY_BODY.(message := Some("User not found")), []);
    } else {
      reply := Reply(201, EMPTY_BODY.(success := Some(true), user := Some(snapshot.value)), []);
    }
  }

  // ----- profile update -----------------------------------------------------------------

  /** The in-memory edits and the check of `updateUserInfo` (lines 286-295) on the document
      `findById` returned: a non-empty name is taken, a non-empty email must not be on any
      stored document (the user's own included) and is then taken. */
  function ProfileUpdate(current: User, name: string, email: string, users: map<string, User>): (r: Outcome<User>)
    ensures email != "" && email in users ==> r == Refused(HttpError(400, EMAIL_EXISTS))
    ensures r.Done? <==> email == "" || email !in users
    ensures r.Done? ==> && r.value.id == current.id && r.value.password == current.password
                        && r.value.name == (if name != "" then name else current.name)
                        && r.value.email == (if email != "" then email else current.email)
  {
    var named := if name != "" then current.(name := name) else current;
    if email == "" then Done(named)
    else if email in users then Refused(HttpError(400, EMAIL_EXISTS))
    else Done(named.(email := email))
  }

  /** `updateUserInfo`, behind the gate: a refused email changes neither the store nor the
      cache (so a name sent with it is not saved either); otherwise the document is saved
      and the session of `req.user._id` is overwritten with it (without its password). */
  method UpdateUserInfo(req: Request, name: string, email: string, store: UserStore, cache: SessionCache)
    returns (reply: Reply)
    requires store.Valid()
    requires req.user.Some? && req.user.value.id in store.emailOf
    requires SessionsBacked(cache.entries, store.emailOf)
    modifies store, cache
    ensures store.Valid() && SessionsBacked(cache.entries, store.emailOf)
    ensures var id := req.user.value.id;
      var stored := old(store.users)[old(store.emailOf)[id]];
      match ProfileUpdate(Projected(stored, false), name, email, old(store.users))
      case Refused(e) =>
        && reply == ErrorReply(e)
        && store.users == old(store.users) && store.emailOf == old(store.emailOf)
        && cache.entries == old(cache.entries)
      case Done(user) =>
        && store.users == (old(store.users) - {stored.email})[user.email := stored.(name := user.name, email := user.email)]
        && store.emailOf == old(store.emailOf)[id := user.email]
        && cache.entries == old(cache.entries)[id := user]
        && reply == Reply(200, EMPTY_BODY.(success := Some(true), message := Some("User updated successfully"),
                                           user := Some(user)), [])
  {
    var userId := req.user.value.id;
    var found := store.FindById(userId);
    var user := found.value;
    if name != "" {
      user := user.(name := name);
    }
    if email != "" {
      var existing := store.FindByEmail(email, false);
      if existing.Some? {
        return ErrorReply(HttpError(400, EMAIL_EXISTS));
      }
      user := user.(email := email);
    }
    store.Save(userId, user.name, user.email);
    cache.Set(userId, user);
    reply := Reply(200, EMPTY_BODY.(success := Some(true), message := Some("User updated successfully"),
                                    user := Some(user)), []);
  }
}
