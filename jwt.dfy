/** `server/utils/jwt.ts`: the cookie options computed once when the module loads, and
    `sendToken`, which issues the access/refresh pair, writes the session and sets the
    cookies. */
module Jwt {
  import opened Base
  import opened JsNumbers
  import opened Signing
  import opened Http
  import opened Stores

  /** The environment variables the module reads. */
  datatype Env = Env(
    accessTokenExpire: Option<string>,   // ACCESS_TOKEN_EXPIRE
    refreshTokenExpire: Option<string>,  // REFRESH_TOKEN_EXPIRE
    nodeEnv: Option<string>)             // NODE_ENV

  /** Lifetimes (ms) that the user model's `signAccessToken`/`signRefreshToken` give their
      tokens; `models/user.model.ts` is not part of this model, so they are parameters. */
  datatype SignerLifetimes = SignerLifetimes(access: nat, refresh: nat)

  const HOUR_MS := 60 * 60 * 1000
  const DAY_MS := 24 * 60 * 60 * 1000

  predicate Production(env: Env)
  {
    env.nodeEnv == Some("production")
  }

  /** `parseInt(value || fallback, 10)`: a variable that is unset or empty (both falsy)
      falls back; any other value is parsed as written. */
  function ExpireSetting(value: Option<string>, fallback: string): (r: JsNumber)
    ensures value.None? || value == Some("") ==> r == ParseInt(fallback)
    ensures value.Some? && value.value != "" ==> r == ParseInt(value.value)
  {
    ParseInt(if value.None? || value.value == "" then fallback else value.value)
  }

  /** `accessTokenExpire`, a number of hours: 300 when `ACCESS_TOKEN_EXPIRE` is unset or empty. */
  function AccessTokenExpire(env: Env): (r: JsNumber)
    ensures env.accessTokenExpire.None? || env.accessTokenExpire == Some("") ==> r == Finite(300)
    ensures env.accessTokenExpire.Some? && env.accessTokenExpire.value != "" ==>
      r == ParseInt(env.accessTokenExpire.value)
  {
    assert DecimalString(300) + "" == "300";
    ParseIntOfDecimal(300, "");
    ExpireSetting(env.accessTokenExpire, "300")
  }

  /** `refreshTokenExpire`, a number of days: 1200 when `REFRESH_TOKEN_EXPIRE` is unset or empty. */
  function RefreshTokenExpire(env: Env): (r: JsNumber)
    ensures env.refreshTokenExpire.None? || env.refreshTokenExpire == Some("") ==> r == Finite(1200)
    ensures env.refreshTokenExpire.Some? && env.refreshTokenExpire.value != "" ==>
      r == ParseInt(env.refreshTokenExpire.value)
  {
    assert DecimalString(1200) + "" == "1200";
    ParseIntOfDecimal(1200, "");
    ExpireSetting(env.refreshTokenExpire, "1200")
  }

  /** `x * k` on a JavaScript number. */
  function Times(x: JsNumber, k: int): JsNumber
  {
    if x.NaN? then NaN else Finite(x.value * k)
  }

  /** `t + x` on a JavaScript number; `new Date(NaN)` is an invalid date, NaN here. */
  function Plus(t: int, x: JsNumber): JsNumber
  {
    if x.NaN? then NaN else Finite(t + x.value)
  }

  /** `accessTokenOptions` as built at load time, `clock` being the `Date.now()` read for it. */
  function AccessTokenOptions(env: Env, clock: int): (o: CookieOptions)
    ensures AccessTokenExpire(env).Finite? ==>
      o.maxAge == Finite(AccessTokenExpire(env).value * 3600000)
      && o.expires == Some(Finite(clock + AccessTokenExpire(env).value * 3600000))
    ensures AccessTokenExpire(env).NaN? ==> o.maxAge == NaN && o.expires == Some(NaN)
    ensures o.httpOnly && o.sameSite == Some("lax") && !o.secure
  {
    var maxAge := Times(AccessTokenExpire(env), HOUR_MS);
    CookieOptions(Some(Plus(clock, maxAge)), maxAge, true, Some("lax"), false)
  }

  /** `refreshTokenOptions` as built at load time, `clock` being the `Date.now()` read for it. */
  function RefreshTokenOptions(env: Env, clock: int): (o: CookieOptions)
    ensures RefreshTokenExpire(env).Finite? ==>
      o.maxAge == Finite(RefreshTokenExpire(env).value * 86400000)
      && o.expires == Some(Finite(clock + RefreshTokenExpire(env).value * 86400000))
    ensures RefreshTokenExpire(env).NaN? ==> o.maxAge == NaN && o.expires == Some(NaN)
    ensures o.httpOnly && o.sameSite == Some("lax") && !o.secure
  {
    var maxAge := Times(RefreshTokenExpire(env), DAY_MS);
    CookieOptions(Some(Plus(clock, maxAge)), maxAge, true, Some("lax"), false)
  }

  /** With nothing in the environment the access cookie lives 300 hours and the refresh
      cookie 1200 days. */
  lemma DefaultCookieLifetimes(env: Env, accessClock: int, refreshClock: int)
    requires env.accessTokenExpire.None? && env.refreshTokenExpire.None?
    ensures AccessTokenExpire(env) == Finite(300) && RefreshTokenExpire(env) == Finite(1200)
    ensures AccessTokenOptions(env, accessClock).maxAge == Finite(1080000000)
    ensures AccessTokenOptions(env, accessClock).expires == Some(Finite(accessClock + 1080000000))
    ensures RefreshTokenOptions(env, refreshClock).maxAge == Finite(103680000000)
    ensures RefreshTokenOptions(env, refreshClock).expires == Some(Finite(refreshClock + 103680000000))
  {
    assert DecimalString(300) == "300";
    assert DecimalString(1200) == "1200";
    ParseIntOfDecimal(300, "");
    ParseIntOfDecimal(1200, "");
    assert "300" + "" == "300" && "1200" + "" == "1200";
  }

  /** A variable holding a number, possibly followed by a unit such as `"5m"`, counts as that
      many hours for the access cookie: only the leading digits are read. */
  lemma ConfiguredAccessLifetime(env: Env, n: nat, unit: string, clock: int)
    requires unit == [] || !IsDigit(unit[0])
    requires env.accessTokenExpire == Some(DecimalString(n) + unit)
    ensures AccessTokenOptions(env, clock).maxAge == Finite(n * HOUR_MS)
  {
    ParseIntOfDecimal(n, unit);
  }

  /** The module-level option objects. They are shared by every request: `sendToken` sets
      `secure` on the access options in production and it stays set afterwards. */
  class CookieSettings {
    var accessOptions: CookieOptions
    var refreshOptions: CookieOptions

    /** Module load, with the two `Date.now()` reads of lines 23-28. */
    constructor (env: Env, accessClock: int, refreshClock: int)
      ensures accessOptions == AccessTokenOptions(env, accessClock)
      ensures refreshOptions == RefreshTokenOptions(env, refreshClock)
    {
      accessOptions := AccessTokenOptions(env, accessClock);
      refreshOptions := RefreshTokenOptions(env, refreshClock);
    }
  }

  /** The pair `user.signAccessToken()` / `user.signRefreshToken()` returns at time `now`. */
  function IssuePair(user: User, now: int, lifetimes: SignerLifetimes): (pair: (Token, Token))
    ensures forall at :: now <= at < now + lifetimes.access ==>
      Verify(pair.0, AccessSecret, at) == Decoded(Subject(user.id))
    ensures forall at :: now <= at < now + lifetimes.refresh ==>
      Verify(pair.1, RefreshSecret, at) == Decoded(Subject(user.id))
    ensures forall at :: now + lifetimes.access <= at ==> Verify(pair.0, AccessSecret, at) == Rejected(JWT_EXPIRED)
    ensures forall at :: now + lifetimes.refresh <= at ==> Verify(pair.1, RefreshSecret, at) == Rejected(JWT_EXPIRED)
    ensures forall at :: Verify(pair.0, RefreshSecret, at).Rejected? && Verify(pair.1, AccessSecret, at).Rejected?
  {
    (Sign(Subject(user.id), AccessSecret, now, lifetimes.access),
     Sign(Subject(user.id), RefreshSecret, now, lifetimes.refresh))
  }

  /** The access options after `sendToken`'s production switch (lines 49-51). */
  function SecuredAccess(options: CookieOptions, env: Env): (o: CookieOptions)
    ensures o.secure == (options.secure || Production(env))
    ensures o.(secure := options.secure) == options
  {
    if Production(env) then options.(secure := true) else options
  }

  /** The reply of `sendToken` (lines 52-59), given the option objects in force: both cookies
      carry the freshly signed pair, and the body carries the same access token and the user. */
  function TokenReply(user: User, status: int, now: int, lifetimes: SignerLifetimes,
                      access: CookieOptions, refresh: CookieOptions): (reply: Reply)
    ensures reply.status == status
    ensures reply.body.success == Some(true) && reply.body.user == Some(user)
    ensures reply.body.message.None? && reply.body.activationToken.None?
    ensures reply.body.accessToken.Some? && |reply.cookies| == 2
    ensures reply.cookies[0] == SetCookie("accessToken", Carrying(reply.body.accessToken.value), access)
    ensures reply.cookies[1].name == "refreshToken" && reply.cookies[1].options == refresh
    ensures reply.cookies[1].value.Carrying?
    ensures (reply.body.accessToken.value, reply.cookies[1].value.token) == IssuePair(user, now, lifetimes)
  {
    var (accessToken, refreshToken) := IssuePair(user, now, lifetimes);
    Reply(status, EMPTY_BODY.(success := Some(true), accessToken := Some(accessToken), user := Some(user)),
          [SetCookie("accessToken", Carrying(accessToken), access),
           SetCookie("refreshToken", Carrying(refreshToken), refresh)])
  }

  /** `sendToken(res, user, statusCode)`: the session snapshot is written under `user.id`
      with no expiry, every other session is kept, and the refresh options never gain
      `secure`. */
  method SendToken(user: User, status: int, now: int, lifetimes: SignerLifetimes, env: Env,
                   cache: SessionCache, settings: CookieSettings) returns (reply: Reply)
    modifies cache, settings
    ensures cache.entries == old(cache.entries)[user.id := user]
    ensures settings.accessOptions == SecuredAccess(old(settings.accessOptions), env)
    ensures settings.refreshOptions == old(settings.refreshOptions)
    ensures reply == TokenReply(user, status, now, lifetimes, settings.accessOptions, settings.refreshOptions)
  {
    var pair := IssuePair(user, now, lifetimes);
    cache.Set(user.id, user);
    if Production(env) {
      settings.accessOptions := settings.accessOptions.(secure := true);
    }
    reply := Reply(status, EMPTY_BODY.(success := Some(true), accessToken := Some(pair.0), user := Some(user)),
                   [SetCookie("accessToken", Carrying(pair.0), settings.accessOptions),
                    SetCookie("refreshToken", Carrying(pair.1), settings.refreshOptions)]);
  }
}
