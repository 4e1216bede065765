/** `server/middleware/auth.ts`: the `isAuthenticated` gate in front of the protected
    routes (logout, /me, update-user-info). */
module Auth {
  import opened Base
  import opened Signing
  import opened Http
  import opened Stores

  const LOGIN_FIRST := "Login first to access this resource"
  const LOGIN_FIRST_OR_ERROR := "Login first to access this resource or some error"
  const TOKEN_NOT_VALID := "Access token is not valid"
  const USER_NOT_FOUND := "User not found"

  /** The gate's verdict: `next()` with `req.user` set to the snapshot, or `next(error)`. */
  datatype GateOutcome = Proceed(user: User) | Reject(error: HttpError)

  /** The guard chain of `isAuthenticated` on the access-token cookie, the cache contents
      and the clock. It reads the cache at most once and never writes it. */
  function Gate(carrier: Option<Token>, cache: map<UserId, User>, now: int): (r: GateOutcome)
    ensures carrier.None? ==> r == Reject(HttpError(401, LOGIN_FIRST))
    ensures carrier.Some? && Verify(carrier.value, AccessSecret, now).Rejected? ==>
      r == Reject(HttpError(401, LOGIN_FIRST_OR_ERROR))
    ensures carrier.Some? && Verify(carrier.value, AccessSecret, now) == Decoded(Falsy) ==>
      r == Reject(HttpError(401, TOKEN_NOT_VALID))
    ensures carrier.Some? && Verify(carrier.value, AccessSecret, now).Decoded? && carrier.value.payload != Falsy
            && (!carrier.value.payload.Subject? || carrier.value.payload.id !in cache) ==>
      r == Reject(HttpError(404, USER_NOT_FOUND))
    ensures r.Proceed? <==>
      carrier.Some? && carrier.value.secret == AccessSecret && now < carrier.value.expiresAt
      && carrier.value.payload.Subject? && carrier.value.payload.id in cache
    ensures r.Proceed? ==> r.user == cache[carrier.value.payload.id]
  {
    if carrier.None? then Reject(HttpError(401, LOGIN_FIRST))
    else match Verify(carrier.value, AccessSecret, now)
      case Rejected(_) => Reject(HttpError(401, LOGIN_FIRST_OR_ERROR))
      case Decoded(claims) =>
        if claims.Falsy? then Reject(HttpError(401, TOKEN_NOT_VALID))
        else match SubjectId(claims)
          // a payload without `id` looks up `undefined`, which finds no snapshot
          case None => Reject(HttpError(404, USER_NOT_FOUND))
          case Some(id) =>
            if id in cache then Proceed(cache[id]) else Reject(HttpError(404, USER_NOT_FOUND))
  }

  /** `isAuthenticated(req, res, next)`: on success `req.user` becomes the cached snapshot
      and `next()` is called once; on failure `req.user` is untouched and the error is
      passed to `next` instead. The cache is only read. */
  method IsAuthenticated(req: Request, cache: SessionCache, now: int) returns (r: GateOutcome)
    modifies req
    ensures r == Gate(req.accessToken, cache.entries, now)
    ensures req.user == if r.Proceed? then Some(r.user) else old(req.user)
  {
    if req.accessToken.None? {
      return Reject(HttpError(401, LOGIN_FIRST));
    }
    var verified := Verify(req.accessToken.value, AccessSecret, now);
    if verified.Rejected? {
      return Reject(HttpError(401, LOGIN_FIRST_OR_ERROR));
    }
    if verified.claims.Falsy? {
      return Reject(HttpError(401, TOKEN_NOT_VALID));
    }
    var snapshot: Option<User> := None;
    if verified.claims.Subject? {
      snapshot := cache.Get(verified.claims.id);
    }
    if snapshot.None? {
      return Reject(HttpError(404, USER_NOT_FOUND));
    }
    req.user := snapshot;
    r := Proceed(snapshot.value);
  }
}
