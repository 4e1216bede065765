/** Properties that span several handlers: how login, logout, refresh and profile update
    change what the authorisation gate and `/me` see, the activation timeline, and the
    invariant that every session belongs to a stored user. */
module Sessions {
  import opened Base
  import opened Signing
  import opened Http
  import opened Stores
  import opened Jwt
  import opened Auth
  import opened UserService
  import opened UserController

  // ----- the session invariant ----------------------------------------------------------

  /** A user the gate admits is a stored user, filed under the id the token names; this is
      what lets the protected handlers find `req.user` in the store. */
  lemma GateYieldsStoredUser(carrier: Option<Token>, cache: map<UserId, User>, emailOf: map<UserId, string>,
                             now: int, user: User)
    requires SessionsBacked(cache, emailOf)
    requires Gate(carrier, cache, now) == Proceed(user)
    ensures user.id == carrier.value.payload.id && user.id in emailOf
  {
  }

  /** Activation adds an id to the store and no session, so the invariant survives it. */
  lemma ActivationKeepsSessionsBacked(cache: map<UserId, User>, emailOf: map<UserId, string>, id: UserId, email: string)
    requires SessionsBacked(cache, emailOf)
    ensures SessionsBacked(cache, emailOf[id := email])
  {
  }

  /** Logout removes a session, so the invariant survives it. */
  lemma LogoutKeepsSessionsBacked(cache: map<UserId, User>, emailOf: map<UserId, string>, id: UserId)
    requires SessionsBacked(cache, emailOf)
    ensures SessionsBacked(LoggedOut(cache, id), emailOf)
  {
  }

  // ----- login, the gate and /me --------------------------------------------------------

  /** The access token `sendToken` issues opens the gate, for the snapshot it cached, for
      as long as the token lives. */
  lemma GateAdmitsAfterLogin(user: User, cache: map<UserId, User>, now: int, lifetimes: SignerLifetimes, at: int)
    requires now <= at < now + lifetimes.access
    ensures Gate(Some(IssuePair(user, now, lifetimes).0), cache[user.id := user], at) == Proceed(user)
  {
  }

  /** After logout deletes a user's session, that user's access token, though it has not
      expired, is refused with 404 "User not found". */
  lemma LogoutRevokesUnexpiredToken(user: User, cache: map<UserId, User>, now: int, lifetimes: SignerLifetimes, at: int)
    requires now <= at < now + lifetimes.access
    ensures Gate(Some(IssuePair(user, now, lifetimes).0), LoggedOut(cache[user.id := user], user.id), at)
            == Reject(HttpError(404, USER_NOT_FOUND))
  {
  }

  /** More generally: any access token that still verifies for `id` is refused once the
      session of `id` is gone. */
  lemma GateRejectsAfterLogout(token: Token, cache: map<UserId, User>, id: UserId, now: int)
    requires Verify(token, AccessSecret, now) == Decoded(Subject(id))
    ensures Gate(Some(token), LoggedOut(cache, id), now) == Reject(HttpError(404, USER_NOT_FOUND))
  {
  }

  /** `/me` right after a login answers 201 with exactly the document login cached: the one
      filed under the login email, password hash included (login loads it with
      `+password`). */
  lemma MeAfterLogin(email: string, password: string, users: map<string, User>, emailOf: map<UserId, string>,
                     cache: map<UserId, User>, user: User)
    requires Indexed(users, emailOf)
    requires LoginCheck(email, password, users) == Done(user)
    ensures user.email == email && user.password == Some(Hash(password))
    ensures GetUserById(cache[user.id := user], user.id)
            == Reply(201, EMPTY_BODY.(success := Some(true), user := Some(user)), [])
  {
  }

  /** An unknown email and a wrong password give the very same refusal. */
  lemma LoginFailuresIndistinguishable(users: map<string, User>, unknown: string, known: string,
                                       guess: string, wrong: string)
    requires unknown != "" && guess != "" && unknown !in users
    requires known != "" && wrong != "" && known in users && users[known].password != Some(Hash(wrong))
    ensures LoginCheck(unknown, guess, users) == LoginCheck(known, wrong, users)
            == Refused(HttpError(401, INVALID_CREDENTIALS))
  {
  }

  // ----- refresh --------------------------------------------------------------------------

  /** The access token a rotation mints opens the gate on the untouched cache, for the same
      snapshot, for five minutes; and the new refresh token can rotate again for three days. */
  lemma RotationKeepsSessionUsable(carrier: Option<Token>, cache: map<UserId, User>, emailOf: map<UserId, string>,
                                   now: int, rotation: Rotation, at: int)
    requires SessionsBacked(cache, emailOf)
    requires Rotate(carrier, cache, now) == Done(rotation)
    requires now <= at < now + ROTATED_ACCESS_LIFETIME
    ensures rotation.user.id == carrier.value.payload.id
    ensures Gate(Some(rotation.access), cache, at) == Proceed(rotation.user)
    ensures Rotate(Some(rotation.refresh), cache, at) == Done(Rotation(rotation.user,
              Sign(Subject(rotation.user.id), AccessSecret, at, ROTATED_ACCESS_LIFETIME),
              Sign(Subject(rotation.user.id), RefreshSecret, at, ROTATED_REFRESH_LIFETIME)))
  {
  }

  // ----- profile update -----------------------------------------------------------------

  /** Sending one's own current email is refused like any taken email. */
  lemma OwnEmailRefused(users: map<string, User>, emailOf: map<UserId, string>, id: UserId, name: string)
    requires Indexed(users, emailOf) && id in emailOf && emailOf[id] != ""
    ensures ProfileUpdate(Projected(users[emailOf[id]], false), name, emailOf[id], users)
            == Refused(HttpError(400, EMAIL_EXISTS))
  {
  }

  /** After a profile update the gate hands protected routes the updated snapshot. */
  lemma GateSeesUpdatedProfile(token: Token, cache: map<UserId, User>, id: UserId, updated: User, now: int)
    requires Verify(token, AccessSecret, now) == Decoded(Subject(id))
    ensures Gate(Some(token), cache[id := updated], now) == Proceed(updated)
  {
  }

  // ----- activation ---------------------------------------------------------------------

  /** The one-minute rule on a freshly issued token: the right code is accepted exactly
      60000 ms after issuance and refused 60001 ms after, although the token itself is still
      valid then (it lives ten minutes). */
  lemma ActivationWindowEdges(draft: Draft, random: real, issued: int, users: map<string, User>)
    requires 0.0 <= random < 1.0
    requires draft.email !in users
    ensures var t := CreateActivationToken(draft, random, issued);
      && ActivationCheck(Some(t.token), t.activationCode, issued + 60000, users) == Done(draft)
      && Verify(t.token, ActivationSecret, issued + 60001).Decoded?
      && ActivationCheck(Some(t.token), t.activationCode, issued + 60001, users) == Refused(HttpError(400, INVALID_CODE))
  {
  }

  /** Once its user exists, an activation token can never activate again. */
  lemma ReactivationRefused(token: Option<Token>, code: string, at: int, users: map<string, User>,
                            id: UserId, draft: Draft)
    requires token.Some? && token.value.payload.Activation? && token.value.payload.user == draft
    ensures ActivationCheck(token, code, at, users[draft.email := NewDocument(id, draft)]).Refused?
  {
  }

  /** Register at T0, activate with the mailed code 30 s later: exactly one user, filed under
      the email, is created. Using the same token and code again fails: 90 s after T0 with
      "Invalid or expired activation code" (the token is still valid), and 30 s after T0
      with "Email is already exist". */
  lemma RegisterActivateScenario(body: RegistrationBody, users: map<string, User>, random: real, t0: int, id: UserId)
    requires 0.0 <= random < 1.0
    requires body.email !in users
    ensures var reg := RegisterUser(body, users, random, t0, Delivered);
      var token := reg.reply.body.activationToken;
      var code := reg.mail.value.activationCode;
      var draft := Draft(body.name, body.email, body.password);
      var after := users[body.email := NewDocument(id, draft)];
      && reg.reply.status == 201
      && ActivationCheck(token, code, t0 + 30000, users) == Done(draft)
      && ActivationCheck(token, code, t0 + 90000, after) == Refused(HttpError(400, INVALID_CODE))
      && ActivationCheck(token, code, t0 + 30000, after) == Refused(HttpError(400, EMAIL_EXISTS))
  {
  }
}
