/** The two token tables of apps/users/models.py and how `create_for_user`
    rewrites them. A fresh token string (`secrets.token_urlsafe`) and the
    clock (`timezone.now`) are parameters. */
module UserTokens {
  import opened Base
  import opened Models
  import opened Store

  /** `EmailVerificationToken.objects.filter(user=user).delete()`. */
  function DropVerificationTokensOf(tokens: map<string, VerificationToken>, u: Id): (r: map<string, VerificationToken>)
    ensures forall s :: s in r <==> s in tokens && tokens[s].userId != u
    ensures forall s :: s in r ==> r[s] == tokens[s]
  {
    map s | s in tokens && tokens[s].userId != u :: tokens[s]
  }

  /** The verification table after `create_for_user(u)` at `now`. */
  function WithNewVerificationToken(tokens: map<string, VerificationToken>, u: Id, token: string, now: int): map<string, VerificationToken>
  {
    DropVerificationTokensOf(tokens, u)[token := VerificationToken(u, now, now + VerificationLifetime)]
  }

  /** The token strings of one user. */
  function VerificationTokensOf(tokens: map<string, VerificationToken>, u: Id): set<string>
  {
    set s | s in tokens && tokens[s].userId == u
  }

  /** Afterwards the user holds exactly the new token, which expires 24 hours
      on; the tokens of every other user are untouched. */
  lemma NewVerificationTokenReplaces(tokens: map<string, VerificationToken>, u: Id, token: string, now: int)
    ensures var r := WithNewVerificationToken(tokens, u, token, now);
      VerificationTokensOf(r, u) == {token}
      && r[token].expiresAt == now + 86400
      && forall s :: s in tokens && tokens[s].userId != u && s != token ==> s in r && r[s] == tokens[s]
  {
  }

  /** `token` stands for a fresh `secrets.token_urlsafe(48)`: no row holds it. */
  method CreateVerificationToken(db: Db, u: Id, token: string, now: int)
    requires db.Valid() && u in db.users && token !in db.verificationTokens
    modifies db`verificationTokens
    ensures db.Valid()
    ensures db.verificationTokens == WithNewVerificationToken(old(db.verificationTokens), u, token, now)
  {
    db.verificationTokens := DropVerificationTokensOf(db.verificationTokens, u);
    db.verificationTokens := db.verificationTokens[token := VerificationToken(u, now, now + VerificationLifetime)];
  }

  /** `PasswordResetToken.objects.filter(user=user, is_used=False).update(is_used=True)`. */
  function MarkResetTokensUsed(tokens: map<string, ResetToken>, u: Id): (r: map<string, ResetToken>)
    ensures r.Keys == tokens.Keys
    ensures forall s :: s in r && tokens[s].userId == u ==> r[s] == tokens[s].(isUsed := true)
    ensures forall s :: s in r && tokens[s].userId != u ==> r[s] == tokens[s]
  {
    map s | s in tokens :: if tokens[s].userId == u && !tokens[s].isUsed then tokens[s].(isUsed := true) else tokens[s]
  }

  /** The reset table after `create_for_user(u)` at `now`. */
  function WithNewResetToken(tokens: map<string, ResetToken>, u: Id, token: string, now: int): map<string, ResetToken>
  {
    MarkResetTokensUsed(tokens, u)[token := ResetToken(u, now, now + ResetLifetime, false)]
  }

  /** Old reset tokens stay in the table but are spent: afterwards the new
      token, valid for an hour, is the only unused token of the user, and
      every other user's tokens are untouched. */
  lemma NewResetTokenIsOnlyUnused(tokens: map<string, ResetToken>, u: Id, token: string, now: int)
    ensures var r := WithNewResetToken(tokens, u, token, now);
      r.Keys == tokens.Keys + {token}
      && (forall s :: s in r && r[s].userId == u && !r[s].isUsed ==> s == token)
      && ResetTokenIsValid(r[token], now) && ResetTokenIsValid(r[token], now + 3600)
      && !ResetTokenIsValid(r[token], now + 3601)
      && forall s :: s in tokens && tokens[s].userId != u && s != token ==> r[s] == tokens[s]
  {
  }

  method CreateResetToken(db: Db, u: Id, token: string, now: int)
    requires db.Valid() && u in db.users && token !in db.resetTokens
    modifies db`resetTokens
    ensures db.Valid()
    ensures db.resetTokens == WithNewResetToken(old(db.resetTokens), u, token, now)
  {
    db.resetTokens := MarkResetTokensUsed(db.resetTokens, u);
    db.resetTokens := db.resetTokens[token := ResetToken(u, now, now + ResetLifetime, false)];
  }
}

/** Account services (apps/users/services.py). Hashing and
    `validate_password` are foreign calls: a password is kept as the value
    `check_password` compares, and the validators' verdict on a password
    is passed in as the list of messages they raise (empty when it passes). */
module UserServices {
  import opened Base
  import opened Models
  import opened Exceptions
  import opened Outbox
  import opened Store
  import opened UserTokens

  const EmailTakenMessage := "Пользователь с таким email уже существует"
  const VerificationNotFoundMessage := "Токен верификации не найден"
  const VerificationExpiredMessage := "Токен верификации истёк"
  const AlreadyVerifiedMessage := "Email уже подтверждён"
  const WrongPasswordMessage := "Неверный текущий пароль"
  const ResetNotFoundMessage := "Токен сброса пароля не найден"
  const ResetInvalidMessage := "Токен недействителен или истёк"

  /** `"; ".join(e.messages)`. */
  function JoinMessages(ms: seq<string>): (r: string)
    ensures |ms| == 1 ==> r == ms[0]
    decreases |ms|
  {
    if ms == [] then "" else if |ms| == 1 then ms[0] else ms[0] + "; " + JoinMessages(ms[1..])
  }

  /** The ValidationError a failed `validate_password` becomes. */
  function PasswordError(ms: seq<string>): ServiceError
  {
    NewServiceError(Validation, Some(JoinMessages(ms)), map[])
  }

  /** `exists_email`: an exact match on the stored email. */
  predicate EmailTaken(users: map<Id, User>, email: string)
  {
    exists u :: u in users && users[u].email == email
  }

  // --------------------------------------------------------- register_user

  /** What `register_user` decides: the lowered email is checked for a
      clash first, the password only after. */
  function RegisterCheck(users: map<Id, User>, email: string, passwordErrors: seq<string>): (r: Result<string, ServiceError>)
    ensures r.Ok? <==> !EmailTaken(users, Lower(email)) && passwordErrors == []
    ensures r.Ok? ==> r.value == Lower(email)
    ensures EmailTaken(users, Lower(email)) ==> r == Err(NewServiceError(Conflict, Some(EmailTakenMessage), map[]))
    ensures !EmailTaken(users, Lower(email)) && passwordErrors != [] ==> r == Err(PasswordError(passwordErrors))
  {
    var e := Lower(email);
    if EmailTaken(users, e) then Err(NewServiceError(Conflict, Some(EmailTakenMessage), map[]))
    else if passwordErrors != [] then Err(PasswordError(passwordErrors))
    else Ok(e)
  }

  /** Emails differing only in case clash, whatever the password. */
  lemma RegisterIsCaseInsensitive(users: map<Id, User>, email: string, other: string, errors: seq<string>)
    requires EqualsIgnoreCase(email, other) && EmailTaken(users, Lower(other))
    ensures RegisterCheck(users, email, errors).Err? && RegisterCheck(users, email, errors).error.kind == Conflict
  {
  }

  /** The row `create_user` inserts: unverified, active, empty profile. */
  function NewUser(email: string, password: string, firstName: string, lastName: string): User
  {
    User(email, firstName, lastName, "", "", "", false, true, password)
  }

  method RegisterUser(db: Db, email: string, password: string, firstName: string, lastName: string,
                      passwordErrors: seq<string>, token: string, now: int) returns (r: Result<Id, ServiceError>)
    requires db.Valid() && token !in db.verificationTokens
    modifies db`users, db`nextId, db`verificationTokens, db`pending
    ensures db.Valid()
    ensures var d := RegisterCheck(old(db.users), email, passwordErrors);
      (d.Err? ==> r == Err(d.error) && db.users == old(db.users) && db.verificationTokens == old(db.verificationTokens)
                  && db.pending == old(db.pending))
      && (d.Ok? ==>
            r.Ok? && r.value !in old(db.users)
            && db.users == old(db.users)[r.value := NewUser(d.value, password, firstName, lastName)]
            && db.verificationTokens == WithNewVerificationToken(old(db.verificationTokens), r.value, token, now)
            && db.pending == old(db.pending) + [Enqueue(VerificationEmail(r.value))])
  {
    var e := Lower(email);
    if EmailTaken(db.users, e) {
      return Err(NewServiceError(Conflict, Some(EmailTakenMessage), map[]));
    }
    if passwordErrors != [] {
      return Err(PasswordError(passwordErrors));
    }
    var u := db.FreshId();
    db.users := db.users[u := NewUser(e, password, firstName, lastName)];
    CreateVerificationToken(db, u, token, now);
    db.pending := db.pending + [Enqueue(VerificationEmail(u))];
    r := Ok(u);
  }

  // ---------------------------------------------------------- verify_email

  /** What `verify_email` decides: an unknown token, then expiry, then an
      already verified user; otherwise the user to verify. */
  function VerifyCheck(users: map<Id, User>, tokens: map<string, VerificationToken>, token: string, now: int): (r: Result<Id, ServiceError>)
    requires forall s :: s in tokens ==> tokens[s].userId in users
    ensures token !in tokens ==> r.Err? && r.error.kind == NotFound
    ensures token in tokens && IsExpired(now, tokens[token].expiresAt) ==> r == Err(NewServiceError(Validation, Some(VerificationExpiredMessage), map[]))
    ensures r.Ok? <==> token in tokens && !IsExpired(now, tokens[token].expiresAt) && !users[tokens[token].userId].isVerified
    ensures r.Ok? ==> r.value == tokens[token].userId
  {
    if token !in tokens then Err(NewServiceError(NotFound, Some(VerificationNotFoundMessage), map[]))
    else
      var t := tokens[token];
      if IsExpired(now, t.expiresAt) then Err(NewServiceError(Validation, Some(VerificationExpiredMessage), map[]))
      else if users[t.userId].isVerified then Err(NewServiceError(Validation, Some(AlreadyVerifiedMessage), map[]))
      else Ok(t.userId)
  }

  method VerifyEmail(db: Db, token: string, now: int) returns (r: Result<Id, ServiceError>)
    requires db.Valid()
    modifies db`users, db`verificationTokens
    ensures db.Valid()
    ensures r == VerifyCheck(old(db.users), old(db.verificationTokens), token, now)
    ensures r.Err? ==> db.users == old(db.users) && db.verificationTokens == old(db.verificationTokens)
    ensures r.Ok? ==> db.users == old(db.users)[r.value := old(db.users)[r.value].(isVerified := true)]
    ensures r.Ok? ==> db.verificationTokens == old(db.verificationTokens) - {token}
  {
    if token !in db.verificationTokens {
      return Err(NewServiceError(NotFound, Some(VerificationNotFoundMessage), map[]));
    }
    var t := db.verificationTokens[token];
    if IsExpired(now, t.expiresAt) {
      return Err(NewServiceError(Validation, Some(VerificationExpiredMessage), map[]));
    }
    var user := db.users[t.userId];
    if user.isVerified {
      return Err(NewServiceError(Validation, Some(AlreadyVerifiedMessage), map[]));
    }
    db.users := db.users[t.userId := user.(isVerified := true)];
    db.verificationTokens := db.verificationTokens - {token};
    r := Ok(t.userId);
  }

  /** A verification token works once: on the state a success leaves, the
      same token is unknown, at any later instant. */
  lemma VerifyIsSingleUse(users: map<Id, User>, tokens: map<string, VerificationToken>, token: string, now: int, later: int)
    requires forall s :: s in tokens ==> tokens[s].userId in users
    requires VerifyCheck(users, tokens, token, now).Ok?
    ensures var u := tokens[token].userId;
      var r := VerifyCheck(users[u := users[u].(isVerified := true)], tokens - {token}, token, later);
      r.Err? && r.error.kind == NotFound
  {
  }

  /** An expired token is reported as expired even for a verified user. */
  lemma ExpiryIsCheckedFirst(users: map<Id, User>, tokens: map<string, VerificationToken>, token: string, now: int)
    requires forall s :: s in tokens ==> tokens[s].userId in users
    requires token in tokens && users[tokens[token].userId].isVerified && now > tokens[token].expiresAt
    ensures VerifyCheck(users, tokens, token, now).Err?
    ensures VerifyCheck(users, tokens, token, now).error.message == VerificationExpiredMessage
  {
  }

  // ---------------------------------------------- resend_verification_email

  method ResendVerificationEmail(db: Db, u: Id, token: string, now: int) returns (r: Result<(), ServiceError>)
    requires db.Valid() && u in db.users && token !in db.verificationTokens
    modifies db`verificationTokens, db`pending
    ensures db.Valid()
    ensures r.Err? <==> old(db.users)[u].isVerified
    ensures r.Err? ==> r.error == NewServiceError(Validation, Some(AlreadyVerifiedMessage), map[])
    ensures r.Err? ==> db.verificationTokens == old(db.verificationTokens) && db.pending == old(db.pending)
    ensures r.Ok? ==> db.verificationTokens == WithNewVerificationToken(old(db.verificationTokens), u, token, now)
    ensures r.Ok? ==> db.pending == old(db.pending) + [Enqueue(VerificationEmail(u))]
  {
    if db.users[u].isVerified {
      return Err(NewServiceError(Validation, Some(AlreadyVerifiedMessage), map[]));
    }
    CreateVerificationToken(db, u, token, now);
    db.pending := db.pending + [Enqueue(VerificationEmail(u))];
    r := Ok(());
  }

  // -------------------------------------------------------- update_profile

  /** The row after `update_profile`: only the fields given change. */
  function ApplyProfileUpdate(user: User, firstName: Option<string>, lastName: Option<string>, phone: Option<string>,
                              bio: Option<string>, avatar: Option<string>): (r: User)
    ensures r.email == user.email && r.password == user.password
    ensures r.isVerified == user.isVerified && r.isActive == user.isActive
  {
    user.(firstName := if firstName.Some? then firstName.value else user.firstName,
          lastName := if lastName.Some? then lastName.value else user.lastName,
          phone := if phone.Some? then phone.value else user.phone,
          bio := if bio.Some? then bio.value else user.bio,
          avatar := if avatar.Some? then avatar.value else user.avatar)
  }

  /** No argument, no change; an empty string is a value and is written;
      applying the same update twice is applying it once. */
  lemma ProfileUpdateLaws(user: User, firstName: Option<string>, lastName: Option<string>, phone: Option<string>,
                          bio: Option<string>, avatar: Option<string>)
    ensures ApplyProfileUpdate(user, None, None, None, None, None) == user
    ensures ApplyProfileUpdate(user, None, None, Some(""), None, None).phone == ""
    ensures var once := ApplyProfileUpdate(user, firstName, lastName, phone, bio, avatar);
      ApplyProfileUpdate(once, firstName, lastName, phone, bio, avatar) == once
  {
  }

  method UpdateProfile(db: Db, u: Id, firstName: Option<string>, lastName: Option<string>, phone: Option<string>,
                       bio: Option<string>, avatar: Option<string>) returns (r: User)
    requires db.Valid() && u in db.users
    modifies db`users
    ensures db.Valid()
    ensures r == ApplyProfileUpdate(old(db.users)[u], firstName, lastName, phone, bio, avatar)
    ensures db.users == old(db.users)[u := r]
  {
    var user := db.users[u];
    var changed := false;
    if firstName.Some? {
      user := user.(firstName := firstName.value);
      changed := true;
    }
    if lastName.Some? {
      user := user.(lastName := lastName.value);
      changed := true;
    }
    if phone.Some? {
      user := user.(phone := phone.value);
      changed := true;
    }
    if bio.Some? {
      user := user.(bio := bio.value);
      changed := true;
    }
    if avatar.Some? {
      user := user.(avatar := avatar.value);
      changed := true;
    }
    if changed {
      db.users := db.users[u := user];
    }
    r := user;
  }

  // ------------------------------------------------------- change_password

  /** What `change_password` decides: the current password first, the
      validators on the new one after. */
  function ChangePasswordCheck(user: User, oldPassword: string, passwordErrors: seq<string>): (r: Result<(), ServiceError>)
    ensures r.Ok? <==> user.password == oldPassword && passwordErrors == []
    ensures user.password != oldPassword ==> r == Err(NewServiceError(Validation, Some(WrongPasswordMessage), map[]))
    ensures user.password == oldPassword && passwordErrors != [] ==> r == Err(PasswordError(passwordErrors))
  {
    if user.password != oldPassword then Err(NewServiceError(Validation, Some(WrongPasswordMessage), map[]))
    else if passwordErrors != [] then Err(PasswordError(passwordErrors))
    else Ok(())
  }

  method ChangePassword(db: Db, u: Id, oldPassword: string, newPassword: string, passwordErrors: seq<string>)
    returns (r: Result<User, ServiceError>)
    requires db.Valid() && u in db.users
    modifies db`users
    ensures db.Valid()
    ensures var d := ChangePasswordCheck(old(db.users)[u], oldPassword, passwordErrors);
      (d.Err? ==> r == Err(d.error) && db.users == old(db.users))
      && (d.Ok? ==> r == Ok(old(db.users)[u].(password := newPassword)) && db.users == old(db.users)[u := r.value])
  {
    var user := db.users[u];
    if user.password != oldPassword {
      return Err(NewServiceError(Validation, Some(WrongPasswordMessage), map[]));
    }
    if passwordErrors != [] {
      return Err(PasswordError(passwordErrors));
    }
    user := user.(password := newPassword);
    db.users := db.users[u := user];
    r := Ok(user);
  }

  /** After a change the old password no longer passes the check, unless
      it was the new one. */
  lemma OldPasswordStopsWorking(user: User, oldPassword: string, newPassword: string)
    requires ChangePasswordCheck(user, oldPassword, []).Ok? && newPassword != oldPassword
    ensures ChangePasswordCheck(user.(password := newPassword), oldPassword, []).Err?
    ensures ChangePasswordCheck(user.(password := newPassword), newPassword, []).Ok?
  {
  }

  // ------------------------------------------------ request_password_reset

  /** The user a reset is issued for: the one with that (lowered) email,
      when they are active. */
  predicate ResetTarget(users: map<Id, User>, email: string, u: Id)
  {
    u in users && users[u].email == Lower(email) && users[u].isActive
  }

  method RequestPasswordReset(db: Db, email: string, token: string, now: int)
    requires db.Valid() && token !in db.resetTokens
    modifies db`resetTokens, db`pending
    ensures db.Valid()
    ensures (forall u :: !ResetTarget(old(db.users), email, u)) ==>
      db.resetTokens == old(db.resetTokens) && db.pending == old(db.pending)
    ensures forall u :: ResetTarget(old(db.users), email, u) ==>
      db.resetTokens == WithNewResetToken(old(db.resetTokens), u, token, now)
      && db.pending == old(db.pending) + [Enqueue(PasswordResetEmail(u))]
  {
    var e := Lower(email);
    if !EmailTaken(db.users, e) {
      return;
    }
    var u :| u in db.users && db.users[u].email == e;
    if !db.users[u].isActive {
      return;
    }
    CreateResetToken(db, u, token, now);
    db.pending := db.pending + [Enqueue(PasswordResetEmail(u))];
    assert ResetTarget(old(db.users), email, u);
  }

  // -------------------------------------------------------- reset_password

  /** What `reset_password` decides: an unknown token, then a used or
      expired one, then the validators; otherwise the user to update. */
  function ResetCheck(tokens: map<string, ResetToken>, token: string, passwordErrors: seq<string>, now: int): (r: Result<Id, ServiceError>)
    ensures token !in tokens ==> r == Err(NewServiceError(NotFound, Some(ResetNotFoundMessage), map[]))
    ensures token in tokens && !ResetTokenIsValid(tokens[token], now) ==> r == Err(NewServiceError(Validation, Some(ResetInvalidMessage), map[]))
    ensures r.Ok? <==> token in tokens && ResetTokenIsValid(tokens[token], now) && passwordErrors == []
    ensures r.Ok? ==> r.value == tokens[token].userId
  {
    if token !in tokens then Err(NewServiceError(NotFound, Some(ResetNotFoundMessage), map[]))
    else if !ResetTokenIsValid(tokens[token], now) then Err(NewServiceError(Validation, Some(ResetInvalidMessage), map[]))
    else if passwordErrors != [] then Err(PasswordError(passwordErrors))
    else Ok(tokens[token].userId)
  }

  method ResetPassword(db: Db, token: string, newPassword: string, passwordErrors: seq<string>, now: int)
    returns (r: Result<Id, ServiceError>)
    requires db.Valid()
    modifies db`users, db`resetTokens
    ensures db.Valid()
    ensures r == ResetCheck(old(db.resetTokens), token, passwordErrors, now)
    ensures r.Err? ==> db.users == old(db.users) && db.resetTokens == old(db.resetTokens)
    ensures r.Ok? ==> db.users == old(db.users)[r.value := old(db.users)[r.value].(password := newPassword)]
    ensures r.Ok? ==> db.resetTokens == old(db.resetTokens)[token := old(db.resetTokens)[token].(isUsed := true)]
  {
    if token !in db.resetTokens {
      return Err(NewServiceError(NotFound, Some(ResetNotFoundMessage), map[]));
    }
    var t := db.resetTokens[token];
    if !ResetTokenIsValid(t, now) {
      return Err(NewServiceError(Validation, Some(ResetInvalidMessage), map[]));
    }
    if passwordErrors != [] {
      return Err(PasswordError(passwordErrors));
    }
    db.users := db.users[t.userId := db.users[t.userId].(password := newPassword)];
    db.resetTokens := db.resetTokens[token := t.(isUsed := true)];
    r := Ok(t.userId);
  }

  /** A reset token works once: replaying it on the state a success leaves
      is refused as used, at any instant and with any password; and a newer
      request spends every earlier token of the same user. */
  lemma ResetIsSingleUse(tokens: map<string, ResetToken>, token: string, errors: seq<string>, now: int,
                         later: int, laterErrors: seq<string>, newer: string)
    requires ResetCheck(tokens, token, errors, now).Ok? && newer != token
    ensures ResetCheck(tokens[token := tokens[token].(isUsed := true)], token, laterErrors, later)
         == Err(NewServiceError(Validation, Some(ResetInvalidMessage), map[]))
    ensures ResetCheck(WithNewResetToken(tokens, tokens[token].userId, newer, now), token, [], later).Err?
  {
  }
}
