/** Sign-up, sign-in and refresh-token rotation (`AuthController`): a small
    state machine over the `users` collection. Each handler is a function
    giving its response and the new collection, and a method that makes the
    same driver calls the handler makes, proved to agree with the function. */
module Auth {
  import opened Wrappers
  import opened Foreign
  import opened Documents
  import opened Http

  /** The request body of `POST /auth/signup`. */
  datatype SignUpForm = SignUpForm(
    email: Option<string>,
    password: Option<string>,
    firstName: Option<string>,
    lastName: Option<string>,
    phoneNumber: Option<string>)

  /** The request body of `POST /auth/signin`. */
  datatype Credentials = Credentials(email: Option<string>, password: Option<string>)

  /** A handler's response together with the `users` collection it leaves. */
  datatype Outcome = Outcome(response: Response, users: map<ObjectId, User>)

  /** `after` is `before` with exactly the `refreshToken` slot of `id`
      overwritten by `token`. */
  predicate RotatedSlot(before: map<ObjectId, User>, after: map<ObjectId, User>, id: ObjectId, token: Token) {
    && id in before
    && after.Keys == before.Keys
    && after[id] == before[id].(refreshToken := Some(token))
    && forall other :: other in before && other != id ==> after[other] == before[other]
  }

  /** The pair issued for `claims` at second `now`: `{ accessToken, refreshToken }`.
      With a sound signer both carry `claims`, for one hour and seven days,
      and they are two different tokens. */
  function IssuePair(signer: TokenSigner, claims: Claims, now: nat): (b: Body)
    ensures b.Tokens?
    ensures signer.Sound() ==>
              forall later: nat :: signer.verify(b.accessToken, later)
                              == if later < now + AccessTokenLifetime then Some(claims) else None
    ensures signer.Sound() ==>
              forall later: nat :: signer.verify(b.refreshToken, later)
                              == if later < now + RefreshTokenLifetime then Some(claims) else None
    ensures signer.Sound() ==> b.accessToken != b.refreshToken
  {
    Tokens(signer.sign(claims, now, AccessTokenLifetime), signer.sign(claims, now, RefreshTokenLifetime))
  }

  /** `createUser`: validate, look the email up, insert the hashed record. */
  function SignUp(users: map<ObjectId, User>, hasher: PasswordHasher, form: SignUpForm,
                  salt: string, newId: ObjectId, now: Timestamp, insertFails: bool): (o: Outcome)
    ensures !Truthy(form.email) ==> o == Outcome(Fail(400, "Missing email"), users)
    ensures Truthy(form.email) && !Truthy(form.password) ==> o == Outcome(Fail(400, "Missing password"), users)
    ensures Truthy(form.email) && Truthy(form.password) && EmailTaken(users, form.email.value) ==>
              o == Outcome(Fail(400, "Already exist"), users)
    ensures o.response.status == 201 <==>
              Truthy(form.email) && Truthy(form.password) && !EmailTaken(users, form.email.value)
              && !insertFails && newId !in users
    ensures Truthy(form.email) && Truthy(form.password) && !EmailTaken(users, form.email.value)
            && (insertFails || newId in users) ==>
              o == Outcome(Fail(500, "Error creating user."), users)
    ensures o.response.status != 201 ==> o.users == users
    ensures o.response.status == 201 ==>
              && newId !in users
              && o.users == users[newId := User(form.firstName, form.lastName, form.email.value,
                                                hasher.hash(form.password.value, salt), form.phoneNumber,
                                                Some(now), Some(now), None)]
              && o.response.body == Identity(newId, form.email.value)
    ensures UniqueEmails(users) ==> UniqueEmails(o.users)
  {
    if !Truthy(form.email) then Outcome(Fail(400, "Missing email"), users)
    else if !Truthy(form.password) then Outcome(Fail(400, "Missing password"), users)
    else if EmailTaken(users, form.email.value) then Outcome(Fail(400, "Already exist"), users)
    else if insertFails || newId in users then Outcome(Fail(500, "Error creating user."), users)
    else
      var user := User(form.firstName, form.lastName, form.email.value,
                       hasher.hash(form.password.value, salt), form.phoneNumber,
                       Some(now), Some(now), None);
      Outcome(Response(201, Identity(newId, form.email.value)), users[newId := user])
  }

  /** Some user with this email has a hash this password verifies against. */
  predicate PasswordAccepted(users: map<ObjectId, User>, hasher: PasswordHasher, email: string, password: string) {
    exists id :: id in users && users[id].email == email && hasher.verify(users[id].password, password)
  }

  /** `connectUser`: check the credentials, issue a pair, store the refresh token. */
  function SignIn(users: map<ObjectId, User>, hasher: PasswordHasher, signer: TokenSigner,
                  creds: Credentials, now: nat): (o: Outcome)
    requires UniqueEmails(users)
    ensures !Truthy(creds.email) ==> o == Outcome(Fail(400, "Missing email"), users)
    ensures Truthy(creds.email) && !Truthy(creds.password) ==> o == Outcome(Fail(400, "Missing password"), users)
    ensures Truthy(creds.email) && Truthy(creds.password) && !EmailTaken(users, creds.email.value) ==>
              o == Outcome(Fail(401, "User doesn't exist"), users)
    ensures Truthy(creds.email) && Truthy(creds.password) && EmailTaken(users, creds.email.value)
            && !PasswordAccepted(users, hasher, creds.email.value, creds.password.value) ==>
              o == Outcome(Fail(401, "Wrong Password"), users)
    ensures o.response.status == 200 <==>
              Truthy(creds.email) && Truthy(creds.password)
              && PasswordAccepted(users, hasher, creds.email.value, creds.password.value)
    ensures o.response.status != 200 ==> o.users == users
    ensures o.response.status == 200 ==>
              var id := FindByEmail(users, creds.email.value).value;
              && o.response.body == IssuePair(signer, Claims(id, users[id].email), now)
              && RotatedSlot(users, o.users, id, o.response.body.refreshToken)
    ensures UniqueEmails(o.users)
  {
    if !Truthy(creds.email) then Outcome(Fail(400, "Missing email"), users)
    else if !Truthy(creds.password) then Outcome(Fail(400, "Missing password"), users)
    else match FindByEmail(users, creds.email.value)
      case None => Outcome(Fail(401, "User doesn't exist"), users)
      case Some(id) =>
        if !hasher.verify(users[id].password, creds.password.value) then
          Outcome(Fail(401, "Wrong Password"), users)
        else
          var pair := IssuePair(signer, Claims(id, users[id].email), now);
          Outcome(Response(200, pair), users[id := users[id].(refreshToken := Some(pair.refreshToken))])
  }

  /** The user whose stored slot holds `token`, as the lookup of `refreshToken`
      finds it: the `userId` the token carries, with that exact slot. */
  predicate SlotHolds(users: map<ObjectId, User>, id: ObjectId, token: Token) {
    id in users && users[id].refreshToken == Some(token)
  }

  /** `refreshToken`: accept a token only if it verifies and is the one stored
      for its user, then overwrite that slot with a newly issued token. */
  function Refresh(users: map<ObjectId, User>, signer: TokenSigner, token: Option<string>, now: nat): (o: Outcome)
    ensures !Truthy(token) ==> o == Outcome(Fail(400, "Missing refresh token"), users)
    ensures Truthy(token) && signer.verify(token.value, now).None? ==>
              o == Outcome(Fail(401, "Invalid or expired refresh token"), users)
    ensures Truthy(token) && signer.verify(token.value, now).Some?
            && !SlotHolds(users, signer.verify(token.value, now).value.userId, token.value) ==>
              o == Outcome(Fail(401, "Invalid refresh token"), users)
    ensures o.response.status == 200 <==>
              Truthy(token) && signer.verify(token.value, now).Some?
              && SlotHolds(users, signer.verify(token.value, now).value.userId, token.value)
    ensures o.response.status != 200 ==> o.users == users
    ensures o.response.status == 200 ==>
              var id := signer.verify(token.value, now).value.userId;
              && o.response.body == IssuePair(signer, Claims(id, users[id].email), now)
              && RotatedSlot(users, o.users, id, o.response.body.refreshToken)
    ensures UniqueEmails(users) ==> UniqueEmails(o.users)
  {
    if !Truthy(token) then Outcome(Fail(400, "Missing refresh token"), users)
    else match signer.verify(token.value, now)
      case None => Outcome(Fail(401, "Invalid or expired refresh token"), users)
      case Some(payload) =>
        if !SlotHolds(users, payload.userId, token.value) then Outcome(Fail(401, "Invalid refresh token"), users)
        else
          var user := users[payload.userId];
          var pair := IssuePair(signer, Claims(payload.userId, user.email), now);
          Outcome(Response(200, pair), users[payload.userId := user.(refreshToken := Some(pair.refreshToken))])
  }

  /** `POST /auth/signup`. */
  method CreateUser(db: Db, hasher: PasswordHasher, form: SignUpForm, salt: string,
                    newId: ObjectId, now: Timestamp, insertFails: bool) returns (res: Response)
    requires db.Valid()
    modifies db`users
    ensures db.Valid()
    ensures res == SignUp(old(db.users), hasher, form, salt, newId, now, insertFails).response
    ensures db.users == SignUp(old(db.users), hasher, form, salt, newId, now, insertFails).users
  {
    if !Truthy(form.email) { return Fail(400, "Missing email"); }
    if !Truthy(form.password) { return Fail(400, "Missing password"); }
    var email := form.email.value;
    var emailExists := db.FindUserByEmail(email);
    if emailExists.Some? { return Fail(400, "Already exist"); }
    var hashedPassword := hasher.hash(form.password.value, salt);
    var user := User(form.firstName, form.lastName, email, hashedPassword, form.phoneNumber,
                     Some(now), Some(now), None);
    var inserted := db.InsertUser(newId, user, insertFails);
    if !inserted { return Fail(500, "Error creating user."); }
    res := Response(201, Identity(newId, email));
  }

  /** `POST /auth/signin`. */
  method ConnectUser(db: Db, hasher: PasswordHasher, signer: TokenSigner, creds: Credentials, now: nat)
    returns (res: Response)
    requires db.Valid()
    modifies db`users
    ensures db.Valid()
    ensures res == SignIn(old(db.users), hasher, signer, creds, now).response
    ensures db.users == SignIn(old(db.users), hasher, signer, creds, now).users
  {
    if !Truthy(creds.email) { return Fail(400, "Missing email"); }
    if !Truthy(creds.password) { return Fail(400, "Missing password"); }
    var found := db.FindUserByEmail(creds.email.value);
    if found.None? { return Fail(401, "User doesn't exist"); }
    var id := found.value;
    var isMatch := hasher.verify(db.users[id].password, creds.password.value);
    if !isMatch { return Fail(401, "Wrong Password"); }
    var payload := Claims(id, db.users[id].email);
    var accessToken := signer.sign(payload, now, AccessTokenLifetime);
    var refreshToken := signer.sign(payload, now, RefreshTokenLifetime);
    db.SetRefreshToken(id, refreshToken);
    res := Response(200, Tokens(accessToken, refreshToken));
  }

  /** `POST /auth/refresh-token`. */
  method RefreshToken(db: Db, signer: TokenSigner, token: Option<string>, now: nat) returns (res: Response)
    requires db.Valid()
    modifies db`users
    ensures db.Valid()
    ensures res == Refresh(old(db.users), signer, token, now).response
    ensures db.users == Refresh(old(db.users), signer, token, now).users
  {
    if !Truthy(token) { return Fail(400, "Missing refresh token"); }
    var verified := signer.verify(token.value, now);
    if verified.None? { return Fail(401, "Invalid or expired refresh token"); }
    var payload := verified.value;
    var found := db.FindUserWithRefreshToken(payload.userId, token.value);
    if !found { return Fail(401, "Invalid refresh token"); }
    var claims := Claims(payload.userId, db.users[payload.userId].email);
    var newAccessToken := signer.sign(claims, now, AccessTokenLifetime);
    var newRefreshToken := signer.sign(claims, now, RefreshTokenLifetime);
    db.SetRefreshToken(payload.userId, newRefreshToken);
    res := Response(200, Tokens(newAccessToken, newRefreshToken));
  }

  // Properties relating several calls

  /** The stored hash verifies the password given at sign-up, and nothing else. */
  lemma StoredHashVerifiesOnlyPassword(users: map<ObjectId, User>, hasher: PasswordHasher, form: SignUpForm,
                                       salt: string, newId: ObjectId, now: Timestamp, insertFails: bool, guess: string)
    requires hasher.Sound()
    requires SignUp(users, hasher, form, salt, newId, now, insertFails).response.status == 201
    ensures var stored := SignUp(users, hasher, form, salt, newId, now, insertFails).users[newId];
            hasher.verify(stored.password, guess) <==> guess == form.password.value
  {
  }

  /** After a sign-up, signing in with that email succeeds exactly for the
      password that was registered. */
  lemma SignUpThenSignIn(users: map<ObjectId, User>, hasher: PasswordHasher, signer: TokenSigner, form: SignUpForm,
                         salt: string, newId: ObjectId, now: Timestamp, insertFails: bool, guess: string, later: nat)
    requires UniqueEmails(users) && hasher.Sound()
    requires SignUp(users, hasher, form, salt, newId, now, insertFails).response.status == 201
    ensures var after := SignUp(users, hasher, form, salt, newId, now, insertFails).users;
            SignIn(after, hasher, signer, Credentials(form.email, Some(guess)), later).response.status == 200
            <==> guess == form.password.value
  {
    var after := SignUp(users, hasher, form, salt, newId, now, insertFails).users;
    var email := form.email.value;
    assert after[newId].email == email;
    if PasswordAccepted(after, hasher, email, guess) {
      var id :| id in after && after[id].email == email && hasher.verify(after[id].password, guess);
      assert id == newId;
    }
  }

  /** Both tokens of a successful sign-in carry the user's id and stored email,
      and verify for their lifetimes. */
  lemma SignInTokensCarryIdentity(users: map<ObjectId, User>, hasher: PasswordHasher, signer: TokenSigner,
                                  creds: Credentials, now: nat, later: nat)
    requires UniqueEmails(users) && signer.Sound()
    requires SignIn(users, hasher, signer, creds, now).response.status == 200
    ensures var id := FindByEmail(users, creds.email.value).value;
            var pair := SignIn(users, hasher, signer, creds, now).response.body;
            && signer.verify(pair.accessToken, later) == (if later < now + AccessTokenLifetime then Some(Claims(id, users[id].email)) else None)
            && signer.verify(pair.refreshToken, later) == (if later < now + RefreshTokenLifetime then Some(Claims(id, users[id].email)) else None)
  {
  }

  /** The refresh token a sign-in returns can be exchanged while it is unexpired. */
  lemma RefreshAfterSignIn(users: map<ObjectId, User>, hasher: PasswordHasher, signer: TokenSigner,
                           creds: Credentials, now: nat, later: nat)
    requires UniqueEmails(users) && signer.Sound()
    requires SignIn(users, hasher, signer, creds, now).response.status == 200
    requires later < now + RefreshTokenLifetime
    ensures var o := SignIn(users, hasher, signer, creds, now);
            Refresh(o.users, signer, Some(o.response.body.refreshToken), later).response.status == 200
  {
    var o := SignIn(users, hasher, signer, creds, now);
    var id := FindByEmail(users, creds.email.value).value;
    var token := o.response.body.refreshToken;
    assert token == signer.sign(Claims(id, users[id].email), now, RefreshTokenLifetime);
    assert signer.verify(token, later) == Some(Claims(id, users[id].email));
  }

  /** After a rotation, the lookup of a token naming the rotated user succeeds
      only for the newly issued token. */
  lemma RotatedSlotAcceptsOnlyNewToken(users: map<ObjectId, User>, signer: TokenSigner, token: Option<string>,
                                       now: nat, other: string, later: nat)
    requires Refresh(users, signer, token, now).response.status == 200
    requires signer.verify(other, later).Some?
    requires signer.verify(other, later).value.userId == signer.verify(token.value, now).value.userId
    ensures var o := Refresh(users, signer, token, now);
            Refresh(o.users, signer, Some(other), later).response.status == 200 ==> other == o.response.body.refreshToken
  {
  }

  /** Rotation invalidates the token it consumed, unless it reissued that very token. */
  lemma RotationRejectsConsumedToken(users: map<ObjectId, User>, signer: TokenSigner, token: Option<string>,
                                     now: nat, later: nat)
    requires signer.Sound()
    requires Refresh(users, signer, token, now).response.status == 200
    ensures var o := Refresh(users, signer, token, now);
            Refresh(o.users, signer, token, later).response.status == 200 ==> token.value == o.response.body.refreshToken
  {
    var o := Refresh(users, signer, token, now);
    if signer.verify(token.value, later).Some? {
      assert signer.verify(token.value, later) == signer.verify(token.value, now);
      RotatedSlotAcceptsOnlyNewToken(users, signer, token, now, token.value, later);
    }
  }

  /** Tokens are signed over the second they are issued in, so a refresh in the
      same second as the sign-in reissues the same refresh token, and one in a
      later second issues a different one. */
  lemma RotationChangesTokenIffLaterSecond(users: map<ObjectId, User>, hasher: PasswordHasher, signer: TokenSigner,
                                           creds: Credentials, signedInAt: nat, refreshedAt: nat)
    requires UniqueEmails(users) && signer.Sound()
    requires SignIn(users, hasher, signer, creds, signedInAt).response.status == 200
    requires signedInAt <= refreshedAt < signedInAt + RefreshTokenLifetime
    ensures var o1 := SignIn(users, hasher, signer, creds, signedInAt);
            var first := o1.response.body.refreshToken;
            var o2 := Refresh(o1.users, signer, Some(first), refreshedAt);
            o2.response.status == 200 && (o2.response.body.refreshToken == first <==> refreshedAt == signedInAt)
  {
    var o1 := SignIn(users, hasher, signer, creds, signedInAt);
    var id := FindByEmail(users, creds.email.value).value;
    var claims := Claims(id, users[id].email);
    var first := o1.response.body.refreshToken;
    RefreshAfterSignIn(users, hasher, signer, creds, signedInAt, refreshedAt);
    assert signer.verify(first, refreshedAt) == Some(claims);
    assert o1.users[id].email == users[id].email;
    var o2 := Refresh(o1.users, signer, Some(first), refreshedAt);
    assert o2.response.body.refreshToken == signer.sign(claims, refreshedAt, RefreshTokenLifetime);
  }

  /** Sign in, then rotate in a later second: the consumed token is refused from
      then on, and the new one is accepted while unexpired. */
  lemma RotationChain(users: map<ObjectId, User>, hasher: PasswordHasher, signer: TokenSigner,
                      creds: Credentials, signedInAt: nat, refreshedAt: nat, later: nat)
    requires UniqueEmails(users) && signer.Sound()
    requires SignIn(users, hasher, signer, creds, signedInAt).response.status == 200
    requires signedInAt < refreshedAt < signedInAt + RefreshTokenLifetime
    requires later < refreshedAt + RefreshTokenLifetime
    ensures var o1 := SignIn(users, hasher, signer, creds, signedInAt);
            var first := o1.response.body.refreshToken;
            var o2 := Refresh(o1.users, signer, Some(first), refreshedAt);
            var second := o2.response.body.refreshToken;
            && o2.response.status == 200
            && Refresh(o2.users, signer, Some(first), later).response.status == 401
            && Refresh(o2.users, signer, Some(second), later).response.status == 200
  {
    var o1 := SignIn(users, hasher, signer, creds, signedInAt);
    var first := o1.response.body.refreshToken;
    RotationChangesTokenIffLaterSecond(users, hasher, signer, creds, signedInAt, refreshedAt);
    var o2 := Refresh(o1.users, signer, Some(first), refreshedAt);
    var second := o2.response.body.refreshToken;
    RotationRejectsConsumedToken(o1.users, signer, Some(first), refreshedAt, later);
    var id := signer.verify(first, refreshedAt).value.userId;
    var claims := Claims(id, o1.users[id].email);
    assert second == signer.sign(claims, refreshedAt, RefreshTokenLifetime);
    assert signer.verify(second, later) == Some(claims);
    assert SlotHolds(o2.users, id, second);
  }
}
