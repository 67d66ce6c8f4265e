/** `UsersController.createUser`: the sign-up handler again, inserting the
    record without `createdAt`/`updatedAt`. */
module Users {
  import opened Wrappers
  import opened Foreign
  import opened Documents
  import opened Http
  import Auth

  /** The decision tree of `createUser` over the `users` collection. */
  function SignUp(users: map<ObjectId, User>, hasher: PasswordHasher, form: Auth.SignUpForm,
                  salt: string, newId: ObjectId, insertFails: bool): (o: Auth.Outcome)
    ensures !Truthy(form.email) ==> o == Auth.Outcome(Fail(400, "Missing email"), users)
    ensures Truthy(form.email) && !Truthy(form.password) ==> o == Auth.Outcome(Fail(400, "Missing password"), users)
    ensures Truthy(form.email) && Truthy(form.password) && EmailTaken(users, form.email.value) ==>
              o == Auth.Outcome(Fail(400, "Already exist"), users)
    ensures Truthy(form.email) && Truthy(form.password) && !EmailTaken(users, form.email.value)
            && (insertFails || newId in users) ==>
              o == Auth.Outcome(Fail(500, "Error creating user."), users)
    ensures o.response.status == 201 <==>
              Truthy(form.email) && Truthy(form.password) && !EmailTaken(users, form.email.value)
              && !insertFails && newId !in users
    ensures o.response.status != 201 ==> o.users == users
    ensures o.response.status == 201 ==>
              && newId !in users
              && o.users == users[newId := User(form.firstName, form.lastName, form.email.value,
                                                hasher.hash(form.password.value, salt), form.phoneNumber,
                                                None, None, None)]
              && o.response.body == Identity(newId, form.email.value)
    ensures UniqueEmails(users) ==> UniqueEmails(o.users)
  {
    if !Truthy(form.email) then Auth.Outcome(Fail(400, "Missing email"), users)
    else if !Truthy(form.password) then Auth.Outcome(Fail(400, "Missing password"), users)
    else if EmailTaken(users, form.email.value) then Auth.Outcome(Fail(400, "Already exist"), users)
    else if insertFails || newId in users then Auth.Outcome(Fail(500, "Error creating user."), users)
    else
      var user := User(form.firstName, form.lastName, form.email.value,
                       hasher.hash(form.password.value, salt), form.phoneNumber, None, None, None);
      Auth.Outcome(Response(201, Identity(newId, form.email.value)), users[newId := user])
  }

  /** The same responses as `AuthController.createUser`, and the same
      collection except that the new record has no timestamps. */
  lemma SameDecisionsAsAuthSignUp(users: map<ObjectId, User>, hasher: PasswordHasher, form: Auth.SignUpForm,
                                  salt: string, newId: ObjectId, now: Timestamp, insertFails: bool)
    ensures var mine := SignUp(users, hasher, form, salt, newId, insertFails);
            var auth := Auth.SignUp(users, hasher, form, salt, newId, now, insertFails);
            && mine.response == auth.response
            && mine.users == if mine.response.status == 201
                             then auth.users[newId := auth.users[newId].(createdAt := None, updatedAt := None)]
                             else auth.users
  {
  }

  /** `UsersController.createUser` over the database (no route mounts it). */
  method CreateUser(db: Db, hasher: PasswordHasher, form: Auth.SignUpForm, salt: string,
                    newId: ObjectId, insertFails: bool) returns (res: Response)
    requires db.Valid()
    modifies db`users
    ensures db.Valid()
    ensures res == SignUp(old(db.users), hasher, form, salt, newId, insertFails).response
    ensures db.users == SignUp(old(db.users), hasher, form, salt, newId, insertFails).users
  {
    if !Truthy(form.email) { return Fail(400, "Missing email"); }
    if !Truthy(form.password) { return Fail(400, "Missing password"); }
    var email := form.email.value;
    var emailExists := db.FindUserByEmail(email);
    if emailExists.Some? { return Fail(400, "Already exist"); }
    var hashedPassword := hasher.hash(form.password.value, salt);
    var user := User(form.firstName, form.lastName, email, hashedPassword, form.phoneNumber, None, None, None);
    var inserted := db.InsertUser(newId, user, insertFails);
    if !inserted { return Fail(500, "Error creating user."); }
    res := Response(201, Identity(newId, email));
  }
}
