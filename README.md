# Blog platform API: request-decision logic of the auth and posts handlers

This project models the core of a blog REST API backed by MongoDB:

- **Sign-up, sign-in and refresh-token rotation** (`AuthController`). The handlers validate the body and look the user up by email. They store the argon2 hash of the password. They issue an access/refresh pair of JSON Web Tokens over `{ userId, email }`, with expiries of one hour and seven days. They keep the refresh token in a single slot on the user record, and each exchange overwrites that slot.
- **Ownership-scoped post handlers** (`PostsController`). This covers the paging arithmetic of the listing and reading a post by id. It also covers creating a post whose author is the caller, and updating and deleting through a filter on both the post's id and its author. That filter gives one 404 for "no such post" and "not your post" alike.
- **The bearer-token gate** (`authMiddleware`). It takes the word after the first space of the `Authorization` header (`split(' ')[1]`, so `"Bearer a b"` gives `a`) and verifies it. Then it either answers 401 or sets `request.user` and calls `next()`.
- **The second sign-up handler** (`UsersController.createUser`). It has the same decision tree as the first, but stores no timestamps.

The store is a class `Documents.Db` with two map fields, `users` and `posts`, keyed by `ObjectId`. Its methods are the driver calls the handlers make (`findOne`, `insertOne`, `updateOne`, `deleteOne`). Each handler that writes to the store appears twice:

- as a function that gives the response and the new collection (`Auth.SignUp`, `Posts.Update`, …), whose ensures clauses state the handler's guarantees;
- as a method over `Db` that makes the same calls in the same order (`Auth.CreateUser`, `Posts.UpdatePost`, …), proved equal to that function.

The two read-only handlers, `getAllPostsFromDB` and `getPost`, are only functions (`Posts.GetAllPosts`, `Posts.GetPost`). The gate is a method over a `Middleware.Request` object (`Middleware.AuthMiddleware`), proved against the function `Middleware.Authenticate`.

Lemmas relate several calls, for example sign-up then sign-in, or sign-in then two refreshes.

The foreign pieces are records of function values in module `Foreign`:

- argon2 is `hash(password, salt)` and `verify(hash, guess)`;
- JWT is `sign(claims, iat, lifetime)` and `verify(token, now)`;
- `ObjectId.isValid` and `new ObjectId` are `isValid` and `parse`.

What the handlers rely on is stated as `Sound()` predicates, and only the lemmas that need those facts require them. The hashing salt, the `_id` the driver generates, the clock (`now`, in seconds for tokens, as an ISO string for documents) and driver failures are all parameters.

Behaviours of the code worth knowing:

- The gate never checks that the first word of the header is `Bearer`: any `"<word> <token>"` is accepted (`Middleware.TokenIsSecondWord`).
- Invalid ids get 400 "Invalid ID" in `getPost` but "Invalid Post ID" in `updatePost` and `deletePost`. A missing id in `deletePost` gets the lower-case "post ID is required".
- A refresh token is rotated only if the exchange falls in a later second than the sign-in. Tokens are deterministic over `{ userId, email, iat, exp }`, and `iat` counts whole seconds. So an exchange in the same second as the sign-in returns the very token it consumed, and that token stays valid (`Auth.RotationChangesTokenIffLaterSecond`). Rotation therefore retires the consumed token only for an exchange in a later second (`Auth.RotationChain`).
- "No changes made to the post" comes from the store's `modifiedCount`. That count is zero only when `$set` leaves the document as it was, `updatedAt` included. So only an update made in the same instant as the post's last write, whose fields all equal the stored ones, reports it; repeating an update in the same instant is one such case (`Posts.RepeatedUpdateMakesNoChange`).

## Model

| member | source | states |
|---|---|---|
| `Documents.FindByEmail` | controllers/authController.js:20 | with unique emails, `findOne({ email })` finds a user exactly when one has that email, and it is that one |
| `Documents.FieldCount` | controllers/postsController.js:116 | `Object.keys(updateFields).length` is at least 1, and exactly 1 when none of title, body, tags or coverImageUrl is set |
| `Documents.ApplySet` | controllers/postsController.js:126 | `$set` replaces exactly the fields it names and `updatedAt`; author and creation time are kept |
| `Documents.Db.FindUserByEmail` | controllers/authController.js:20 | the lookup by email returns the user `FindByEmail` names |
| `Documents.Db.FindUserWithRefreshToken` | controllers/authController.js:90 | the lookup by `_id` and `refreshToken` succeeds exactly when that user's stored slot holds that token |
| `Documents.Db.InsertUser` | controllers/authController.js:28-36 | an insert under a fresh `_id` adds exactly that record; a driver failure or a used `_id` changes nothing |
| `Documents.Db.SetRefreshToken` | controllers/authController.js:71 | `$set: { refreshToken }` overwrites the one slot of that user and nothing else |
| `Documents.Db.InsertPost` | controllers/postsController.js:81-82 | only an acknowledged insert under a fresh `_id` adds the post |
| `Documents.Db.UpdatePost` | controllers/postsController.js:124-126 | matched is 1 only for the post with that id and author; modified is 1 only when `$set` changes it, and only then is it rewritten |
| `Documents.Db.DeletePost` | controllers/postsController.js:152-154 | an acknowledged delete removes at most the post with that id and author |
| `Auth.SignUp` | controllers/authController.js:10-46 | the email is checked before the password, and either missing gives its 400; a taken email gives 400 "Already exist"; every failure leaves the users unchanged; a failed insert gives 500 "Error creating user."; success adds exactly the record `{ firstName, lastName, email, hash(password, salt), phoneNumber, createdAt, updatedAt }`, with no refresh token; success answers 201 with only `{ id, email }`; emails stay unique |
| `Auth.SignIn` | controllers/authController.js:48-73 | missing fields give 400; an unknown email gives 401 "User doesn't exist"; a password the stored hash rejects gives 401 "Wrong Password"; failures change nothing; success happens exactly when some user with that email accepts the password; it returns both tokens signed over that user's `{ userId, email }` for 1h and 7d, and overwrites only that user's slot, with the returned refresh token |
| `Auth.Refresh` | controllers/authController.js:76-100 | a missing token gives 400; a token that does not verify gives 401 "Invalid or expired refresh token"; a verified token not equal to the slot of its `userId` gives 401 "Invalid refresh token"; failures change nothing; success overwrites only that user's slot, with the new refresh token |
| `Auth.CreateUser` | controllers/authController.js:10-46 | the handler's driver calls give exactly the response and users of `Auth.SignUp`, and keep emails unique |
| `Auth.ConnectUser` | controllers/authController.js:48-73 | the handler's driver calls give exactly the response and users of `Auth.SignIn` |
| `Auth.RefreshToken` | controllers/authController.js:76-100 | the handler's driver calls give exactly the response and users of `Auth.Refresh` |
| `Auth.IssuePair` | controllers/authController.js:62-69 | with a sound signer, the access token carries `{ userId, email }` for one hour and the refresh token for seven days, and the two are different tokens |
| `Auth.StoredHashVerifiesOnlyPassword` | controllers/authController.js:24-32 | the stored hash verifies the sign-up password and no other string |
| `Auth.SignUpThenSignIn` | controllers/authController.js:24-60 | after sign-up, signing in with that email succeeds exactly for the registered password |
| `Auth.SignInTokensCarryIdentity` | controllers/authController.js:62-69 | both issued tokens verify to the user's id and email, the access token for one hour and the refresh token for seven days |
| `Auth.RefreshAfterSignIn` | controllers/authController.js:69-93 | the refresh token from a sign-in is accepted while it is unexpired |
| `Auth.RotatedSlotAcceptsOnlyNewToken` | controllers/authController.js:90-98 | after a rotation, a token naming that user passes the lookup only if it equals the newly issued token |
| `Auth.RotationRejectsConsumedToken` | controllers/authController.js:85-98 | after a rotation, the consumed token is accepted again only if the rotation reissued that same token |
| `Auth.RotationChangesTokenIffLaterSecond` | controllers/authController.js:69-97 | the exchange after a sign-in succeeds, and returns a new refresh token exactly when it is in a later second than the sign-in |
| `Auth.RotationChain` | controllers/authController.js:76-99 | sign in, then rotate in a later second: the first token gets 401 from then on, and the second is accepted while unexpired |
| `Users.SignUp` | controllers/usersController.js:8-42 | same checks, order and messages as the auth sign-up; a failed insert gives 500 "Error creating user."; success inserts exactly `{ firstName, lastName, email, hash(password), phoneNumber }` with no timestamps and no refresh token, and answers 201 with only `{ id, email }` |
| `Users.SameDecisionsAsAuthSignUp` | controllers/usersController.js:22-32 | both sign-up handlers give the same response on every input, and the same users except for the new record's timestamps |
| `Users.CreateUser` | controllers/usersController.js:8-42 | the handler's driver calls give exactly the response and users of `Users.SignUp` |
| `Posts.PageOf` | controllers/postsController.js:10 | `page` defaults to 1 and is otherwise the given value |
| `Posts.LimitOf` | controllers/postsController.js:10 | `limit` defaults to 10 and is otherwise the given value |
| `Posts.SortOf` | controllers/postsController.js:10 | `sort` defaults to `'createdAt'` and is otherwise the given value |
| `Posts.OrderOf` | controllers/postsController.js:10 | `order` defaults to `'desc'` and is otherwise the given value |
| `Posts.SortDirection` | controllers/postsController.js:16 | the direction is -1 exactly when `order` is `'desc'`, and 1 otherwise |
| `Posts.Skip` | controllers/postsController.js:11 | the skip is non-negative exactly from page 1 on, and page 1 skips nothing |
| `Posts.CeilingDivision` | controllers/postsController.js:29 | `(total + limit - 1) / limit` pages hold every post and have no empty last page |
| `Posts.Pages` | controllers/postsController.js:29 | `Math.ceil(total / limit)` pages hold every post, and the last page is never empty |
| `Posts.PagesIsLeast` | controllers/postsController.js:29 | no smaller page count holds every post |
| `Posts.GetAllPosts` | controllers/postsController.js:7-36 | with defaults page 1, limit 10, sort `createdAt` and order `desc`: the store is asked for `skip = (page - 1) * limit` and `limit` and the sort direction; a store failure or a page below 1 (negative skip) gives 500 "Internal server error"; otherwise 200 with `{ page, limit, total, pages }`, where total is the number of posts |
| `Posts.DefaultListing` | controllers/postsController.js:10-31 | an empty query asks the store for the newest posts first, skipping none, ten of them, and reports page 1 of ten |
| `Posts.TwoPostsTwoPages` | controllers/postsController.js:10-29 | two posts listed with limit 1: page 2 skips one post, and there are two pages |
| `Posts.GetPost` | controllers/postsController.js:38-61 | a missing id gives 400 "Post ID is required" and an invalid one 400 "Invalid ID", both whatever the store does; a store failure after a valid id gives 500 "Internal server error"; an absent post gives 404 "Post ID not found"; otherwise 200 with that post |
| `Posts.TagsTruthiness` | controllers/postsController.js:77 | `if (tags)` passes every array, even an empty one, and a string exactly when it is non-empty, and rejects a missing value |
| `Posts.TagList` | controllers/postsController.js:77 | an array of tags is kept as it is, and a single tag becomes a one-element list |
| `Posts.Create` | controllers/postsController.js:63-92 | a falsy title or body gives 400 "title and body needed"; an insert that throws (including a used `_id`) gives 500 "Internal server error" and an unacknowledged one 500 "Post wasn't created"; failures leave the posts unchanged; success adds exactly one post, with the caller as author, the given title and body, tags only when given (wrapped when single), and a cover image only when given; it answers 201 with the new id |
| `Posts.BuildUpdate` | controllers/postsController.js:108-118 | `updateFields` holds exactly the truthy fields, tags wrapped, plus `updatedAt`; it has one key exactly when none of the four is given |
| `Posts.Update` | controllers/postsController.js:94-140 | a missing id, an invalid id and an empty update each give their 400 before any store access; a store failure gives 500 and changes nothing; no post matching both id and author gives 404; the set of ids, every author and every creation time are kept; the only post that can change is the caller's own; when `$set` changes it, it is rewritten as `$set` says and answered "Post updated successfully"; "No changes made to the post" comes exactly when the matched post would stay as it is |
| `Posts.Delete` | controllers/postsController.js:142-162 | a missing or invalid id gives its 400; a delete that throws gives 500 "Internal server error" and an unacknowledged one 500 "Failed to delete post", both changing nothing; otherwise the caller's own post is removed with 200 "Post deleted successfully", and anything else gives 404 and changes nothing |
| `Posts.ReadAfterCreate` | controllers/postsController.js:52-86 | a created post is read back with 200, with the caller as author |
| `Posts.ForeignUpdateLooksMissing` | controllers/postsController.js:124-130 | updating someone else's post gives the same response as updating a post that does not exist, and changes nothing |
| `Posts.ForeignDeleteLooksMissing` | controllers/postsController.js:152-155 | deleting someone else's post gives the same response as deleting a post that does not exist, and changes nothing |
| `Posts.ApplySetIdempotent` | controllers/postsController.js:126 | applying the same `$set` twice is the same as applying it once |
| `Posts.RepeatedUpdateMakesNoChange` | controllers/postsController.js:126-132 | after a successful update, the same update at the same instant reports "No changes made to the post" |
| `Posts.ReadAfterDelete` | controllers/postsController.js:153-157 | after its author deletes a post, reading it gives 404 |
| `Posts.CreatePost` | controllers/postsController.js:63-92 | building the post field by field and inserting it gives exactly the response and posts of `Posts.Create` |
| `Posts.UpdatePost` | controllers/postsController.js:94-140 | building `updateFields` field by field and updating through the id-and-author filter gives exactly the response and posts of `Posts.Update` |
| `Posts.DeletePost` | controllers/postsController.js:142-162 | deleting through the id-and-author filter gives exactly the response and posts of `Posts.Delete` |
| `Middleware.Split` | routes/middlewares.js:9 | `split(' ')` always gives at least one part, so an empty header gives `['']` |
| `Middleware.SplitJoin` | routes/middlewares.js:9 | `split(' ')` loses no character, and no part contains a space |
| `Middleware.SplitWithoutSeparator` | routes/middlewares.js:9 | a string without spaces splits into itself alone |
| `Middleware.SplitAtFirstSeparator` | routes/middlewares.js:9 | the first part is everything before the first space, and the rest splits on its own |
| `Middleware.SplitCount` | routes/middlewares.js:9 | `split(' ')` gives more than one part exactly when the string holds a space |
| `Middleware.TokenFromHeader` | routes/middlewares.js:8-9 | `split(' ')[1]` exists exactly when the header is given and holds a space, and it holds no space itself |
| `Middleware.TokenIsSecondWord` | routes/middlewares.js:8-9 | the token is the second word, whatever the first word is and whatever follows |
| `Middleware.MissingTokens` | routes/middlewares.js:8-13 | an absent or empty header, a single word, or a word followed by two spaces gives no usable token |
| `Middleware.Authenticate` | routes/middlewares.js:6-22 | no usable token gives 401 "Missing or invalid token"; a token that does not verify gives 401 "Invalid or expired token"; otherwise it admits exactly the decoded claims; every denial is a 401 |
| `Middleware.SignedTokenAdmits` | routes/middlewares.js:15-18 | an unexpired signed access token after any first word admits its claims |
| `Middleware.AuthMiddleware` | routes/middlewares.js:6-22 | exactly one of two things happens: a 401 is sent with `request.user` and `next` untouched, or `request.user` is set to the decoded claims and `next()` is called once |
| `Sessions.SignedInUserAuthorsPosts` | routes/middlewares.js:16-18 | within the hour, `Bearer <accessToken>` from a sign-in admits that user's id and email, and a post created with those claims has that user as author |

## Left out

- utils/db.js: the connection wrapper (connect, close, ping, pool options) is I/O plumbing. The two collections are maps in `Documents.Db`.
- Argon2 and JSON Web Token internals (hashing, HMAC signing, expiry encoding) are not modelled: they are abstract functions with the properties stated in `Foreign`. The JWT claims other than `userId` and `email`, such as `iat` and `exp`, are not part of `Claims`, so `request.user` holds only those two.
- `ObjectId.isValid` and `new ObjectId(...)` are abstract functions. The model does not capture `new ObjectId(payload.userId)` or `new ObjectId(user.userId)` throwing on a malformed id.
- Timestamps: `new Date().toISOString()` is a parameter, the same for both fields of one request.
- Mongo's execution of sort, skip and limit (which posts a page holds), and JavaScript's coercion of query strings to numbers: the query holds integers already.
- Posts.GetAllPosts: requires a positive limit. With limit 0, `total / limit` is not a finite number and Mongo reads `limit(0)` as "no limit". With a negative limit, `Math.ceil(total / limit)` is zero or negative (two posts at limit -1 give -2 pages), and Mongo reads a negative limit as one batch of |limit| posts. Neither case is modelled.
- Request bodies hold strings (or, for `tags`, an array of strings or a single string). JSON numbers, booleans and objects, with their own truthiness, are not modelled.
- The read-then-write race of concurrent sign-ups with one email (controllers/authController.js:20-28) is concurrency; the model is sequential and keeps emails unique.
- Driver failures: each handler that catches them gets one abstract failure (a flag, or a reply of acknowledged, unacknowledged or raised). An unacknowledged insert or delete counts as not applied. Errors outside any `try` are unhandled and not modelled: every store error of `connectUser` and `refreshToken`, and in both sign-up handlers `dbClient.init()` and `getCollection('users')` (controllers/authController.js:17-18, controllers/usersController.js:15-16), the `findOne` email lookup (controllers/authController.js:20, controllers/usersController.js:18) and `argon2.hash` (controllers/authController.js:24, controllers/usersController.js:22).
- `argon2.verify` (controllers/authController.js:59) throws when the stored password is not an argon2 hash, for example a plaintext password inserted directly into the collection; `verify` is a total function here, so that unhandled error is not modelled. An unacknowledged `updateOne` (where `matchedCount` is undefined) is not modelled.
- Routing and configuration (routes/*.js except middlewares.js, server.js, config.js) are wiring. routes/index.js mounts only `/auth` and `/users`, and no route reaches `UsersController.createUser`; the handlers are modelled as written regardless.
- `getMe`, `deleteMe`, `addProfileInfo`, `getUserPublicInfo` and `getUserPosts` are named in routes/usersRoutes.js but not defined in controllers/usersController.js. They are not part of this model, and neither are the profile and bio rules the tests expect of them.
- Logging (`console.error`) has no effect on responses and is left out.
