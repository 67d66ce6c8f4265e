/** How the handlers compose across requests: the access token a sign-in
    returns opens the bearer-token gate, and a post created behind the gate
    belongs to the user who signed in. */
module Sessions {
  import opened Wrappers
  import opened Foreign
  import opened Documents
  import Auth
  import Middleware
  import Posts

  /** Within the hour, `Bearer <accessToken>` from a sign-in admits that
      user's id and stored email, and a post made with the admitted claims
      has that user as author. */
  lemma SignedInUserAuthorsPosts(users: map<ObjectId, User>, hasher: PasswordHasher, signer: TokenSigner,
                                 creds: Auth.Credentials, now: nat, later: nat,
                                 posts: map<ObjectId, Post>, form: Posts.PostForm, newId: ObjectId, stamp: Timestamp)
    requires UniqueEmails(users) && signer.Sound()
    requires Auth.SignIn(users, hasher, signer, creds, now).response.status == 200
    requires later < now + AccessTokenLifetime
    ensures var id := FindByEmail(users, creds.email.value).value;
            var access := Auth.SignIn(users, hasher, signer, creds, now).response.body.accessToken;
            var d := Middleware.Authenticate(Some("Bearer " + access), signer, later);
            && d == Middleware.Decision.Admit(Claims(id, users[id].email))
            && var o := Posts.Create(posts, d.claims, form, newId, stamp, Acknowledged);
               o.response.status == 201 ==> o.posts[newId].author == id
  {
    var id := FindByEmail(users, creds.email.value).value;
    var access := Auth.SignIn(users, hasher, signer, creds, now).response.body.accessToken;
    assert access == signer.sign(Claims(id, users[id].email), now, AccessTokenLifetime);
    assert "Bearer" + " " + access == "Bearer " + access;
    Middleware.SignedTokenAdmits(signer, Claims(id, users[id].email), now, "Bearer", later);
  }
}
