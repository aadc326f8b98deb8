/**
  server/controllers/user.controller.js: `register`, `login`, `editProfile`,
  `suggestedUsers` and `followOrUnfollow`.

  bcrypt and jsonwebtoken are foreign code, so they enter as function
  parameters: `hash` for `bcrypt.hash`, `matches` for `bcrypt.compare`, and
  `sign` for `jwt.sign` with the server's secret, applied to the user id
  and the token's lifetime in days (the `expiresIn` option).  A JavaScript string that
  is missing from the request body is falsy exactly like "", so both are
  represented by "".
 */
module UserController {
  import opened Common
  import opened Db

  const AllFieldsRequired := "All fields are required"
  const UserExists := "User already exists"
  const CredentialsRequired := "Email and password are required"
  const InvalidCredentials := "Invalid email or password"
  const UserNotFound := "User not found"
  const NoSuggestions := "No suggested users found"
  const CannotFollowSelf := "You cannot follow or unfollow yourself"
  const FollowedMessage := "Followed successfully"
  const UnfollowedMessage := "Unfollowed successfully"

  const MsPerDay := 24 * 60 * 60 * 1000
  /** The token is signed with `expiresIn: '3d'`. */
  const TokenExpiryDays := 3
  /** The cookie's `maxAge`, written in the source as 3 * 24 * 60 * 60 * 1000. */
  const CookieMaxAgeMs := 3 * 24 * 60 * 60 * 1000

  predicate EmailTaken(users: map<Id, User>, email: string) {
    exists id :: id in users && users[id].email == email
  }

  predicate UsernameTaken(users: map<Id, User>, username: string) {
    exists id :: id in users && users[id].username == username
  }

  /** The record `User.create` stores for a new account: the password hash,
      and empty profile fields and lists. */
  function NewUser(username: string, email: string, passwordHash: string): User {
    User(username, email, passwordHash, "", "", "", [], [], [], [])
  }

  /** `register`.  The guards run in the source's order, each failure
      answering 400 with the store untouched: missing field, email taken,
      username taken.  Success stores one new user holding the hash of the
      password and answers 201 with username and email only. */
  method Register(db: Store, username: string, password: string, email: string, hash: string -> string)
    returns (status: int, body: Body)
    requires db.Valid()
    modifies db
    ensures db.Valid()
    ensures username == "" || password == "" || email == "" ==>
              status == 400 && body == Fail(AllFieldsRequired) && unchanged(db)
    ensures username != "" && password != "" && email != "" && EmailTaken(old(db.users), email) ==>
              status == 400 && body == Fail(UserExists) && unchanged(db)
    ensures username != "" && password != "" && email != "" && !EmailTaken(old(db.users), email)
            && UsernameTaken(old(db.users), username) ==>
              status == 400 && body == Fail(UserExists) && unchanged(db)
    ensures status == 201 <==>
              username != "" && password != "" && email != ""
              && !EmailTaken(old(db.users), email) && !UsernameTaken(old(db.users), username)
    ensures status == 201 ==>
              && old(db.nextId) !in old(db.users)
              && db.users == old(db.users)[old(db.nextId) := NewUser(username, email, hash(password))]
              && db.nextId == old(db.nextId) + 1
              && body == Registered(username, email)
              && db.posts == old(db.posts) && db.comments == old(db.comments)
              && db.conversations == old(db.conversations) && db.messages == old(db.messages)
  {
    if username == "" || password == "" || email == "" {
      return 400, Fail(AllFieldsRequired);
    }
    if exists id :: id in db.users && db.users[id].email == email {
      return 400, Fail(UserExists);
    }
    if exists id :: id in db.users && db.users[id].username == username {
      return 400, Fail(UserExists);
    }
    var hashedPassword := hash(password);
    var id := db.nextId;
    NewAccountKeepsInvariants(db.users, id, NewUser(username, email, hashedPassword));
    db.users := db.users[id := NewUser(username, email, hashedPassword)];
    db.nextId := db.nextId + 1;
    return 201, Registered(username, email);
  }

  /** Adding a user with a fresh id, empty follow lists, and an email and a
      username nobody has keeps the follow graph and account uniqueness. */
  lemma NewAccountKeepsInvariants(users: map<Id, User>, id: Id, u: User)
    requires FollowGraph(users) && UniqueAccounts(users)
    requires id !in users && u.followers == [] && u.following == []
    requires !EmailTaken(users, u.email) && !UsernameTaken(users, u.username)
    ensures FollowGraph(users[id := u]) && UniqueAccounts(users[id := u])
  {
  }

  /** The user part of the login response; absent lists and strings come
      back as [] and "", which the record already holds. */
  function LoginView(id: Id, u: User): LoginUser {
    LoginUser(u.username, u.email, id, u.bio, u.profilePicture, u.followers, u.following)
  }

  /** `login`: read-only.  400 for a missing field; 401 with one and the
      same message whether the email is unknown or the password wrong;
      otherwise 200 with a token signed to expire in `TokenExpiryDays`, in a
      cookie whose `maxAge` is that same lifetime in milliseconds. */
  method Login(db: Store, email: string, password: string,
               matches: (string, string) -> bool, sign: (Id, nat) -> string)
    returns (status: int, body: Body)
    requires db.Valid()
    ensures email == "" || password == "" ==> status == 400 && body == Fail(CredentialsRequired)
    ensures email != "" && password != "" && !EmailTaken(db.users, email) ==>
              status == 401 && body == Fail(InvalidCredentials)
    ensures email != "" && password != "" ==>
              forall id :: id in db.users && db.users[id].email == email ==>
                if matches(password, db.users[id].password)
                then status == 200 && body == LoggedIn(sign(id, TokenExpiryDays), CookieMaxAgeMs, LoginView(id, db.users[id]))
                else status == 401 && body == Fail(InvalidCredentials)
    ensures status == 200 ==>
              && body.cookieMaxAgeMs == TokenExpiryDays * MsPerDay
              && exists id :: id in db.users && body.token == sign(id, TokenExpiryDays)
  {
    if email == "" || password == "" {
      return 400, Fail(CredentialsRequired);
    }
    if !(exists id :: id in db.users && db.users[id].email == email) {
      return 401, Fail(InvalidCredentials);
    }
    var id :| id in db.users && db.users[id].email == email;
    var user := db.users[id];
    if !matches(password, user.password) {
      return 401, Fail(InvalidCredentials);
    }
    var token := sign(id, TokenExpiryDays);
    return 200, LoggedIn(token, CookieMaxAgeMs, LoginView(id, user));
  }

  /** The profile after an edit: bio and gender are overwritten only by a
      non-empty value, the picture only when a file was uploaded (its
      hosted URL is `pictureUrl`). */
  function Edited(u: User, bio: string, gender: string, pictureUrl: Option<string>): (r: User)
    ensures r.bio == (if bio != "" then bio else u.bio)
    ensures r.gender == (if gender != "" then gender else u.gender)
    ensures r.profilePicture == (if pictureUrl.Some? then pictureUrl.value else u.profilePicture)
    ensures r.(bio := u.bio, gender := u.gender, profilePicture := u.profilePicture) == u
  {
    var u1 := if bio != "" then u.(bio := bio) else u;
    var u2 := if gender != "" then u1.(gender := gender) else u1;
    if pictureUrl.Some? then u2.(profilePicture := pictureUrl.value) else u2
  }

  /** `editProfile`: 404 for an unknown user; otherwise only that user's
      bio, gender and picture may change, each by the rule of `Edited`. */
  method EditProfile(db: Store, userId: Id, bio: string, gender: string, pictureUrl: Option<string>)
    returns (status: int, body: Body)
    requires db.Valid()
    modifies db
    ensures db.Valid()
    ensures userId !in old(db.users) ==> status == 404 && body == Fail(UserNotFound) && unchanged(db)
    ensures userId in old(db.users) ==>
              && status == 200
              && db.users == old(db.users)[userId := Edited(old(db.users)[userId], bio, gender, pictureUrl)]
              && body == ProfileUpdated(db.users[userId])
    ensures db.posts == old(db.posts) && db.comments == old(db.comments) && db.nextId == old(db.nextId)
    ensures db.conversations == old(db.conversations) && db.messages == old(db.messages)
  {
    if userId !in db.users {
      return 404, Fail(UserNotFound);
    }
    var user := db.users[userId];
    if bio != "" {
      user := user.(bio := bio);
    }
    if gender != "" {
      user := user.(gender := gender);
    }
    if pictureUrl.Some? {
      user := user.(profilePicture := pictureUrl.value);
    }
    assert user == Edited(db.users[userId], bio, gender, pictureUrl);
    SameAccountKeepsInvariants(db.users, userId, user);
    UsersReplacedKeepsConsistent(db.users, db.users[userId := user], db.posts, db.comments,
                                 db.conversations, db.messages, db.nextId);
    db.users := db.users[userId := user];
    return 200, ProfileUpdated(user);
  }

  const SuggestionLimit := 10

  /** `User.find({ _id: { $ne: requester } }).limit(limit)` over the ids in
      [from, bound), in natural order. */
  function Suggest(users: map<Id, User>, requester: Id, from: nat, bound: nat, limit: nat): (r: seq<Id>)
    decreases bound - from
    ensures |r| <= limit
    ensures forall k :: 0 <= k < |r| ==> r[k] in users && r[k] != requester && from <= r[k] < bound
    ensures forall k, l :: 0 <= k < l < |r| ==> r[k] < r[l]
  {
    if from >= bound || limit == 0 then []
    else if from in users && from != requester then [from] + Suggest(users, requester, from + 1, bound, limit - 1)
    else Suggest(users, requester, from + 1, bound, limit)
  }

  /** Nobody eligible is skipped: every other user in range is suggested
      when the limit was not reached, and otherwise every one before the
      last suggestion is. */
  lemma {:induction false} SuggestSkipsNobody(users: map<Id, User>, requester: Id, from: nat, bound: nat, limit: nat, id: Id)
    requires from <= id < bound && id in users && id != requester
    requires var r := Suggest(users, requester, from, bound, limit);
             |r| < limit || (|r| > 0 && id < r[|r| - 1])
    ensures id in Suggest(users, requester, from, bound, limit)
    decreases bound - from
  {
    var r := Suggest(users, requester, from, bound, limit);
    if id != from {
      if from in users && from != requester {
        var rest := Suggest(users, requester, from + 1, bound, limit - 1);
        assert r == [from] + rest;
        if |r| == limit {
          assert rest != [] && r[|r| - 1] == rest[|rest| - 1];
        }
        SuggestSkipsNobody(users, requester, from + 1, bound, limit - 1, id);
      } else {
        SuggestSkipsNobody(users, requester, from + 1, bound, limit, id);
      }
    }
  }

  /** `suggestedUsers`: read-only.  At most ten users, never the requester,
      in natural order and without skipping anyone before the last one
      listed; 404 exactly when there is nobody else. */
  method SuggestedUsers(db: Store, requester: Id) returns (status: int, body: Body)
    requires db.Valid()
    ensures status == 200 || status == 404
    ensures status == 404 <==> forall id :: id in db.users ==> id == requester
    ensures status == 404 ==> body == Fail(NoSuggestions)
    ensures status == 200 ==> body.SuggestedList? && 0 < |body.users| <= SuggestionLimit
    ensures status == 200 ==> forall k :: 0 <= k < |body.users| ==>
              body.users[k] in db.users && body.users[k] != requester
    ensures status == 200 ==> forall k, l :: 0 <= k < l < |body.users| ==> body.users[k] < body.users[l]
    ensures status == 200 ==> forall id ::
              (id in db.users && id != requester
               && (|body.users| < SuggestionLimit || id < body.users[|body.users| - 1])) ==> id in body.users
  {
    var users := Suggest(db.users, requester, 0, db.nextId, SuggestionLimit);
    forall id | id in db.users && id != requester
                && (|users| < SuggestionLimit || id < users[|users| - 1])
      ensures id in users
    {
      SuggestSkipsNobody(db.users, requester, 0, db.nextId, SuggestionLimit, id);
    }
    if |users| == 0 {
      return 404, Fail(NoSuggestions);
    }
    return 200, SuggestedList(users);
  }

  /** The users map after `followOrUnfollow` passed its guards: both lists
      lose the other id if `u` followed `t`, otherwise both gain it at the
      end. */
  function Followed(users: map<Id, User>, u: Id, t: Id): (r: map<Id, User>)
    requires u in users && t in users && u != t
    ensures r.Keys == users.Keys
    ensures forall id :: id in users && id != u && id != t ==> r[id] == users[id]
    ensures r[u] == users[u].(following := Toggled(users[u].following, t))
    ensures r[t] == users[t].(followers := if t in users[u].following then Removed(users[t].followers, u)
                                           else users[t].followers + [u])
  {
    var user := users[u];
    var target := users[t];
    if t in user.following then
      users[u := user.(following := Removed(user.following, t))][t := target.(followers := Removed(target.followers, u))]
    else
      users[u := user.(following := user.following + [t])][t := target.(followers := target.followers + [u])]
  }

  /** A follow toggle flips the edge u -> t on both sides at once and keeps
      every other edge, so the follow graph stays consistent. */
  lemma FollowKeepsGraph(users: map<Id, User>, u: Id, t: Id)
    requires FollowGraph(users) && u in users && t in users && u != t
    ensures FollowGraph(Followed(users, u, t))
    ensures t in Followed(users, u, t)[u].following <==> t !in users[u].following
    ensures t in Followed(users, u, t)[u].following <==> u in Followed(users, u, t)[t].followers
  {
    var r := Followed(users, u, t);
    forall a, b | a in r && b in r
      ensures b in r[a].following <==> a in r[b].followers
    {
      if a == u && b == t {
        assert t in users[u].following <==> u in users[t].followers;
      } else {
        FollowKeepsOtherEdges(users, u, t, a, b);
        assert b in users[a].following <==> a in users[b].followers;
      }
    }
    forall a, b | a in r && b in r[a].following ensures b in r {
      FollowKeepsOtherEdges(users, u, t, a, b);
    }
    forall a, b | a in r && b in r[a].followers ensures b in r {
      FollowKeepsOtherEdges(users, u, t, b, a);
    }
  }

  /** Every edge but u -> t is left alone by the toggle, on both sides. */
  lemma FollowKeepsOtherEdges(users: map<Id, User>, u: Id, t: Id, a: Id, b: Id)
    requires u in users && t in users && u != t && a in users
    ensures var r := Followed(users, u, t);
            && (b in r[a].following ==> b in users[a].following || (a == u && b == t))
            && (b in r[a].followers ==> b in users[a].followers || (a == t && b == u))
            && (!(a == u && b == t) && b in users ==>
                  (b in r[a].following <==> b in users[a].following)
                  && (a in r[b].followers <==> a in users[b].followers))
  {
  }

  lemma FollowKeepsAccounts(users: map<Id, User>, u: Id, t: Id)
    requires UniqueAccounts(users) && u in users && t in users && u != t
    ensures UniqueAccounts(Followed(users, u, t))
  {
    var r := Followed(users, u, t);
    assert forall id :: id in r ==> r[id].email == users[id].email && r[id].username == users[id].username;
  }

  /** Following and then unfollowing (or the reverse, from a state without
      the edge) restores both users exactly. */
  lemma FollowTwiceFromUnfollowed(users: map<Id, User>, u: Id, t: Id)
    requires FollowGraph(users) && u in users && t in users && u != t
    requires t !in users[u].following
    ensures Followed(Followed(users, u, t), u, t) == users
  {
    assert u !in users[t].followers;
    var r := Followed(users, u, t);
    PullUndoesPush(users[u].following, t);
    PullUndoesPush(users[t].followers, u);
    assert r[u].following == users[u].following + [t];
    var r2 := Followed(r, u, t);
    assert r2[u] == users[u];
    assert r2[t] == users[t];
  }

  /** Storing the two toggled records is the toggle of the graph. */
  lemma FollowedUpdatesBoth(users: map<Id, User>, u: Id, t: Id, user: User, target: User)
    requires u in users && t in users && u != t
    requires user == Followed(users, u, t)[u] && target == Followed(users, u, t)[t]
    ensures users[u := user][t := target] == Followed(users, u, t)
  {
  }

  /** `followOrUnfollow`.  Self-follow answers 400 and a missing user 404,
      both with the store untouched; otherwise the edge is toggled on both
      sides and the message says "Followed" exactly when `t` is now
      followed. */
  method FollowOrUnfollow(db: Store, userId: Id, targetUserId: Id) returns (status: int, body: Body)
    requires db.Valid()
    modifies db
    ensures db.Valid()
    ensures userId == targetUserId ==> status == 400 && body == Fail(CannotFollowSelf) && unchanged(db)
    ensures userId != targetUserId && (userId !in old(db.users) || targetUserId !in old(db.users)) ==>
              status == 404 && body == Fail(UserNotFound) && unchanged(db)
    ensures status == 200 <==> userId != targetUserId && userId in old(db.users) && targetUserId in old(db.users)
    ensures status == 200 ==>
              && db.users == Followed(old(db.users), userId, targetUserId)
              && body.FollowToggled?
              && (body.message == FollowedMessage <==> targetUserId in db.users[userId].following)
              && (body.message == FollowedMessage <==> targetUserId !in old(db.users)[userId].following)
              && (body.message == FollowedMessage || body.message == UnfollowedMessage)
              && body.following == db.users[userId].following
              && body.followers == db.users[targetUserId].followers
    ensures db.posts == old(db.posts) && db.comments == old(db.comments) && db.nextId == old(db.nextId)
    ensures db.conversations == old(db.conversations) && db.messages == old(db.messages)
  {
    if userId == targetUserId {
      return 400, Fail(CannotFollowSelf);
    }
    // The two "ID is required" guards of the source cannot fail here: ids are always present.
    if userId !in db.users || targetUserId !in db.users {
      return 404, Fail(UserNotFound);
    }
    var user := db.users[userId];
    var targetUser := db.users[targetUserId];
    if targetUserId in user.following {
      user := user.(following := Removed(user.following, targetUserId));
      targetUser := targetUser.(followers := Removed(targetUser.followers, userId));
    } else {
      user := user.(following := user.following + [targetUserId]);
      targetUser := targetUser.(followers := targetUser.followers + [userId]);
    }
    FollowKeepsGraph(db.users, userId, targetUserId);
    FollowKeepsAccounts(db.users, userId, targetUserId);
    FollowedUpdatesBoth(db.users, userId, targetUserId, user, targetUser);
    UsersReplacedKeepsConsistent(db.users, Followed(db.users, userId, targetUserId), db.posts, db.comments,
                                 db.conversations, db.messages, db.nextId);
    db.users := db.users[userId := user][targetUserId := targetUser];
    var message := if targetUserId in user.following then FollowedMessage else UnfollowedMessage;
    return 200, FollowToggled(message, user.following, targetUser.followers);
  }
}
