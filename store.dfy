/**
  The document store the server controllers work on.  The Mongoose schemas
  are not part of this model; the records below carry the fields the
  controllers read and write.  Users, posts and comments are kept in maps
  from id to record and receive fresh ids from one counter; conversations
  and messages are never deleted, so each lives in an append-only sequence
  and its id is its position.  "Natural order" of a collection (what
  `findOne` and `find` return first) is ascending id.
 */
module Db {
  import opened Common

  type Id = nat

  datatype User = User(
    username: string,
    email: string,
    password: string,        // the stored hash, never the clear password
    bio: string,
    gender: string,
    profilePicture: string,
    followers: seq<Id>,
    following: seq<Id>,
    posts: seq<Id>,
    bookmarks: seq<Id>)

  datatype Post = Post(
    caption: string,
    image: string,
    author: Id,
    likes: seq<Id>,
    comments: seq<Id>,
    createdAt: int)          // milliseconds

  datatype Comment = Comment(text: string, author: Id, post: Id)

  datatype Conversation = Conversation(participants: seq<Id>, messages: seq<Id>)

  datatype Message = Message(
    senderId: Id,
    receiverId: Id,
    message: string,
    conversationId: Id,
    createdAt: int)

  /** The user part of a successful login response. */
  datatype LoginUser = LoginUser(
    username: string,
    email: string,
    id: Id,
    bio: string,
    profilePicture: string,
    followers: seq<Id>,
    following: seq<Id>)

  /** The JSON body of a controller's response. */
  datatype Body =
    | Fail(message: string)                               // success: false
    | Sent(newMessageId: Id, newMessage: Message)
    | History(messages: seq<Id>)
    | NoHistory(literal: string)                         // the string "[]"
    | Registered(username: string, email: string)
    | LoggedIn(token: string, cookieMaxAgeMs: nat, user: LoginUser)
    | ProfileUpdated(updated: User)
    | SuggestedList(users: seq<Id>)
    | FollowToggled(message: string, following: seq<Id>, followers: seq<Id>)
    | PostCreated(postId: Id, post: Post)
    | PostList(posts: seq<Id>)
    | LikeToggled(likesCount: nat)
    | CommentAdded(commentId: Id, comment: Comment)
    | Deleted(message: string)
    | BookmarkToggled(message: string, bookmarksCount: nat)

  /** Every id in a follow list names an existing user, and the two sides of
      each follow edge agree: b is in a's `following` exactly when a is in
      b's `followers`. */
  ghost predicate FollowGraph(users: map<Id, User>) {
    && (forall a, b :: a in users && b in users[a].following ==> b in users)
    && (forall a, b :: a in users && b in users[a].followers ==> b in users)
    && (forall a, b :: a in users && b in users ==>
          (b in users[a].following <==> a in users[b].followers))
  }

  /** No two users share an email, nor a username (what `register` checks). */
  ghost predicate UniqueAccounts(users: map<Id, User>) {
    && (forall a, b :: a in users && b in users && users[a].email == users[b].email ==> a == b)
    && (forall a, b :: a in users && b in users && users[a].username == users[b].username ==> a == b)
  }

  /** Every message id a conversation lists names a stored message that
      points back at that conversation. */
  ghost predicate MessagesFiled(conversations: seq<Conversation>, messages: seq<Message>) {
    forall c, k :: 0 <= c < |conversations| && 0 <= k < |conversations[c].messages| ==>
      conversations[c].messages[k] < |messages|
      && messages[conversations[c].messages[k]].conversationId == c
  }

  /** Replacing a user by a record with the same follow lists, email and
      username keeps every invariant about users. */
  lemma SameAccountKeepsInvariants(users: map<Id, User>, id: Id, u: User)
    requires FollowGraph(users) && UniqueAccounts(users) && id in users
    requires u.followers == users[id].followers && u.following == users[id].following
    requires u.email == users[id].email && u.username == users[id].username
    ensures FollowGraph(users[id := u]) && UniqueAccounts(users[id := u])
  {
  }

  /** The invariant of the database, on its contents: every stored id is
      below the counter, the follow graph is consistent, accounts are unique
      and every listed message is filed under its conversation. */
  ghost predicate Consistent(users: map<Id, User>, posts: map<Id, Post>, comments: map<Id, Comment>,
                             conversations: seq<Conversation>, messages: seq<Message>, nextId: nat)
  {
    && (forall id :: id in users ==> id < nextId)
    && (forall id :: id in posts ==> id < nextId)
    && (forall id :: id in comments ==> id < nextId)
    && FollowGraph(users)
    && UniqueAccounts(users)
    && MessagesFiled(conversations, messages)
  }

  /** Replacing the users by records under the same ids that keep the follow
      graph and the unique accounts keeps the whole invariant. */
  lemma UsersReplacedKeepsConsistent(users: map<Id, User>, users': map<Id, User>, posts: map<Id, Post>,
                                     comments: map<Id, Comment>, conversations: seq<Conversation>,
                                     messages: seq<Message>, nextId: nat)
    requires Consistent(users, posts, comments, conversations, messages, nextId)
    requires users'.Keys == users.Keys && FollowGraph(users') && UniqueAccounts(users')
    ensures Consistent(users', posts, comments, conversations, messages, nextId)
  {
    assert forall id :: id in users' ==> id in users;
  }

  /** Storing a comment under the fresh id, bumping the counter, and
      replacing an existing post keeps the whole invariant. */
  lemma CommentAddedKeepsConsistent(users: map<Id, User>, posts: map<Id, Post>, comments: map<Id, Comment>,
                                    conversations: seq<Conversation>, messages: seq<Message>, nextId: nat,
                                    postId: Id, p: Post, c: Comment)
    requires Consistent(users, posts, comments, conversations, messages, nextId) && postId in posts
    ensures Consistent(users, posts[postId := p], comments[nextId := c], conversations, messages, nextId + 1)
  {
  }

  /** Dropping a post, dropping comments, and replacing the users by records
      under the same ids that keep the user invariants keeps the whole
      invariant. */
  lemma PostDeletedKeepsConsistent(users: map<Id, User>, users': map<Id, User>, posts: map<Id, Post>,
                                   comments: map<Id, Comment>, comments': map<Id, Comment>,
                                   conversations: seq<Conversation>, messages: seq<Message>, nextId: nat,
                                   postId: Id)
    requires Consistent(users, posts, comments, conversations, messages, nextId)
    requires users'.Keys == users.Keys && FollowGraph(users') && UniqueAccounts(users')
    requires comments'.Keys <= comments.Keys
    ensures Consistent(users', posts - {postId}, comments', conversations, messages, nextId)
  {
    assert forall id :: id in users' ==> id in users;
    assert forall id :: id in comments' ==> id in comments;
  }

  class Store {
    var users: map<Id, User>
    var posts: map<Id, Post>
    var comments: map<Id, Comment>
    var conversations: seq<Conversation>
    var messages: seq<Message>
    var nextId: Id

    ghost predicate Valid()
      reads this
    {
      Consistent(users, posts, comments, conversations, messages, nextId)
    }

    /** An empty database. */
    constructor ()
      ensures Valid()
      ensures users == map[] && posts == map[] && comments == map[]
      ensures conversations == [] && messages == [] && nextId == 0
    {
      users, posts, comments := map[], map[], map[];
      conversations, messages := [], [];
      nextId := 0;
    }
  }
}
