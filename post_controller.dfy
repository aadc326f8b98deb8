/**
  server/controllers/post.controller.js: `addNewPost`, `getUserPosts`,
  `likePost`, `addComment`, `deletePost` and `bookmarkPost`.

  Image resizing and the upload to the image host are external services:
  a request's image enters as the hosted URL the upload returned, or None
  when no file came with the request.  `now` is the creation time the
  store stamps on a record.
 */
module PostController {
  import opened Common
  import opened Db

  const ImageRequired := "Image is required"
  const PostNotFound := "Post not found"
  const UserNotFound := "User not found"
  const EmptyComment := "Comment cannot be empty"
  const NotAuthor := "You are not authorized to delete this post"
  const PostDeleted := "Post deleted successfully"
  const BookmarkedMessage := "Post bookmarked successfully"
  const UnbookmarkedMessage := "Post unbookmarked successfully"

  /** `addNewPost`: 400 without an image, creating nothing; otherwise a new
      post by the requester with no likes or comments, whose id is appended
      to the author's `posts` when the author's record exists. */
  method AddNewPost(db: Store, caption: string, image: Option<string>, authorId: Id, now: int)
    returns (status: int, body: Body)
    requires db.Valid()
    modifies db
    ensures db.Valid()
    ensures image.None? ==> status == 400 && body == Fail(ImageRequired) && unchanged(db)
    ensures image.Some? ==>
              var id := old(db.nextId);
              && status == 201
              && id !in old(db.posts)
              && body == PostCreated(id, Post(caption, image.value, authorId, [], [], now))
              && db.posts == old(db.posts)[id := body.post]
              && db.nextId == id + 1
              && db.users == (if authorId in old(db.users)
                              then old(db.users)[authorId := old(db.users)[authorId].(posts := old(db.users)[authorId].posts + [id])]
                              else old(db.users))
    ensures db.comments == old(db.comments)
    ensures db.conversations == old(db.conversations) && db.messages == old(db.messages)
  {
    if image.None? {
      return 400, Fail(ImageRequired);
    }
    var id := db.nextId;
    var post := Post(caption, image.value, authorId, [], [], now);
    db.posts := db.posts[id := post];
    db.nextId := db.nextId + 1;
    if authorId in db.users {
      var user := db.users[authorId];
      SameAccountKeepsInvariants(db.users, authorId, user.(posts := user.posts + [id]));
      db.users := db.users[authorId := user.(posts := user.posts + [id])];
    }
    return 201, PostCreated(id, post);
  }

  /** `Post.find({ author })` over the ids in [from, bound), in natural order. */
  function AuthoredBy(posts: map<Id, Post>, author: Id, from: nat, bound: nat): (r: seq<Id>)
    decreases bound - from
    ensures forall k :: 0 <= k < |r| ==> r[k] in posts && posts[r[k]].author == author && from <= r[k] < bound
    ensures forall k, l :: 0 <= k < l < |r| ==> r[k] < r[l]
    ensures forall id :: from <= id < bound && id in posts && posts[id].author == author ==> id in r
  {
    if from >= bound then []
    else if from in posts && posts[from].author == author then [from] + AuthoredBy(posts, author, from + 1, bound)
    else AuthoredBy(posts, author, from + 1, bound)
  }

  /** `.sort({ createdAt: -1 })`: each post is at least as new as every post
      after it. */
  ghost predicate NewestFirst(ids: seq<Id>, posts: map<Id, Post>) {
    forall i, j :: 0 <= i < j < |ids| && ids[i] in posts && ids[j] in posts ==>
      posts[ids[i]].createdAt >= posts[ids[j]].createdAt
  }

  /** No id occurs twice. */
  ghost predicate Distinct(ids: seq<Id>) {
    forall x :: multiset(ids)[x] <= 1
  }

  /** A strictly increasing list of ids (what a natural-order scan yields)
      repeats none of them. */
  lemma {:induction false} IncreasingIsDistinct(s: seq<Id>)
    requires forall k, l :: 0 <= k < l < |s| ==> s[k] < s[l]
    ensures Distinct(s)
  {
    if s != [] {
      IncreasingIsDistinct(s[1..]);
      assert s == [s[0]] + s[1..];
      assert s[0] !in s[1..] by {
        forall k | 0 <= k < |s[1..]| ensures s[1..][k] != s[0] {
          assert s[1..][k] == s[k + 1];
        }
      }
    }
  }

  predicate AllIn(ids: seq<Id>, posts: map<Id, Post>) {
    forall k :: 0 <= k < |ids| ==> ids[k] in posts
  }

  /** Inserts `id` before the first post that is not newer than it. */
  function InsertByDate(id: Id, s: seq<Id>, posts: map<Id, Post>): (r: seq<Id>)
    requires id in posts && AllIn(s, posts)
    ensures multiset(r) == multiset(s) + multiset{id}
    ensures AllIn(r, posts)
  {
    if s == [] then [id]
    else if posts[s[0]].createdAt <= posts[id].createdAt then [id] + s
    else
      var rest := InsertByDate(id, s[1..], posts);
      assert s == [s[0]] + s[1..];
      [s[0]] + rest
  }

  /** Inserting into a newest-first list keeps it newest first. */
  lemma {:induction false} InsertKeepsNewestFirst(id: Id, s: seq<Id>, posts: map<Id, Post>)
    requires id in posts && AllIn(s, posts) && NewestFirst(s, posts)
    ensures NewestFirst(InsertByDate(id, s, posts), posts)
  {
    var r := InsertByDate(id, s, posts);
    if s == [] {
    } else if posts[s[0]].createdAt <= posts[id].createdAt {
      assert r == [id] + s;
      forall i, j | 0 <= i < j < |r| ensures posts[r[i]].createdAt >= posts[r[j]].createdAt {
        if i > 0 {
          assert r[i] == s[i - 1] && r[j] == s[j - 1];
        } else if j > 1 {
          assert r[j] == s[j - 1];
          assert posts[s[0]].createdAt >= posts[s[j - 1]].createdAt;
        }
      }
    } else {
      var rest := InsertByDate(id, s[1..], posts);
      InsertKeepsNewestFirst(id, s[1..], posts);
      assert r == [s[0]] + rest;
      forall i, j | 0 <= i < j < |r| ensures posts[r[i]].createdAt >= posts[r[j]].createdAt {
        assert r[j] == rest[j - 1];
        if i > 0 {
          assert r[i] == rest[i - 1];
        } else {
          assert rest[j - 1] in multiset(rest);
          if rest[j - 1] != id {
            assert rest[j - 1] in multiset(s[1..]);
            var k :| 0 <= k < |s[1..]| && s[1..][k] == rest[j - 1];
            assert s[k + 1] == rest[j - 1];
          }
        }
      }
    }
  }

  /** Insertion sort, newest first.  Posts with equal timestamps keep their
      natural order. */
  function SortNewestFirst(s: seq<Id>, posts: map<Id, Post>): (r: seq<Id>)
    requires AllIn(s, posts)
    ensures AllIn(r, posts) && NewestFirst(r, posts)
    ensures multiset(r) == multiset(s)
  {
    if s == [] then []
    else
      var rest := SortNewestFirst(s[1..], posts);
      assert s == [s[0]] + s[1..];
      InsertKeepsNewestFirst(s[0], rest, posts);
      InsertByDate(s[0], rest, posts)
  }

  /** `getUserPosts`: read-only.  Exactly the requester's posts, each once,
      newest `createdAt` first. */
  method GetUserPosts(db: Store, userId: Id) returns (status: int, body: Body)
    requires db.Valid()
    ensures status == 200 && body.PostList?
    ensures forall id :: id in body.posts <==> id in db.posts && db.posts[id].author == userId
    ensures Distinct(body.posts)
    ensures NewestFirst(body.posts, db.posts)
  {
    var authored := AuthoredBy(db.posts, userId, 0, db.nextId);
    IncreasingIsDistinct(authored);
    var posts := SortNewestFirst(authored, db.posts);
    forall id ensures id in posts <==> id in authored {
      assert id in posts <==> id in multiset(posts);
      assert id in authored <==> id in multiset(authored);
    }
    return 200, PostList(posts);
  }

  /** `likePost`: 404 for an unknown post; otherwise the requester is pulled
      from `likes` if present and pushed otherwise, and the reply counts the
      new list. */
  method LikePost(db: Store, postId: Id, userId: Id) returns (status: int, body: Body)
    requires db.Valid()
    modifies db
    ensures db.Valid()
    ensures postId !in old(db.posts) ==> status == 404 && body == Fail(PostNotFound) && unchanged(db)
    ensures postId in old(db.posts) ==>
              && status == 200
              && db.posts == old(db.posts)[postId := old(db.posts)[postId].(likes := Toggled(old(db.posts)[postId].likes, userId))]
              && (userId in db.posts[postId].likes <==> userId !in old(db.posts)[postId].likes)
              && body == LikeToggled(|db.posts[postId].likes|)
    ensures db.users == old(db.users) && db.comments == old(db.comments) && db.nextId == old(db.nextId)
    ensures db.conversations == old(db.conversations) && db.messages == old(db.messages)
  {
    if postId !in db.posts {
      return 404, Fail(PostNotFound);
    }
    var post := db.posts[postId];
    if userId in post.likes {
      post := post.(likes := Removed(post.likes, userId));
    } else {
      post := post.(likes := post.likes + [userId]);
    }
    db.posts := db.posts[postId := post];
    return 200, LikeToggled(|post.likes|);
  }

  /** `!comment || comment.trim() === ""`: the text is refused exactly when
      it is blank. */
  function CommentRejected(comment: string): (r: bool)
    ensures r <==> IsBlank(comment)
  {
    TrimEmptyIffBlank(comment);
    comment == "" || Trim(comment) == ""
  }

  /** `addComment`: blank text is refused with 400 before the post is even
      looked up; an unknown post answers 404; otherwise one new comment is
      stored and its id appended at the end of the post's `comments`. */
  method AddComment(db: Store, postId: Id, userId: Id, comment: string) returns (status: int, body: Body)
    requires db.Valid()
    modifies db
    ensures db.Valid()
    ensures IsBlank(comment) ==> status == 400 && body == Fail(EmptyComment) && unchanged(db)
    ensures !IsBlank(comment) && postId !in old(db.posts) ==>
              status == 404 && body == Fail(PostNotFound) && unchanged(db)
    ensures !IsBlank(comment) && postId in old(db.posts) ==>
              var id := old(db.nextId);
              && status == 201
              && id !in old(db.comments)
              && body == CommentAdded(id, Comment(comment, userId, postId))
              && db.comments == old(db.comments)[id := body.comment]
              && db.posts == old(db.posts)[postId := old(db.posts)[postId].(comments := old(db.posts)[postId].comments + [id])]
              && db.nextId == id + 1
    ensures db.users == old(db.users)
    ensures db.conversations == old(db.conversations) && db.messages == old(db.messages)
  {
    if CommentRejected(comment) {
      return 400, Fail(EmptyComment);
    }
    if postId !in db.posts {
      return 404, Fail(PostNotFound);
    }
    var id := db.nextId;
    var commentData := Comment(comment, userId, postId);
    var post := db.posts[postId];
    CommentAddedKeepsConsistent(db.users, db.posts, db.comments, db.conversations, db.messages, db.nextId,
                                postId, post.(comments := post.comments + [id]), commentData);
    db.comments := db.comments[id := commentData];
    db.nextId := db.nextId + 1;
    db.posts := db.posts[postId := post.(comments := post.comments + [id])];
    return 201, CommentAdded(id, commentData);
  }

  /** The comments left after deleting a post: those not attached to it. */
  function CommentsWithout(comments: map<Id, Comment>, postId: Id): (r: map<Id, Comment>)
    ensures forall c :: c in r <==> c in comments && comments[c].post != postId
    ensures forall c :: c in r ==> r[c] == comments[c]
  {
    map c | c in comments && comments[c].post != postId :: comments[c]
  }

  /** `deletePost`: 404 for an unknown post and 403 for anyone but its
      author, both changing nothing.  Otherwise the post is removed, its id
      pulled from the author's `posts`, and its comments deleted.  (The
      source's `Comment.deleteMany` filters on a field `posts`, while
      comments are created with the field `post`; the intended field
      `post` is modelled.) */
  method DeletePost(db: Store, postId: Id, userId: Id) returns (status: int, body: Body)
    requires db.Valid()
    modifies db
    ensures db.Valid()
    ensures postId !in old(db.posts) ==> status == 404 && body == Fail(PostNotFound) && unchanged(db)
    ensures postId in old(db.posts) && old(db.posts)[postId].author != userId ==>
              status == 403 && body == Fail(NotAuthor) && unchanged(db)
    ensures postId in old(db.posts) && old(db.posts)[postId].author == userId ==>
              && status == 200 && body == Deleted(PostDeleted)
              && db.posts == old(db.posts) - {postId}
              && db.users == WithoutPostOf(old(db.users), userId, postId)
              && db.comments == CommentsWithout(old(db.comments), postId)
    ensures db.nextId == old(db.nextId)
    ensures db.conversations == old(db.conversations) && db.messages == old(db.messages)
  {
    if postId !in db.posts {
      return 404, Fail(PostNotFound);
    }
    if db.posts[postId].author != userId {
      return 403, Fail(NotAuthor);
    }
    DeleteKeepsConsistent(db.users, db.posts, db.comments, db.conversations, db.messages, db.nextId,
                          postId, userId);
    db.posts, db.users, db.comments :=
      db.posts - {postId}, WithoutPostOf(db.users, userId, postId), CommentsWithout(db.comments, postId);
    return 200, Deleted(PostDeleted);
  }

  /** The users after the author's `posts.pull(postId)`; a missing author
      leaves them as they were. */
  function WithoutPostOf(users: map<Id, User>, userId: Id, postId: Id): (r: map<Id, User>)
    ensures r.Keys == users.Keys
    ensures forall id :: id in users && id != userId ==> r[id] == users[id]
    ensures userId in users ==>
              && r[userId] == users[userId].(posts := Removed(users[userId].posts, postId))
              && postId !in r[userId].posts
  {
    if userId in users then users[userId := users[userId].(posts := Removed(users[userId].posts, postId))]
    else users
  }

  lemma DeleteKeepsConsistent(users: map<Id, User>, posts: map<Id, Post>, comments: map<Id, Comment>,
                              conversations: seq<Conversation>, messages: seq<Message>, nextId: nat,
                              postId: Id, userId: Id)
    requires Consistent(users, posts, comments, conversations, messages, nextId)
    ensures Consistent(WithoutPostOf(users, userId, postId), posts - {postId}, CommentsWithout(comments, postId),
                       conversations, messages, nextId)
  {
    if userId in users {
      SameAccountKeepsInvariants(users, userId, users[userId].(posts := Removed(users[userId].posts, postId)));
    }
    PostDeletedKeepsConsistent(users, WithoutPostOf(users, userId, postId), posts, comments,
                               CommentsWithout(comments, postId), conversations, messages, nextId, postId);
  }

  /** `bookmarkPost`: 404 for an unknown post, then 404 for an unknown user;
      otherwise the post id is toggled in the user's `bookmarks`, and the
      reply says "bookmarked" exactly when the id is now present and counts
      the new list. */
  method BookmarkPost(db: Store, postId: Id, userId: Id) returns (status: int, body: Body)
    requires db.Valid()
    modifies db
    ensures db.Valid()
    ensures postId !in old(db.posts) ==> status == 404 && body == Fail(PostNotFound) && unchanged(db)
    ensures postId in old(db.posts) && userId !in old(db.users) ==>
              status == 404 && body == Fail(UserNotFound) && unchanged(db)
    ensures postId in old(db.posts) && userId in old(db.users) ==>
              && status == 200
              && db.users == old(db.users)[userId := old(db.users)[userId].(bookmarks := Toggled(old(db.users)[userId].bookmarks, postId))]
              && body.BookmarkToggled?
              && (body.message == BookmarkedMessage <==> postId in db.users[userId].bookmarks)
              && (body.message == BookmarkedMessage || body.message == UnbookmarkedMessage)
              && body.bookmarksCount == |db.users[userId].bookmarks|
    ensures db.posts == old(db.posts) && db.comments == old(db.comments) && db.nextId == old(db.nextId)
    ensures db.conversations == old(db.conversations) && db.messages == old(db.messages)
  {
    if postId !in db.posts {
      return 404, Fail(PostNotFound);
    }
    if userId !in db.users {
      return 404, Fail(UserNotFound);
    }
    var user := db.users[userId];
    if postId in user.bookmarks {
      user := user.(bookmarks := Removed(user.bookmarks, postId));
    } else {
      user := user.(bookmarks := user.bookmarks + [postId]);
    }
    SameAccountKeepsInvariants(db.users, userId, user);
    db.users := db.users[userId := user];
    var message := if postId in user.bookmarks then BookmarkedMessage else UnbookmarkedMessage;
    return 200, BookmarkToggled(message, |user.bookmarks|);
  }
}
