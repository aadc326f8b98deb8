/**
  client/src/components/Post.jsx: one post of the feed.  Likes are
  optimistic (the heart and the counter move before the request and are put
  back when it fails), comments are appended to the local list and to the
  feed on success, and a successful delete filters the post out of the
  feed.  Each network call is a parameter holding what it hands back.
 */
module PostCard {
  import opened Common
  import opened Db
  import opened ClientTypes

  /** One post of the feed after a successful like click by `userId`. */
  function PostAfterLike(p: FeedPost, postId: Id, userId: Id, wasLiked: bool): FeedPost {
    if p.id != postId then p
    else p.(likes := if wasLiked then Removed(p.likes, userId) else p.likes + [userId])
  }

  /** `posts.map(p => p._id === post._id ? {...p, likes: ...} : p)`. */
  function FeedAfterLike(feed: seq<FeedPost>, postId: Id, userId: Id, wasLiked: bool): (r: seq<FeedPost>)
    ensures |r| == |feed|
    ensures forall i :: 0 <= i < |feed| ==> r[i] == PostAfterLike(feed[i], postId, userId, wasLiked)
  {
    seq(|feed|, i requires 0 <= i < |feed| => PostAfterLike(feed[i], postId, userId, wasLiked))
  }

  /** Only the liked post changes, and afterwards the user is among its
      likes exactly when the click was a like. */
  lemma FeedAfterLikeChangesOnlyThePost(feed: seq<FeedPost>, postId: Id, userId: Id, wasLiked: bool)
    ensures var r := FeedAfterLike(feed, postId, userId, wasLiked);
            forall i :: 0 <= i < |feed| ==>
              && r[i].id == feed[i].id
              && (feed[i].id != postId ==> r[i] == feed[i])
              && (feed[i].id == postId ==> r[i] == feed[i].(likes := r[i].likes) && (userId in r[i].likes <==> !wasLiked))
  {
  }

  /** A like followed by a dislike gives the feed back, as long as the user
      had not liked the post before. */
  lemma LikeThenDislikeRestoresFeed(feed: seq<FeedPost>, postId: Id, userId: Id)
    requires forall i :: 0 <= i < |feed| && feed[i].id == postId ==> userId !in feed[i].likes
    ensures FeedAfterLike(FeedAfterLike(feed, postId, userId, false), postId, userId, true) == feed
  {
    var r := FeedAfterLike(FeedAfterLike(feed, postId, userId, false), postId, userId, true);
    forall i | 0 <= i < |feed| ensures r[i] == feed[i] {
      if feed[i].id == postId {
        PullUndoesPush(feed[i].likes, userId);
      }
    }
  }

  /** `posts.map(p => p._id === post._id ? {...p, comments} : p)`. */
  function FeedWithComments(feed: seq<FeedPost>, postId: Id, comments: seq<FeedComment>): (r: seq<FeedPost>)
    ensures |r| == |feed|
    ensures forall i :: 0 <= i < |feed| ==>
              r[i] == if feed[i].id == postId then feed[i].(comments := comments) else feed[i]
  {
    seq(|feed|, i requires 0 <= i < |feed| =>
      if feed[i].id == postId then feed[i].(comments := comments) else feed[i])
  }

  /** `posts.filter(p => p._id !== post._id)`. */
  function FeedWithout(feed: seq<FeedPost>, postId: Id): (r: seq<FeedPost>)
    ensures forall p :: p in r <==> p in feed && p.id != postId
    ensures forall p :: multiset(r)[p] == if p.id != postId then multiset(feed)[p] else 0
    ensures |r| <= |feed|
  {
    if feed == [] then []
    else
      assert feed == [feed[0]] + feed[1..];
      if feed[0].id == postId then FeedWithout(feed[1..], postId)
      else [feed[0]] + FeedWithout(feed[1..], postId)
  }

  /** The feed after a delete keeps the other posts in their order. */
  lemma {:induction false} FeedWithoutIsSubsequence(feed: seq<FeedPost>, postId: Id)
    ensures IsSubsequence(FeedWithout(feed, postId), feed)
  {
    if feed != [] {
      var rest := FeedWithout(feed[1..], postId);
      FeedWithoutIsSubsequence(feed[1..], postId);
      if feed[0].id == postId {
        SubsequenceOfTail(rest, feed);
      } else {
        assert ([feed[0]] + rest)[1..] == rest;
      }
    }
  }

  /** `isAuthor`: the viewer is the populated author; the delete button is
      offered exactly then.  An unpopulated author is nobody's post. */
  function IsAuthor(userId: Id, post: FeedPost): (r: bool)
    ensures r ==> post.authorId.Some?
    ensures r <==> post.authorId == Some(userId)
  {
    post.authorId == Some(userId)
  }

  /** The position of the first occurrence of `p` in the feed. */
  function IndexOf(feed: seq<FeedPost>, p: FeedPost): (k: nat)
    requires p in feed
    ensures k < |feed| && feed[k] == p
  {
    if feed[0] == p then 0 else 1 + IndexOf(feed[1..], p)
  }

  class PostCard {
    /** `user.id` of the viewer; the handlers read it unguarded. */
    const userId: Id
    /** The `post` prop: the feed's entry for this post, handed down again
        by the feed after each change to it. */
    var post: FeedPost
    var text: string
    var isLiking: bool
    var isCommenting: bool
    var liked: bool
    var postLike: int
    var comment: seq<FeedComment>
    /** `store.post.posts`. */
    var feed: seq<FeedPost>

    constructor (userId: Id, post: FeedPost, feed: seq<FeedPost>)
      ensures this.userId == userId && this.post == post && this.feed == feed
      ensures text == "" && !isLiking && !isCommenting
      ensures liked == (userId in post.likes) && postLike == |post.likes| && comment == post.comments
    {
      this.userId, this.post, this.feed := userId, post, feed;
      text, isLiking, isCommenting := "", false, false;
      liked, postLike, comment := userId in post.likes, |post.likes|, post.comments;
    }

    /** The comment box never holds whitespace only. */
    predicate TextNormalised()
      reads this
    {
      text == "" || !IsBlank(text)
    }

    /** `changeEventHandler`: whitespace-only input is stored as "". */
    method ChangeText(input: string)
      modifies this
      ensures text == (if IsBlank(input) then "" else input)
      ensures TextNormalised()
      ensures isLiking == old(isLiking) && isCommenting == old(isCommenting) && liked == old(liked)
      ensures postLike == old(postLike) && comment == old(comment) && feed == old(feed) && post == old(post)
    {
      TrimEmptyIffBlank(input);
      text := if Trim(input) != [] then input else "";
    }

    /** The synchronous part of a like click: ignored while one is in
        flight; otherwise the heart flips, the counter moves by one and the
        request names "dislike" exactly when the post was liked. */
    method BeginLike() returns (started: bool, wasLiked: bool, action: string)
      modifies this
      ensures started <==> !old(isLiking)
      ensures !started ==> unchanged(this)
      ensures started ==>
                && wasLiked == old(liked) && liked == !wasLiked && isLiking
                && postLike == (if wasLiked then old(postLike) - 1 else old(postLike) + 1)
                && action == (if wasLiked then "dislike" else "like")
                && text == old(text) && isCommenting == old(isCommenting)
                && comment == old(comment) && feed == old(feed) && post == old(post)
    {
      if isLiking {
        return false, false, "";
      }
      wasLiked := liked;
      liked := !wasLiked;
      postLike := if wasLiked then postLike - 1 else postLike + 1;
      isLiking := true;
      action := if wasLiked then "dislike" else "like";
      started := true;
    }

    /** What follows the reply: the feed learns the like on success; on a
        declined reply or an error the heart is put back and the counter is
        reset to the like count the card was mounted with. */
    method FinishLike(wasLiked: bool, outcome: Outcome<()>)
      modifies this
      ensures outcome.Success? ==>
                && feed == FeedAfterLike(old(feed), old(post).id, userId, wasLiked)
                && post == PostAfterLike(old(post), old(post).id, userId, wasLiked)
                && liked == old(liked) && postLike == old(postLike)
      ensures !outcome.Success? ==>
                feed == old(feed) && post == old(post) && liked == wasLiked && postLike == |post.likes|
      ensures old(post in feed) ==> post in feed
      ensures !isLiking
      ensures text == old(text) && isCommenting == old(isCommenting) && comment == old(comment)
    {
      if outcome.Success? {
        ghost var mounted := post in feed;
        ghost var k := if mounted then IndexOf(feed, post) else 0;
        feed := FeedAfterLike(feed, post.id, userId, wasLiked);
        post := PostAfterLike(post, post.id, userId, wasLiked);
        if mounted {
          assert feed[k] == post;
        }
      } else {
        liked := wasLiked;
        postLike := |post.likes|;
      }
      isLiking := false;
    }

    /** `likeOrDislikeHandler` as one step. */
    method LikeOrDislikeHandler(outcome: Outcome<()>) returns (started: bool, action: string)
      modifies this
      ensures started <==> !old(isLiking)
      ensures !started ==> unchanged(this)
      ensures started ==>
                && !isLiking
                && action == (if old(liked) then "dislike" else "like")
                && (outcome.Success? ==>
                      && liked == !old(liked)
                      && postLike == (if old(liked) then old(postLike) - 1 else old(postLike) + 1)
                      && feed == FeedAfterLike(old(feed), old(post).id, userId, old(liked))
                      && post == PostAfterLike(old(post), old(post).id, userId, old(liked)))
                && (!outcome.Success? ==>
                      liked == old(liked) && postLike == |old(post).likes| && feed == old(feed) && post == old(post))
                && text == old(text) && isCommenting == old(isCommenting) && comment == old(comment)
      ensures old(post in feed) ==> post in feed
    {
      var wasLiked;
      started, wasLiked, action := BeginLike();
      if started {
        FinishLike(wasLiked, outcome);
      }
    }

    /** `commentHandler`: sends the text only when it is not blank and no
        comment is in flight.  On success the reply's comment goes to the end
        of the local list, the matching post of the feed takes that list and
        the box is cleared; the in-flight flag is down afterwards. */
    method CommentHandler(outcome: Outcome<FeedComment>) returns (request: Option<string>)
      modifies this
      ensures IsBlank(old(text)) || old(isCommenting) ==> request.None? && unchanged(this)
      ensures !(IsBlank(old(text)) || old(isCommenting)) ==>
                && request == Some(old(text))
                && !isCommenting
                && (outcome.Success? ==>
                      && comment == old(comment) + [outcome.payload]
                      && feed == FeedWithComments(old(feed), old(post).id, comment)
                      && post == old(post).(comments := comment)
                      && text == "")
                && (!outcome.Success? ==>
                      comment == old(comment) && feed == old(feed) && post == old(post) && text == old(text))
      ensures old(post in feed) ==> post in feed
      ensures isLiking == old(isLiking) && liked == old(liked) && postLike == old(postLike)
    {
      TrimEmptyIffBlank(text);
      if Trim(text) == [] || isCommenting {
        return None;
      }
      isCommenting := true;
      request := Some(text);
      if outcome.Success? {
        comment := comment + [outcome.payload];
        ghost var mounted := post in feed;
        ghost var k := if mounted then IndexOf(feed, post) else 0;
        feed := FeedWithComments(feed, post.id, comment);
        post := post.(comments := comment);
        if mounted {
          assert feed[k] == post;
        }
        text := "";
      }
      isCommenting := false;
    }

    /** `deletePostHandler`: on success every feed entry with this post's
        id is dropped; otherwise nothing changes. */
    method DeletePostHandler(outcome: Outcome<()>)
      modifies this
      ensures outcome.Success? ==> feed == FeedWithout(old(feed), post.id) && post !in feed
      ensures !outcome.Success? ==> feed == old(feed)
      ensures post == old(post)
      ensures text == old(text) && isLiking == old(isLiking) && isCommenting == old(isCommenting)
      ensures liked == old(liked) && postLike == old(postLike) && comment == old(comment)
    {
      if outcome.Success? {
        feed := FeedWithout(feed, post.id);
      }
    }
  }
}
