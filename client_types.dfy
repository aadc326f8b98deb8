/**
  The records the client keeps in its Redux store and component state, as
  the server's JSON replies deliver them.  Only the fields the modelled
  components read or write are kept.
 */
module ClientTypes {
  import opened Common
  import opened Db

  /** The logged-in user (`store.auth.user`), the `user` part of a login reply. */
  datatype AuthUser = AuthUser(
    id: Id,
    username: string,
    email: string,
    bio: string,
    profilePicture: string,
    followers: seq<Id>,
    following: seq<Id>)

  /** An entry of `suggestedUsers` or `searchResults`, and the `selectedUser`
      of a chat.  `bio` and `fullName` may be missing from the record. */
  datatype UserCard = UserCard(
    id: Id,
    username: string,
    bio: Option<string>,
    fullName: Option<string>,
    profilePicture: string)

  /** The profile on display (`store.auth.userProfile`).  `followers` may be
      missing, which the profile page treats as a count of 0. */
  datatype UserProfile = UserProfile(
    id: Id,
    username: string,
    followers: Option<seq<Id>>,
    following: seq<Id>,
    posts: seq<Id>,
    bookmarks: seq<Id>)

  datatype FeedComment = FeedComment(id: Id, text: string, authorId: Id)

  /** A post of the feed (`store.post.posts`); `authorId` is the populated
      author's id, missing when the author was not populated. */
  datatype FeedPost = FeedPost(
    id: Id,
    caption: string,
    image: string,
    authorId: Option<Id>,
    likes: seq<Id>,
    comments: seq<FeedComment>)

  /** A message of the open chat (`store.chat.messages`); `createdAt` in ms. */
  datatype ChatMessage = ChatMessage(
    id: Id,
    senderId: Id,
    receiverId: Id,
    message: string,
    createdAt: int)
}
