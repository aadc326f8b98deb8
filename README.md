# Social media platform: server controllers and client logic in Dafny

This project models the core of a small social network built with Express,
Mongoose, React and Redux.

- **Server.** Three controllers work on a document store:
  - messaging: resolve or create the conversation of a pair of users, append a message, read the history;
  - accounts and the follow graph: register, log in, edit the profile, suggest users, follow or unfollow;
  - posts: create, list, like, comment, delete, bookmark.
- **Client.** The logic of the React components that use those routes:
  - chat bubble layout;
  - the two user filters (search page and chat list);
  - the optimistic follow and like handlers with their rollbacks;
  - the comment, delete and create-post handlers;
  - the profile page's derived flags;
  - the `auth` slice of the Redux store.

Files:

| file | models |
|---|---|
| `common.dfy` | options, request outcomes, Mongoose `push`/`pull`, JavaScript `trim`, `toLowerCase`, `includes` |
| `store.dfy` | the records, the store class and its invariants |
| `message_controller.dfy` | `server/controllers/message.controller.js` |
| `user_controller.dfy` | `server/controllers/user.controller.js` |
| `post_controller.dfy` | `server/controllers/post.controller.js` |
| `client_types.dfy` | the records held by the client |
| `messages_view.dfy` | `client/src/components/Messages.jsx` |
| `search.dfy` | `client/src/components/SearchPage.jsx` |
| `chat.dfy` | `client/src/components/ChatPage.jsx` |
| `suggested.dfy` | `client/src/components/SuggestedUsers.jsx` |
| `post_card.dfy` | `client/src/components/Post.jsx` |
| `profile.dfy` | `client/src/components/Profile.jsx` |
| `create_post.dfy` | `client/src/components/CreatePost.jsx` |
| `auth_slice.dfy` | `client/src/redux/authSlice.js` |

How the server is modelled:

- The store is a class, `Db.Store`.
  - Users, posts and comments are maps from id to record. They share one counter for fresh ids.
  - Conversations and messages are never deleted, so they are sequences and an id is a position.
  - Natural order, which `findOne` and `find` follow, is ascending id.
- Each controller is a method that modifies the store. It returns the HTTP status and the JSON body.
- `Store.Valid()` holds before and after every controller. It says:
  - every stored id is below the counter;
  - both sides of every follow edge agree (`following` and `followers`);
  - emails and usernames are unique;
  - every message id a conversation lists points back at that conversation.

How the client is modelled:

- Each component whose handlers change state in stages is a class.
- Each network call is a parameter of type `Outcome<T>`: a success with its payload, a reply whose `success` flag is false, or a thrown error.
- Where a click is guarded by an in-flight flag, the handler is split in two:
  - the synchronous part before the request (`Begin…`);
  - the part after the reply (`Finish…`);
  - a combined method states the whole click.

The client and the server are modelled separately.

## Model

| member | source | states |
|---|---|---|
| Common.Removed | server/controllers/post.controller.js:106-110 | `pull`: as a multiset, the result is the list with every copy of the element removed and every copy of every other element kept; the list shrinks iff the element was present; an absent element leaves the list unchanged (order: `RemovedIsSubsequence`) |
| Common.Toggled | server/controllers/post.controller.js:106-110 | `includes ? pull : push`: afterwards the element is present iff it was absent; every other element keeps its membership |
| Common.PullUndoesPush | server/controllers/post.controller.js:106-110 | pushing an absent element and then pulling it gives back the original list |
| Common.ToggleTwiceFromAbsent | server/controllers/post.controller.js:106-110 | toggling twice from "absent" restores the list exactly |
| Common.ToggleTwiceFromPresent | server/controllers/post.controller.js:106-110 | toggling twice from "present" leaves one copy of the element, at the end |
| Common.RemovedIsSubsequence | client/src/components/Post.jsx:115 | filtering out one value keeps the order of the rest |
| Common.TrimEmptyIffBlank | server/controllers/post.controller.js:135 | `s.trim()` is "" exactly when every character is ECMAScript whitespace |
| Common.TrimIgnoresPadding | client/src/components/SearchPage.jsx:23 | trim ignores any blank prefix and any blank suffix: `Trim(p + s + q) == Trim(s)` for all-whitespace `p` and `q` |
| Common.LowerKeepsBlank | client/src/components/SearchPage.jsx:19-23 | lower-casing neither creates nor removes a blank string |
| Common.LowerIdempotent | client/src/components/SearchPage.jsx:23 | lower-casing twice is lower-casing once |
| Common.TrimStart | client/src/components/SearchPage.jsx:23 | the leading-whitespace half of `trim()`: a suffix of the input, the dropped prefix is all whitespace, and the rest does not start with whitespace |
| Common.TrimEnd | client/src/components/SearchPage.jsx:23 | the trailing-whitespace half of `trim()`: a prefix of the input, the dropped suffix is all whitespace, and the rest does not end with whitespace |
| Common.ContainsIffOccurs | client/src/components/SearchPage.jsx:25-27 | `includes` holds iff the needle occurs at some position of the string |
| MessageController.FindConversation | server/controllers/message.controller.js:11-12 | the first conversation, in natural order, whose participants include both ids; `None` iff no conversation does |
| MessageController.FindIsSymmetric | server/controllers/message.controller.js:11-12 | `$all` ignores order: (A, B) and (B, A) resolve to the same conversation |
| MessageController.FindIgnoresMessages | server/controllers/message.controller.js:29-34 | appending message ids to a conversation never changes what a lookup resolves to |
| MessageController.FindAfterAppend | server/controllers/message.controller.js:15-21 | a conversation created at the end is found exactly when no earlier one matched |
| MessageController.Resolve | server/controllers/message.controller.js:11-21 | an existing conversation is reused and nothing is created; otherwise exactly one conversation `[sender, receiver]` is appended |
| MessageController.ResolveIsIdempotent | server/controllers/message.controller.js:11-21 | after a send, resolving the pair again, either way round, lands on the same conversation and creates nothing |
| MessageController.SendMessage | server/controllers/message.controller.js:5-43 | always 200 and nothing validated; the message carries sender, receiver, text and the resolved conversation's id; its id is appended to that conversation only; the store invariant is kept |
| MessageController.GetMessage | server/controllers/message.controller.js:52-69 | read-only; the literal "[]" when no conversation exists; otherwise its stored id list, unchanged and in order, which is the pair's history `HistoryOf` |
| MessageController.SendThenRead | server/controllers/message.controller.js:5-69 | the first read returns the pair's stored history before the send; the read after the send, with the ids either way round, returns the stored history after it, which is the earlier history with the new message id appended at the end |
| UserController.Register | server/controllers/user.controller.js:10-55 | 400 in the source's order (missing field, then email taken, then username taken), each leaving the store unchanged; 201 iff all pass; exactly one user added, holding hash(password); the reply carries only username and email |
| UserController.NewAccountKeepsInvariants | server/controllers/user.controller.js:41-45 | a new account with a fresh id, empty lists and an unused email and username keeps the follow graph consistent and accounts unique |
| UserController.Login | server/controllers/user.controller.js:67-127 | 400 for a missing field; 401 with the same message for an unknown email and for a wrong password; otherwise 200 with a token signed for the user with a 3-day `expiresIn`, in a cookie whose maxAge (written 3*24*60*60*1000 ms) equals that same lifetime |
| UserController.Edited | server/controllers/user.controller.js:203-211 | bio and gender are overwritten only by a non-empty value; the picture only when a file came; no other field changes |
| UserController.EditProfile | server/controllers/user.controller.js:180-220 | 404 for an unknown user with the store unchanged; otherwise only that user changes, by `Edited` |
| UserController.Suggest | server/controllers/user.controller.js:234-236 | at most `limit` ids; each one a user other than the requester; ascending |
| UserController.SuggestSkipsNobody | server/controllers/user.controller.js:234-236 | every other user is suggested when the limit was not reached; otherwise every user before the last one suggested is |
| UserController.SuggestedUsers | server/controllers/user.controller.js:232-250 | read-only; 404 exactly when there is no other user; otherwise 1 to 10 ids, never the requester, in natural order, none skipped |
| UserController.Followed | server/controllers/user.controller.js:301-309 | both lists lose the other id if the user was following, else both gain it at the end; no other user changes |
| UserController.FollowKeepsGraph | server/controllers/user.controller.js:301-309 | the toggle flips the edge on both sides at once, so "target in user.following iff user in target.followers" is preserved |
| UserController.FollowKeepsAccounts | server/controllers/user.controller.js:301-309 | emails and usernames stay unique |
| UserController.FollowTwiceFromUnfollowed | server/controllers/user.controller.js:301-309 | follow then unfollow, starting from no edge, restores both users exactly |
| UserController.FollowOrUnfollow | server/controllers/user.controller.js:264-320 | 400 for a self-follow and 404 when either user is missing, both changing nothing; otherwise the edge is toggled; the message is "Followed successfully" iff the target is now followed; the invariant is kept |
| PostController.AddNewPost | server/controllers/post.controller.js:7-52 | 400 without an image, creating nothing; otherwise one new post by the requester, with no likes or comments, and its id appended to the author's `posts` |
| PostController.AuthoredBy | server/controllers/post.controller.js:70 | exactly the requester's posts, each once, in ascending id |
| PostController.IncreasingIsDistinct | server/controllers/post.controller.js:70 | a natural-order scan lists no id twice |
| PostController.InsertByDate | server/controllers/post.controller.js:70 | insertion adds exactly the one id, as a multiset |
| PostController.InsertKeepsNewestFirst | server/controllers/post.controller.js:70 | inserting into a newest-first list keeps it newest first |
| PostController.SortNewestFirst | server/controllers/post.controller.js:70 | `.sort({ createdAt: -1 })`: a permutation of its input, newest `createdAt` first |
| PostController.GetUserPosts | server/controllers/post.controller.js:66-87 | read-only; exactly the requester's posts, none twice, newest first |
| PostController.LikePost | server/controllers/post.controller.js:96-121 | 404 for an unknown post with the store unchanged; otherwise the requester's like is toggled (every occurrence pulled, or one pushed); likesCount is the new length |
| PostController.CommentRejected | server/controllers/post.controller.js:135-137 | the empty-comment test refuses exactly the blank texts (all ECMAScript whitespace, including "") |
| PostController.AddComment | server/controllers/post.controller.js:129-163 | blank text gets 400 before the lookup; an unknown post gets 404; otherwise one comment is stored and its id appended at the end of the post's `comments` |
| PostController.CommentsWithout | server/controllers/post.controller.js:219 | exactly the comments not attached to the post remain, unchanged |
| PostController.WithoutPostOf | server/controllers/post.controller.js:214-218 | the author, if found, no longer lists the post and keeps every other field; every other user and the set of ids are unchanged |
| PostController.DeletePost | server/controllers/post.controller.js:197-229 | 404 for an unknown post and 403 for a non-author, changing nothing; otherwise the post is removed, its id pulled from the author's `posts`, and its comments deleted |
| PostController.BookmarkPost | server/controllers/post.controller.js:236-264 | 404 for an unknown post, then for an unknown user; otherwise the bookmark is toggled; "bookmarked" iff the id is now present; the count is the new length |
| MessagesView.OneAvatarPerRun | client/src/components/Messages.jsx:42-44 | a maximal same-sender run has its avatar slot on the first message only, and its last message shows the time |
| MessagesView.RunStartsWithAvatar | client/src/components/Messages.jsx:42 | every message belongs to a run that opened with an avatar slot |
| MessagesView.TimeShownIffGapExceeded | client/src/components/Messages.jsx:45 | for every message followed by one from the same sender: its time shows iff the gap is strictly more than 300000 ms, so an exact five-minute gap hides it |
| MessagesView.Render | client/src/components/Messages.jsx:37-107 | the empty state iff the list is missing or empty; otherwise one bubble per message, in order |
| MessagesView.PeerRunDrawsOneAvatar | client/src/components/Messages.jsx:41-70 | in a run of the peer's messages, the first bubble has the avatar and the rest have spacers; one's own messages get no slot |
| Search.KeepMatching | client/src/components/SearchPage.jsx:24-28 | keeps exactly the users whose username, bio or full name contains the query, every copy of each (multiset count equal to the input's), and no other; a missing field never matches |
| Search.KeepMatchingIsSubsequence | client/src/components/SearchPage.jsx:24 | the kept users are in their original order |
| Search.FilteredUsers | client/src/components/SearchPage.jsx:18-29 | a blank query returns the suggested list, or [] if it is missing; otherwise a user is kept iff it matches the lower-cased, trimmed query, with every copy of it kept |
| Search.FilterIsSubsequence | client/src/components/SearchPage.jsx:18-29 | the result is a subsequence of the suggested list |
| Search.FilterIgnoresCase | client/src/components/SearchPage.jsx:23 | lower-casing the query does not change the result |
| Search.FilterIgnoresPadding | client/src/components/SearchPage.jsx:23 | any run of whitespace before or after the query does not change the result |
| Search.ShownSection | client/src/components/SearchPage.jsx:128-168 | "Suggested Users" iff the raw query is ""; otherwise "Search Results" with the count of the filtered list |
| Search.WhitespaceQueryListsEveryone | client/src/components/SearchPage.jsx:128-168 | a whitespace-only query lists every user under "Search Results", with the full count |
| Search.SearchPage.HandleInputChange | client/src/components/SearchPage.jsx:31-33 | the query is exactly what was typed |
| Search.SearchPage.HandleClearSearch | client/src/components/SearchPage.jsx:35-37 | the query becomes "" and the suggested section is shown |
| Chat.UsernameContains | client/src/components/ChatPage.jsx:78-80 | keeps exactly the users whose lower-cased username contains the query, every copy of each, and no other |
| Chat.ChatFilter | client/src/components/ChatPage.jsx:76-81 | everyone for a blank query; otherwise the users whose lower-cased username contains the lower-cased, untrimmed query, every copy of each |
| Chat.ChatFilterIsSubsequence | client/src/components/ChatPage.jsx:76-81 | the result keeps the original order |
| Chat.PaddedChatQueryNeedsTheSpace | client/src/components/ChatPage.jsx:79 | for every non-blank query opened by a whitespace character, each kept user's username contains that character: the chat query is not trimmed |
| Chat.ChatFilterDoesNotTrim | client/src/components/ChatPage.jsx:79 | the query " al" misses user "al" in the chat list, while the search page finds it |
| Chat.ChatPage.SendMessageHandler | client/src/components/ChatPage.jsx:26-51 | blank text does nothing; otherwise one request with the text as typed; on success the new message is appended and the box cleared; on failure both stay; `isLoading` is false afterwards |
| Chat.ChatPage.SendDisabled | client/src/components/ChatPage.jsx:252 | the button's disabled test (blank `textMessage.trim()`, or `isLoading`) holds exactly for blank text or while a send runs |
| Chat.ChatPage.ClickSend | client/src/components/ChatPage.jsx:250-252 | a disabled button sends nothing and changes nothing; an enabled one sends exactly the typed text to the selected user, with the effect of the send handler |
| Chat.ChatPage.HandleKeyPress | client/src/components/ChatPage.jsx:53-61 | Enter without Shift sends to the selected user; any other key changes nothing; the key handler does not test `isLoading` |
| Chat.ChatPage.HandleUserSelect | client/src/components/ChatPage.jsx:63-69 | the user becomes the selection and the view becomes "chat" |
| Chat.ChatPage.HandleBackToUserList | client/src/components/ChatPage.jsx:71-73 | the view becomes "userList"; the selection is kept |
| Suggested.UsersToDisplay | client/src/components/SuggestedUsers.jsx:79 | a prefix of the list: all of it with showAll, at most five users otherwise |
| Suggested.SeeAllIffUsersHidden | client/src/components/SuggestedUsers.jsx:89 | "See All" appears exactly when the collapsed list hides someone |
| Suggested.Panel | client/src/components/SuggestedUsers.jsx:75-79 | nothing is rendered iff the list is missing or empty |
| Suggested.SuggestedUsersPanel.BeginFollow | client/src/components/SuggestedUsers.jsx:20-32 | a click while the user's request is in flight is ignored; otherwise the prior state is the override if set, else membership in `following`; the override flips and the loading flag goes up |
| Suggested.SuggestedUsersPanel.FinishFollow | client/src/components/SuggestedUsers.jsx:40-70 | on success `following` drops every occurrence of the target or gains it at the end; otherwise the override goes back to the prior state; the loading flag goes down in every case |
| Suggested.SuggestedUsersPanel.FollowUnfollowHandler | client/src/components/SuggestedUsers.jsx:20-73 | the whole click: the shown state flips on success and is restored otherwise; the loading flag ends down; overrides that agreed with `following` still agree |
| Suggested.SuggestedUsersPanel.ToggleShowAll | client/src/components/SuggestedUsers.jsx:89-101 | "See All" and "Show Less" set `showAll` and touch nothing else |
| PostCard.FeedAfterLike | client/src/components/Post.jsx:53-60 | the feed maps each post through the like update, keeping length and order |
| PostCard.FeedAfterLikeChangesOnlyThePost | client/src/components/Post.jsx:53-60 | only posts with the clicked id change, and only their likes; afterwards the user is among them iff the click was a like |
| PostCard.LikeThenDislikeRestoresFeed | client/src/components/Post.jsx:53-60 | a like followed by a dislike restores the feed when the user had not liked the post |
| PostCard.FeedWithComments | client/src/components/Post.jsx:94-96 | only posts with the commented id take the new comment list |
| PostCard.FeedWithout | client/src/components/Post.jsx:115 | exactly the posts with another id remain, every copy of each, and none with this id |
| PostCard.FeedWithoutIsSubsequence | client/src/components/Post.jsx:115 | the remaining posts keep their order |
| PostCard.IsAuthor | client/src/components/Post.jsx:144 | the viewer is the populated author; an unpopulated author is nobody's post |
| PostCard.PostCard.ChangeText | client/src/components/Post.jsx:32-35 | whitespace-only input is stored as ""; the box never holds blank text |
| PostCard.PostCard.BeginLike | client/src/components/Post.jsx:37-47 | ignored while a like is in flight; otherwise the heart flips, the counter moves by one, and the action is "dislike" iff the post was liked |
| PostCard.PostCard.FinishLike | client/src/components/Post.jsx:52-74 | on success the feed records the like; otherwise the heart is restored and the counter reset to the post's like count; the flag goes down |
| PostCard.PostCard.LikeOrDislikeHandler | client/src/components/Post.jsx:37-75 | the whole click, with the post kept in step with the feed |
| PostCard.PostCard.CommentHandler | client/src/components/Post.jsx:77-107 | sent only for non-blank text with no comment in flight; on success the comment goes to the end of the local list and of the matching posts, and the text is cleared |
| PostCard.PostCard.DeletePostHandler | client/src/components/Post.jsx:109-123 | on success exactly the posts with this id leave the feed; otherwise nothing changes |
| Profile.IsOwnProfile | client/src/components/Profile.jsx:28 | own profile iff the ids are equal, and also when neither user nor profile is loaded |
| Profile.IsFollowing | client/src/components/Profile.jsx:29 | following iff the viewer's id is in the profile's followers; false when anything is missing |
| Profile.FollowersCount | client/src/components/Profile.jsx:30 | the number of followers, or 0 when the list is missing |
| Profile.DisplayedPosts | client/src/components/Profile.jsx:82 | the "posts" tab shows posts; any other tab shows bookmarks |
| Profile.FollowKeepsEdgeAgreement | client/src/components/Profile.jsx:53-70 | rebuilding both lists from `isFollowing` keeps the two sides of the edge in agreement and flips the edge |
| Profile.ProfilePage.HandleTabChange | client/src/components/Profile.jsx:32-34 | the tab becomes the chosen one |
| Profile.ProfilePage.FollowUnfollowHandler | client/src/components/Profile.jsx:41-80 | a no-op while loading or on one's own profile; on success `following` and `followers` change together; the loading flag ends down; agreement of the two sides is preserved |
| CreatePostDialog.SubmitRefused | client/src/components/CreatePost.jsx:51 | refused iff the caption is blank and there is no preview |
| CreatePostDialog.ShareDisabled | client/src/components/CreatePost.jsx:206 | disabled iff loading, or the caption is blank with no preview; an enabled button never leads to a refused submit |
| CreatePostDialog.CreatePost.ChangeCaption | client/src/components/CreatePost.jsx:127 | the caption is what was typed |
| CreatePostDialog.CreatePost.FileChangeHandler | client/src/components/CreatePost.jsx:26-37 | for every choice: the file is taken iff one was chosen and its size is at most 5*1024*1024 bytes (the limit is inclusive); a refused or missing file leaves file and preview unchanged; an accepted one replaces both |
| CreatePostDialog.CreatePost.RemoveImage | client/src/components/CreatePost.jsx:39-45 | file and preview are both cleared |
| CreatePostDialog.CreatePost.HandleClose | client/src/components/CreatePost.jsx:81-86 | the dialog closes with caption, preview and file reset |
| CreatePostDialog.CreatePost.CreatePostHandler | client/src/components/CreatePost.jsx:47-79 | a refused submit makes no request and changes nothing; otherwise the form carries the image only when a preview exists; on success the post goes to the front of the feed and the dialog closes; loading ends false |
| AuthSlice.Reduce | client/src/redux/authSlice.js:14-28 | each action assigns its own field from the payload and keeps the other four |
| AuthSlice.ReduceIsIdempotent | client/src/redux/authSlice.js:14-28 | dispatching a setter twice with the same payload equals dispatching it once |
| AuthSlice.LastWriteWins | client/src/redux/authSlice.js:14-28 | of two writes to one field, the later wins |
| AuthSlice.SettersOfDifferentFieldsCommute | client/src/redux/authSlice.js:14-28 | writes to different fields commute |
| AuthSlice.AuthStore.constructor | client/src/redux/authSlice.js:5-11 | the initial state: no user, profile or selection; both lists empty |
| AuthSlice.AuthStore.SetAuthUserReducer | client/src/redux/authSlice.js:14-16 | replaces only `user` |
| AuthSlice.AuthStore.SetSuggestedUsersReducer | client/src/redux/authSlice.js:17-19 | replaces only `suggestedUsers` |
| AuthSlice.AuthStore.SetUserProfileReducer | client/src/redux/authSlice.js:20-22 | replaces only `userProfile` |
| AuthSlice.AuthStore.SetSelectedUserReducer | client/src/redux/authSlice.js:23-25 | replaces only `selectedUser` |
| AuthSlice.AuthStore.SetSearchResultsReducer | client/src/redux/authSlice.js:26-28 | replaces only `searchResults` |
| AuthSlice.AuthStore.Dispatch | client/src/redux/authSlice.js:12-29 | routes each action to its reducer; the new state is `Reduce` of the old |

## Left out

- Field names. The source disagrees with itself in three places. The model uses the intended field each time:
  - `sendMessage` looks up conversations by `participant` but creates them with `participants`;
  - it pushes to `conversation.message` while `getMessage` reads `conversation.messages`;
  - `deletePost` deletes comments filtered on `posts`, but comments are created with `post`.
- Mongoose query behaviour under those misspelt names is not modelled: what a filter on an unknown field matches, and whether a push to an undeclared path is saved.
- The "User ID is required" and "Target user ID is required" guards of `followOrUnfollow`, and the id checks the router performs, are unreachable. Ids are always present in this model.
- bcrypt and jsonwebtoken are foreign code. `Register` takes `hash` as a parameter. `Login` takes `matches` and `sign` as parameters; `sign` receives the user id and the lifetime in days, and what the token encodes is up to it. Token verification in the authentication middleware is not part of this model.
- Image handling is external I/O: sharp resizing, the Cloudinary upload and data URIs.
  - `AddNewPost` and `EditProfile` receive the hosted URL, or `None` when no file came.
  - On the client, reading a file as a data URL is the `dataUrl` parameter.
- `populate`, `select("-password")` and the login's `populatePosts` are not modelled. The last one reads `user.post` and an undeclared `Post`. The model assumes the user schema's field is `posts` (the one the controllers push to), so `user.post` is undefined and `populatePosts` is `[]`.
  - Replies carry ids where the source populates documents.
  - The login reply omits the empty `post` list.
- Every 500 path is left out, because the model's store operations do not fail. This includes the `post.remove()` call, which newer Mongoose versions no longer provide.
- Chat.ChatPage.HandleKeyPress: the message input's `disabled={isLoading}` is rendering and is not modelled. Each send completes before the next event, so `isLoading` is false whenever a key arrives.
- Concurrency is not modelled. Each request is one sequential step; the `Promise.all` double save and racing first sends are out.
  - On the client, a handler runs to completion before the next event.
  - Closures over stale state are not modelled.
- Real-time delivery (socket.io, `useGetRTM`, `useGetAllMessage`) is not part of this model.
- The client and the server are modelled separately. URLs, HTTP verbs, field names in request bodies and reply shapes are transport wiring and are not checked against each other. The two sides disagree in these places:
  - the comment route is GET while the client POSTs;
  - delete is a POST route while the client sends DELETE;
  - bookmark is a POST route while the client GETs;
  - the client calls `/dislike`, which no route defines;
  - the client sends `text` where the server reads `comment`;
  - the chat sends `textMessage` where the server reads `message`;
  - the create dialog lets a caption-only post through, which the server refuses for lack of an image.
- `formatTime` depends on the locale (`toLocaleTimeString`). Toasts, animation, routing, scrolling and layout are rendering. None of them is modelled.
- Login, Signup, EditProfile and CommentDialog are form plumbing. Their checks repeat rules modelled here: required fields, the 5 MB limit, whitespace-only text stored as "".
- The bookmark button of a post card is not modelled. The server's `BookmarkPost` is.
- Lower: `toLowerCase` is modelled on the ASCII letters only. Other characters are kept as they are.
- SortNewestFirst: posts with equal `createdAt` are kept in natural order. MongoDB does not promise any order among ties.
- Post timestamps and message times are integers given by the caller (`now`, `createdAt`). No clock is modelled.
- A missing `username` on a suggested user is not modelled. The server's records always carry one; the chat filter would throw on it.
- PostCard.PostCard: `user.id` is read unguarded by the handlers, so the viewer is always logged in. A null user is not modelled.
