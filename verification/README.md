# vibely-frontend: the real-time reconciliation layer, in Dafny

The vibely client keeps a local view of a social feed while two sources change it at once:
pull requests (load the feed, like, comment, edit, delete) and push events from the socket
(`new_post`, `post_updated`, `post_deleted`, `notification`). This project models the parts
of the client that decide what that local view becomes:

- the **session binding** in `SocketContext.jsx`: connect once, join the signed-in user's room
  once per id, tear down on logout, and deduplicate and prepend incoming notifications;
- the **feed reconciler** in `Feed.jsx`: an id-keyed list of posts with three event rules
  (insert a fresh post first, replace in place, filter out), the same replace rule for action
  results, and a delete that waits for the server;
- the **profile reconciler** in `Profile.jsx`: the same rules behind an author filter, plus the
  optimistic follow toggle, `isFollowing`, `isOwnProfile` and the mounted-guarded initial load;
- the **forms** that feed them: the comment box (permission rule and submit handler), the
  post editor, the post composer and the profile editor;
- the **request builders** in `post.api.js` and `user.api.js`, proved against a model of how
  the server routes a request and reads its multipart body;
- the **avatar initials** and the **socket URL** derivation.

Module layout, one per source file where the source has one:

| module | file | models |
|---|---|---|
| `Common` | common.dfy | `Option`, remote-call outcomes, JavaScript truthiness, `err?.response?.data?.message \|\| fallback` |
| `Strings` | strings.dfy | `trim`, `split`/`join` on one character, ASCII `toLowerCase`/`toUpperCase` |
| `Entities` | entities.dfy | posts, comments, user references, notifications, profiles, picked files |
| `Reconcile` | reconcile.dfy | the three list updaters shared by both post views |
| `FeedPage` | feed.dfy | `Feed.jsx` as a class over its `posts`, `loading` and `editingPost` state |
| `ProfilePage` | profile.dfy | `Profile.jsx`: scoped updaters, follow toggle, and a class over the page state |
| `SocketContext` | socket_context.dfy | the session binding as a class, with the socket calls it issues |
| `SocketUrl` | socket_url.dfy | `socket.js`, and the default base URL of `axios.js` it should share |
| `Avatar` | avatar.dfy | `Avatar.jsx` initials |
| `Http` | http.dfy | multipart bodies and the server's routing: the reference for the API modules |
| `PostApi`, `UserApi` | post_api.dfy, user_api.dfy | `post.api.js`, `user.api.js` |
| `CommentBox`, `PostEditor`, `PostComposer`, `ProfileEditor` | comment_box.dfy, post_editor.dfy, post_composer.dfy, profile_editor.dfy | `CommentBox.jsx`, `EditPost.jsx`, `CreatePost.jsx`, `EditProfile.jsx` |

Each React handler is one atomic step on a class whose fields are the component's state. The
remote call it awaits becomes a parameter: a `Reply` (value or server error) or an `Outcome`
(succeeded or failed). How the handler ends is a `HandlerResult`: it completes normally, raises
a browser alert with a given text, or lets the rejection escape to its caller. A missing `_id`
is `None`, and `===` on ids is equality of options, so two missing ids are equal, as they are
in JavaScript.

Four behaviours of the code that differ from what a reader might expect, modelled as written:

- A direct switch from user X to user Y joins Y's room on the same connection with no
  disconnect in between (`SocketContext.DirectSwitchCalls`). There is no sign-out step X → none → Y.
- A socket that socket.io reconnects by itself is not joined to the room again: the effect
  that emits `join` runs only when `user?._id` changes. The model has no reconnect step at all
  (`SocketContext.SessionBinding.Valid` ties an active user to a connected socket).
- Notifications without an `_id` get no fallback key. They all compare equal, so only the first
  is kept (`SocketContext.MissingIdsCollide`).
- Push events are not dropped while a snapshot is loading. They apply to whatever list is
  there, and the snapshot then replaces that list (`FeedPage.FeedView.LoadFeed`).

## Model

| member | source | states |
|---|---|---|
| Common.MessageOr | src/components/profile/EditProfile.jsx:53 | the result is the server's message when it is a non-empty string and the fallback otherwise; with a non-empty fallback it is never empty |
| Strings.Trim | src/components/post/CommentBox.jsx:16 | the result is a slice of the input, starts and ends with a non-space character, and is empty exactly when the input is all white space |
| Strings.Split | src/components/ui/Avatar.jsx:13 | splitting gives at least one piece, and no piece holds the separator |
| Strings.ToLower | src/components/profile/EditProfile.jsx:99 | same length, each character lower-cased, and no ASCII capital left |
| Strings.ToUpper | src/components/ui/Avatar.jsx:17 | same length, each character upper-cased, and no ASCII small letter left |
| Reconcile.InsertNew | src/pages/Feed.jsx:45-48 | the list is unchanged, or it grows by exactly the new post at index 0 with the old list after it; it grows iff the id is truthy and not yet listed; a truthy id is listed afterwards |
| Reconcile.InsertNewIdempotent | src/pages/Feed.jsx:45-48 | delivering the same `new_post` twice equals delivering it once |
| Reconcile.InsertNewKeepsUnique | src/pages/Feed.jsx:44-48 | unique ids stay unique after a creation |
| Reconcile.ReplaceWhere | src/pages/Feed.jsx:51-55 | same length; every entry with the key becomes the new post, and every other entry keeps its place and value |
| Reconcile.ReplaceAbsentIsNoop | src/pages/Feed.jsx:51-55 | an update for an id not in the list changes nothing, so it never inserts |
| Reconcile.ReplaceKeepsUnique | src/pages/Feed.jsx:51-55 | an update whose post carries the matched id keeps every position's id, hence keeps ids unique |
| Reconcile.ReplaceIdempotent | src/pages/Feed.jsx:51-55 | applying the same update twice equals applying it once |
| Reconcile.RemoveWhere | src/pages/Feed.jsx:57-59 | a post stays iff it was listed and its id is not the key; the key is gone; the list never grows |
| Reconcile.RemoveAbsentIsNoop | src/pages/Feed.jsx:57-59 | deleting an id that is not listed changes nothing |
| Reconcile.RemoveDistributes | src/pages/Feed.jsx:57-59 | filtering a concatenation filters each part, so the remaining entries keep their relative order |
| Reconcile.RemoveKeepsUnique | src/pages/Feed.jsx:57-59 | unique ids stay unique after a delete |
| Reconcile.RemoveExactlyOne | src/pages/Feed.jsx:57-59 | with unique ids, deleting a listed id removes exactly one entry |
| Reconcile.CreateUpdateDeleteScenario | src/pages/Feed.jsx:44-59 | starting from [1, 2], creating 3, updating 1 and deleting 2 gives [3, 1'] |
| FeedPage.FeedView.constructor | src/pages/Feed.jsx:18-20 | the page starts with no posts, loading, and no editor open |
| FeedPage.FeedView.LoadFeed | src/pages/Feed.jsx:25-32 | a fetched snapshot replaces the whole list; a failed fetch keeps it and escapes; loading ends false either way |
| FeedPage.FeedView.OnNewPost | src/pages/Feed.jsx:44-49 | the list becomes `InsertNew` of the old list, and unique ids stay unique |
| FeedPage.FeedView.OnPostUpdated | src/pages/Feed.jsx:51-55 | the list becomes `ReplaceWhere` by the post's own id; an unlisted id changes nothing; unique ids stay unique |
| FeedPage.FeedView.OnPostDeleted | src/pages/Feed.jsx:57-59 | the list becomes `RemoveWhere` by `postId`; an unlisted id changes nothing; unique ids stay unique |
| FeedPage.FeedView.ApplyResult | src/pages/Feed.jsx:75-94 | on success only the acted-on entry is replaced by the returned post; on failure the list is unchanged and the rejection escapes |
| FeedPage.FeedView.Like | src/pages/Feed.jsx:75-82 | as `ApplyResult`, for a like |
| FeedPage.FeedView.Comment | src/pages/Feed.jsx:87-94 | as `ApplyResult`, for a new comment; a rejection reaches the comment box |
| FeedPage.FeedView.DeleteComment | src/pages/Feed.jsx:99-111 | on success the acted-on entry is replaced; on failure the list is unchanged and "Failed to delete comment" is alerted |
| FeedPage.FeedView.DeletePost | src/pages/Feed.jsx:116-124 | the entry is removed only after the server confirms; on failure the list is unchanged and "Failed to delete post" is alerted |
| FeedPage.FeedView.StartEdit | src/pages/Feed.jsx:129-131 | the editor opens on the given post |
| FeedPage.FeedView.CancelEdit | src/pages/Feed.jsx:179 | the editor closes |
| FeedPage.FeedView.SaveEdit | src/pages/Feed.jsx:133-146 | on success the entry with the edited post's id is replaced and the editor closes; on failure nothing changes and the server's message or "Failed to update post" is alerted |
| ProfilePage.IsOwnProfile | src/pages/Profile.jsx:24 | true iff a user is signed in and their `_id` is the route's id; never without a user |
| ProfilePage.IsFollowing | src/pages/Profile.jsx:27-29 | false without a profile; otherwise true iff removing the user's id from the followers would remove someone |
| ProfilePage.AuthorKey | src/pages/Profile.jsx:62 | a bare id string is its own key; a populated author gives its `_id` only when that is non-empty; no author gives no key |
| ProfilePage.InScope | src/pages/Profile.jsx:62-63 | a post is in scope only if it has an author; a bare id equal to the route id is in scope; a populated author with that `_id` is in scope iff the id is non-empty |
| ProfilePage.ScopedInsert | src/pages/Profile.jsx:61-68 | a post by another author leaves the list unchanged; an in-scope post goes through the feed's creation rule |
| ProfilePage.ScopedReplace | src/pages/Profile.jsx:70-76 | a post by another author leaves the list unchanged; an in-scope post goes through the feed's update rule |
| ProfilePage.ScopeFiltersOtherAuthors | src/pages/Profile.jsx:61-63 | a fresh post by another author is ignored by the profile but would be prepended by the feed |
| ProfilePage.ScopedRulesKeepScope | src/pages/Profile.jsx:61-80 | if every listed post is by the route's author, scoped creation, scoped update and the unscoped delete keep it so |
| ProfilePage.RemoveFollower | src/pages/Profile.jsx:110-112 | a follower stays iff it was listed and its id differs from the user's |
| ProfilePage.ToggleFollow | src/pages/Profile.jsx:100-115 | a null profile stays null; only `followers` changes; a follower loses every entry with the user's id, anyone else gains `{ _id }` at the end |
| ProfilePage.ToggleFlipsFollowing | src/pages/Profile.jsx:100-115 | the toggle flips `isFollowing` |
| ProfilePage.RemoveAbsentFollower | src/pages/Profile.jsx:110-112 | removing an id no follower has changes nothing |
| ProfilePage.RemoveFollowerAppend | src/pages/Profile.jsx:110-113 | filtering a list with a new last entry filters each part |
| ProfilePage.FollowThenUnfollowRestores | src/pages/Profile.jsx:100-115 | follow then unfollow, starting from not following, restores the profile |
| ProfilePage.ProfileView.constructor | src/pages/Profile.jsx:18-22 | the page starts with no profile, no posts, loading, and neither editor open |
| ProfilePage.ProfileView.BeginLoad | src/pages/Profile.jsx:45-47 | a new effect run is mounted and loading |
| ProfilePage.ProfileView.ProfileFetched | src/pages/Profile.jsx:32-35 | the fetched profile is shown, mounted or not |
| ProfilePage.ProfileView.PostsFetched | src/pages/Profile.jsx:38-41 | the fetched posts replace the list, mounted or not |
| ProfilePage.ProfileView.LoadSettled | src/pages/Profile.jsx:48-50 | only while mounted: a rejection resets the profile to null, and loading ends |
| ProfilePage.ProfileView.Unmount | src/pages/Profile.jsx:52-54 | the effect run is no longer mounted |
| ProfilePage.ProfileView.InitialLoad | src/pages/Profile.jsx:44-55 | a profile is shown only if both requests succeed; fetched posts are kept even if the profile failed; loading ends |
| ProfilePage.ProfileView.OnNewPost | src/pages/Profile.jsx:59-68 | without a route id nothing changes; otherwise the list becomes `ScopedInsert` |
| ProfilePage.ProfileView.OnPostUpdated | src/pages/Profile.jsx:58-76 | without a route id nothing changes; otherwise the list becomes `ScopedReplace` |
| ProfilePage.ProfileView.OnPostDeleted | src/pages/Profile.jsx:78-80 | without a route id nothing changes; otherwise `RemoveWhere`, not filtered by author |
| ProfilePage.ProfileView.Follow | src/pages/Profile.jsx:94-116 | without a user nothing happens; a failed follow changes nothing and escapes; a success applies `ToggleFollow` |
| ProfilePage.ProfileView.ApplyResult | src/pages/Profile.jsx:119-142 | on success only the acted-on entry is replaced; on failure the list is unchanged and the rejection escapes |
| ProfilePage.ProfileView.DeleteComment | src/pages/Profile.jsx:145-157 | on success the acted-on entry is replaced; on failure "Failed to delete comment" is alerted |
| ProfilePage.ProfileView.DeletePost | src/pages/Profile.jsx:160-168 | the entry is removed only on success; on failure "Failed to delete post" is alerted |
| ProfilePage.ProfileView.StartEdit | src/pages/Profile.jsx:171-173 | the editor opens on the given post |
| ProfilePage.ProfileView.CancelEdit | src/pages/Profile.jsx:258 | the editor closes |
| ProfilePage.ProfileView.SaveEdit | src/pages/Profile.jsx:175-188 | the feed's save rule: replace by the edited id and close, or alert the message or "Failed to update post" |
| ProfilePage.ProfileView.SaveProfile | src/pages/Profile.jsx:191-205 | on success the returned profile is shown, the editor closes, and on one's own profile it is handed to the authentication context; a failure changes nothing and escapes |
| ProfilePage.ProfileView.SetEditingProfile | src/pages/Profile.jsx:22 | the profile editor opens or closes |
| SocketContext.Ingest | src/context/SocketContext.jsx:48-54 | the list is unchanged, or the notification is at index 0 with the old list after it; it grows iff its `_id` is not yet listed; afterwards the id is listed |
| SocketContext.RedeliveryKeepsFirst | src/context/SocketContext.jsx:50-52 | a later notification with an earlier one's id is dropped, and the first stays where it was |
| SocketContext.MissingIdsCollide | src/context/SocketContext.jsx:50 | two notifications that both lack `_id` compare equal, so the second is dropped |
| SocketContext.IngestKeepsUnique | src/context/SocketContext.jsx:48-54 | unique notification ids stay unique |
| SocketContext.SessionBinding.constructor | src/context/SocketContext.jsx:15-16 | the binding starts disconnected, with no active user, no notifications and no socket calls |
| SocketContext.SessionBinding.OnUserChange | src/context/SocketContext.jsx:18-42 | keeps the binding valid: calls are well bracketed and `connected` is what they leave. A falsy id disconnects only a connected socket and clears the active user and the notifications. The same id does nothing. A new id connects only if disconnected, joins its room once, and becomes active |
| SocketContext.SessionBinding.HandleNotification | src/context/SocketContext.jsx:45-57 | while a user is signed in the list becomes `Ingest` of the old list; otherwise nothing changes |
| SocketContext.SessionBinding.ClearNotifications | src/context/SocketContext.jsx:64-66 | the list becomes empty |
| SocketContext.DirectSwitchCalls | src/context/SocketContext.jsx:32-39 | signing in as X then directly as Y issues connect, join X, join Y, and no disconnect |
| SocketContext.SignOutAndBackCalls | src/context/SocketContext.jsx:20-39 | sign in, re-run, sign out, sign in issues connect, join, disconnect, connect, join, and leaves no notifications |
| SocketUrl.ApiUrl | src/socket/socket.js:4 | the variable when non-empty, else "http://localhost:5000/api" |
| SocketUrl.StripApiSuffix | src/socket/socket.js:5 | the result is a prefix of the URL; a trailing "/api/" or "/api" is removed exactly; anything else is unchanged |
| SocketUrl.SocketUrl | src/socket/socket.js:5 | never empty; a non-empty socket variable is used verbatim |
| SocketUrl.StripUndoesSuffix | src/socket/socket.js:5 | stripping undoes appending "/api" or "/api/" to any base |
| SocketUrl.StripsOnce | src/socket/socket.js:5 | only one suffix is cut: "/api/api" keeps its first "/api" |
| SocketUrl.HttpBaseUrl | src/api/axios.js:4 | the variable when non-empty, else the hosted API URL; it agrees with the socket's reading of the API URL exactly when the variable is set |
| SocketUrl.DefaultOriginsDiffer | src/socket/socket.js:3-5 | without variables the socket's origin plus "/api" is not the HTTP base URL, and not the base URL's origin either; with an API variable "origin/api" the two agree |
| SocketUrl.SameOriginSocketUrl | src/socket/socket.js:5 | never empty; a non-empty socket variable is used verbatim |
| SocketUrl.SocketSharesApiOrigin | src/socket/socket.js:3-5 | without a socket variable, the corrected URL followed by the "/api" or "/api/" that was stripped gives the HTTP base URL back, defaults included |
| SocketUrl.SocketUrlCases | src/socket/socket.js:4-5 | no variables give "http://localhost:5000"; an origin plus "/api" or "/api/" gives the origin; "/api" or "/api/" alone falls back to "http://localhost:5000"; a URL without the suffix is used as is |
| Avatar.Initials | src/components/ui/Avatar.jsx:12-17 | at most two characters, none a space or an ASCII small letter |
| Avatar.FirstCharsNoSpace | src/components/ui/Avatar.jsx:13-15 | the first characters of space-free words hold no space |
| Avatar.FirstCharsAreWordStarts | src/components/ui/Avatar.jsx:13-15 | splitting on spaces and taking first characters reads off the word starts; empty words contribute nothing |
| Avatar.InitialsAreWordStarts | src/components/ui/Avatar.jsx:12-17 | the initials are the first two word starts, upper-cased |
| Avatar.EmptyNameHasNoInitials | src/components/ui/Avatar.jsx:3-17 | the default empty name gives "" |
| Avatar.LeadingSpaceIgnored | src/components/ui/Avatar.jsx:13-15 | a leading space does not change the initials |
| Http.ThreeFieldsRead | src/api/post.api.js:45-54 | in a body built from three optional appends under distinct names, each name reads back its value exactly when its step appended |
| Http.ThreeFieldsOrder | src/api/post.api.js:45-54 | such a body follows the order of the three steps |
| PostApi.FeedRequest | src/api/post.api.js:3-6 | the request routes to the feed |
| PostApi.CreatePostRequest | src/api/post.api.js:8-11 | the request carries the form as its body and routes to post creation |
| PostApi.LikeRequest | src/api/post.api.js:13-16 | the request routes to liking that id, when each id is a single path segment |
| PostApi.AddCommentRequest | src/api/post.api.js:19-24 | the request routes to commenting that text on that id, when each id is a single path segment |
| PostApi.UserPostsRequest | src/api/post.api.js:26-29 | the request routes to that user's posts, when each id is a single path segment |
| PostApi.DeletePostRequest | src/api/post.api.js:32-35 | the request routes to deleting that post, when each id is a single path segment |
| PostApi.DeleteCommentRequest | src/api/post.api.js:38-41 | the request routes to deleting that comment of that post, when each id is a single path segment |
| PostApi.EditPostForm | src/api/post.api.js:45-54 | fields follow the order content, image, removeImage, and the server reads back exactly the payload: content iff defined (even empty), the image iff given, removeImage as "true" iff set |
| PostApi.EditPostRequest | src/api/post.api.js:44-61 | PUT "/posts/" + id with that body routes to editing that post with exactly the payload |
| UserApi.FollowRequest | src/api/user.api.js:3-6 | the request routes to following that id, when each id is a single path segment |
| UserApi.UpdateProfileForm | src/api/user.api.js:15-24 | fields follow the order username, bio, profilePic, and the server reads back exactly the payload: username and bio iff defined, the picture iff given |
| UserApi.UpdateProfileRequest | src/api/user.api.js:14-31 | PUT /users/profile with that body routes to updating the profile with exactly the payload |
| UserApi.SearchRequest | src/api/user.api.js:8-11 | the query is pasted unencoded, so for a query without "#" the server searches for the decoded text before the first "&" |
| UserApi.SearchAmpersandTruncates | src/api/user.api.js:9 | a search for "a&b" reaches the server as a search for "a" |
| UserApi.SearchPlusBecomesSpace | src/api/user.api.js:9 | a search for "a+b" reaches the server as a search for "a b" |
| UserApi.EscapeChar | src/api/user.api.js:9 | a character stands for itself iff it is not one of "%", "&", "#", "+"; no escape holds "&", "#" or "+" |
| UserApi.EncodeQuery | src/api/user.api.js:9 | the encoded query holds no "&", "#" or "+" |
| UserApi.DecodeEncode | src/api/user.api.js:9 | decoding undoes the encoding |
| UserApi.SearchRequestEncoded | src/api/user.api.js:8-11 | with the query encoded, the server searches for exactly the query |
| CommentBox.CanDelete | src/components/post/CommentBox.jsx:39-41 | true iff a user is signed in and either owns the comment through a populated author document or owns the post |
| CommentBox.BareAuthorOnlyThroughPost | src/components/post/CommentBox.jsx:39 | a comment whose author is not a document is deletable exactly when the post is the user's |
| CommentBox.PostOwnerDeletesAll | src/components/post/CommentBox.jsx:40-41 | the post's author may delete every comment under it |
| CommentBox.MissingIdsGrantDeletion | src/components/post/CommentBox.jsx:40 | a user without `_id` may delete the comments of a post whose author is a bare id string, since two missing ids are equal |
| CommentBox.SubmitBlocked | src/components/post/CommentBox.jsx:16 | the guard blocks exactly all-white-space text, an in-flight submission, or no user |
| CommentBox.CommentForm.constructor | src/components/post/CommentBox.jsx:8-10 | the form starts empty, idle and without error |
| CommentBox.CommentForm.Edit | src/components/post/CommentBox.jsx:80 | typing replaces the draft |
| CommentBox.CommentForm.Submit | src/components/post/CommentBox.jsx:13-30 | a blocked submit changes nothing. Otherwise the untrimmed text is sent with the post id and `submitting` ends false. Success clears the text and the error; failure keeps the text and shows the server's message or "Failed to send comment. Try again." |
| PostEditor.EditPayload | src/components/post/EditPost.jsx:45-54 | content is always the trimmed content; removeImage iff the post had an image and no preview shows, and then no image; otherwise the chosen file as is |
| PostEditor.SaveDisabled | src/components/post/EditPost.jsx:132 | save is disabled exactly while loading, or when the content is all white space and no preview shows |
| PostEditor.SaveNeedsContentOrImage | src/components/post/EditPost.jsx:132 | with blank content, save is disabled exactly when no image shows |
| PostEditor.RemovedImageIsRequested | src/components/post/EditPost.jsx:31-51 | after removing the image, the payload asks for removal iff the post had an image, and sends no file |
| PostEditor.UntouchedImageKept | src/components/post/EditPost.jsx:45-54 | an untouched image is neither sent again nor removed |
| PostEditor.NewImageSent | src/components/post/EditPost.jsx:18-53 | a newly chosen file is sent and nothing is removed |
| PostEditor.EditForm.constructor | src/components/post/EditPost.jsx:5-8 | the editor starts with the post's content, no file, the post's image as preview, not loading |
| PostEditor.EditForm.ChooseImage | src/components/post/EditPost.jsx:18-29 | no file changes nothing; a file replaces the image and its object URL the preview |
| PostEditor.EditForm.RemoveImage | src/components/post/EditPost.jsx:31-37 | both the file and the preview are cleared |
| PostEditor.EditForm.Submit | src/components/post/EditPost.jsx:39-62 | ignored while loading; otherwise hands `EditPayload` of the current state to `onSave` and loading ends false |
| PostComposer.PostBlocked | src/components/post/CreatePost.jsx:50-51 | the guard blocks exactly while loading, or when the content is all white space and no image is chosen |
| PostComposer.NewPostForm | src/components/post/CreatePost.jsx:56-62 | fields in the order content, image; the server reads back the trimmed content iff non-empty and the image iff chosen; the form is empty exactly when the guard would block |
| PostComposer.Composer.constructor | src/components/post/CreatePost.jsx:6-9 | the composer starts empty and idle |
| PostComposer.Composer.Edit | src/components/post/CreatePost.jsx:92 | typing replaces the draft |
| PostComposer.Composer.ChooseImage | src/components/post/CreatePost.jsx:14-24 | no file changes nothing; a file replaces the image and its object URL the preview |
| PostComposer.Composer.RemoveImage | src/components/post/CreatePost.jsx:29-33 | both the file and the preview are cleared |
| PostComposer.Composer.Submit | src/components/post/CreatePost.jsx:47-82 | sends nothing exactly when the Post button is disabled. Otherwise it sends POST /posts (the request `createPost` builds) with a body the server reads as the trimmed content (when not empty) and the image. Creation clears the draft even if the refresh fails; any failure alerts "Failed to create post. Please try again."; loading ends false |
| ProfileEditor.TypedUsernameSavedLowercase | src/components/profile/EditProfile.jsx:44-101 | a typed username reaches `onSave` without ASCII capitals |
| ProfileEditor.LowercaseKeepsBlank | src/components/profile/EditProfile.jsx:38-41 | lower-casing keeps a blank username blank and a non-blank one non-blank |
| ProfileEditor.EditForm.constructor | src/components/profile/EditProfile.jsx:6-11 | the editor starts with the profile's username and bio (or ""), no file, the profile's picture as preview, idle, no error |
| ProfileEditor.EditForm.ChangeUsername | src/components/profile/EditProfile.jsx:98-101 | the username becomes the lower-cased input with no ASCII capital, and the error clears |
| ProfileEditor.EditForm.ChangeBio | src/components/profile/EditProfile.jsx:121 | typing replaces the bio |
| ProfileEditor.EditForm.ChooseImage | src/components/profile/EditProfile.jsx:21-32 | no file changes nothing; a file replaces the picture and its object URL the preview |
| ProfileEditor.SaveDisabled | src/components/profile/EditProfile.jsx:150 | save is disabled exactly while loading or when the username is all white space |
| ProfileEditor.EditForm.Submit | src/components/profile/EditProfile.jsx:34-58 | saves nothing exactly when the save button is disabled. While loading, nothing changes; a blank username shows "Username is required". Otherwise it sends the trimmed username, the trimmed bio and the file unchanged, shows the server's message or "Failed to update profile" on failure, and loading ends false |

## Left out

- The socket.io transport and axios: `socket.connected` is the `connected` field, the socket's
  calls are recorded in `calls`, and every remote call is a parameter. The connect handshake is
  taken to complete at once. `SocketContext.SessionBinding.Valid` requires the socket to be
  connected while a user is active, so a drop and a socket.io auto-reconnect cannot be
  represented; the source would not emit `join` again after one.
- React scheduling: each handler is one atomic step on the current state, so effect timing,
  `useEffect` cleanups and races between handlers are not modelled. `ProfileView.routeId` is
  fixed for the page's life: when the route changes on a mounted page the effect runs again,
  and the old run's unguarded `setProfile`/`setPosts` can land on the new route. The model
  captures that only as separate `ProfileFetched`/`PostsFetched` steps on one route.
- FeedPage.FeedView.Like: the feed's `handleLike`, `handleComment`, `handleDeleteComment` and
  `handleSaveEdit` map over the `posts` captured when the handler was created, not the latest
  state, and `handleDeletePost` (`src/pages/Feed.jsx:118`) filters that captured list too. The
  model applies them to the current list, so an event that arrives while the call is pending
  is kept here but lost in the browser.
- FeedPage.FeedView.DeletePost: filters the current list, so a post that arrived while the
  delete was pending survives here; the browser's `posts.filter` would drop it.
- ProfilePage.ProfileView.InitialLoad: both fetches are taken to settle before `Promise.all`
  does. A fetch that resolves after a rejection has already settled it is modelled only by
  calling `ProfileFetched` or `PostsFetched` on its own.
- `null` payloads: the model has no `null` post or notification, so none of the following is
  represented. A `new_post` carrying `null` is ignored by both views (`!post?._id`, and on the
  profile an undefined author). A `post_updated` carrying `null` is ignored by the profile
  (undefined author) but makes the feed replace every listed post without `_id` by `null`. A
  `post_deleted` carrying `null` throws, because its handler destructures `{ postId }`. A
  `null` notification throws when the list is non-empty (`notification._id`) and is prepended
  when it is empty. A comment whose `user` is `null` and a post without `user` make the comment
  box read a property of `null` or `undefined` and throw; `CommentBox.CanDelete` takes the
  post's author as given.
- ProfilePage.IsFollowing: followers that are `null` in the profile's list (`f?._id`) and a
  profile without a `followers` array (`profile?.followers?.some`) are not represented; the
  followers are always a list of entries.
- Unicode case mapping: `toLowerCase` and `toUpperCase` change ASCII letters only.
- Avatar.Initials: a Dafny `char` is a Unicode scalar value, while JavaScript's `w[0]` and
  `slice(0, 2)` count UTF-16 code units. For a name whose first letter lies outside the Basic
  Multilingual Plane ("😀 Ann") the browser shows a lone high surrogate followed by "A", the
  model "😀A"; the bound of two characters counts scalars, not code units.
- Object URLs (`URL.createObjectURL`, `revokeObjectURL`) are parameters or left out. The URL
  passed to `ChooseImage` is unconstrained, while the browser never returns an empty one. A
  picked file is always truthy.
- Logging (`console.log`, `console.error`), the DOM event's `preventDefault`, presentation
  components, routing, authentication storage, the user-search debounce and the notification
  dropdown are not part of this model.
- Http: the server's routing and body parsing (`RouteOf`, `ReadPostEdit`, `ReadProfileEdit`)
  are a model of an Express-style router. They are the reference the request builders are
  checked against, not code of this client.
- Http.RouteOf: the server would also percent-decode `:id` path parameters, the browser resolves
  `.` and `..` path segments before sending, and the query parser turns a repeated `q=` into an
  array. The model's router does none of these, so the request-builder contracts speak of the
  raw segment: for an id holding `%` or equal to `.` or `..` the real route differs. Database
  ids hold neither.
- Http.Decode: a simplified percent decoding, not the server's query parser. Each `%XY`
  becomes the single character with code 0xXY and `+` becomes a space. It does no UTF-8
  decoding and has no fallback for a malformed escape, where the server's `decodeURIComponent`
  returns the raw text: "%C3%A9" is "é" on the server but "Ã©" here, and "%zz%41" stays
  "%zz%41" there but becomes "%zzA" here.

## Findings

| source | as written | input that shows it | evidently intended | confidence | as-written member | corrected member |
|---|---|---|---|---|---|---|
| src/socket/socket.js:4 | the socket's fallback API URL is "http://localhost:5000/api", while the HTTP client's (`src/api/axios.js:4`) is "https://vibely-backend-bwry.onrender.com/api" | with neither `VITE_API_URL` nor `VITE_SOCKET_URL` set, requests go to the hosted API but the socket connects to http://localhost:5000 | one shared default, so the socket reaches the API's origin, as the comment on `socket.js:3` says | medium, not executed | SocketUrl.DefaultOriginsDiffer | SocketUrl.SocketSharesApiOrigin |
| src/api/user.api.js:9 | the search text is pasted into the URL without encoding | searching "a&b" sends `?q=a&b`, which the server reads as `q=a`; "a+b" arrives as "a b"; "#" cuts off the rest | search for exactly what was typed (encode the value, e.g. `encodeURIComponent`) | high, not executed | UserApi.SearchAmpersandTruncates | UserApi.SearchRequestEncoded |
