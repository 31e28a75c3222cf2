/** The post endpoints: the request each API function sends, proved to reach the operation it
    is named after. */
module PostApi {
  import opened Common
  import opened Strings
  import opened Http

  /** `getFeedPosts`: the server answers it with the feed. */
  function FeedRequest(): (r: Request)
    ensures RouteOf(r) == Some(FeedPosts)
  {
    RouteTwo(GET, "users", "feed", NoBody, "/users/feed", FeedPosts);
    Request(GET, "/users/feed", NoBody)
  }

  /** `createPost`: POST /posts with a form; the server creates a post from it. */
  function CreatePostRequest(form: seq<Field>): (r: Request)
    ensures r.body == Multipart(form)
    ensures RouteOf(r) == Some(CreatePost)
  {
    RouteOne(POST, "posts", Multipart(form), "/posts", CreatePost);
    Request(POST, "/posts", Multipart(form))
  }

  /** `likePost`: PUT /posts/like/:postId. For an id that is one path segment, the server
      toggles the like on that post. */
  function LikeRequest(postId: string): (r: Request)
    ensures Segment(postId) ==> RouteOf(r) == Some(LikePost(postId))
  {
    var r := Request(PUT, "/posts/like/" + postId, NoBody);
    if Segment(postId) then
      RouteThree(PUT, "posts", "like", postId, NoBody, r.path, LikePost(postId));
      r
    else r
  }

  /** `addComment`: POST /posts/comment/:postId with body `{ text }`; the server adds a comment
      with that text to that post. */
  function AddCommentRequest(postId: string, text: string): (r: Request)
    ensures Segment(postId) ==> RouteOf(r) == Some(AddComment(postId, text))
  {
    var r := Request(POST, "/posts/comment/" + postId, CommentBody(text));
    if Segment(postId) then
      RouteThree(POST, "posts", "comment", postId, r.body, r.path, AddComment(postId, text));
      r
    else r
  }

  /** `getUserPosts`: GET /posts/user/:userId; the server answers with that user's posts. */
  function UserPostsRequest(userId: string): (r: Request)
    ensures Segment(userId) ==> RouteOf(r) == Some(UserPosts(userId))
  {
    var r := Request(GET, "/posts/user/" + userId, NoBody);
    if Segment(userId) then
      RouteThree(GET, "posts", "user", userId, NoBody, r.path, UserPosts(userId));
      r
    else r
  }

  /** `deletePost`: DELETE /posts/:postId; the server deletes that post. */
  function DeletePostRequest(postId: string): (r: Request)
    ensures Segment(postId) ==> RouteOf(r) == Some(DeletePost(postId))
  {
    var r := Request(DELETE, "/posts/" + postId, NoBody);
    if Segment(postId) then
      RouteTwo(DELETE, "posts", postId, NoBody, r.path, DeletePost(postId));
      r
    else r
  }

  /** `deleteComment`: DELETE /posts/comment/:postId/:commentId; the server deletes that
      comment of that post. */
  function DeleteCommentRequest(postId: string, commentId: string): (r: Request)
    ensures Segment(postId) && Segment(commentId) ==> RouteOf(r) == Some(DeleteComment(postId, commentId))
  {
    var r := Request(DELETE, "/posts/comment/" + postId + "/" + commentId, NoBody);
    if Segment(postId) && Segment(commentId) then RoutesDeleteComment(postId, commentId); r else r
  }

  lemma RoutesDeleteComment(postId: string, commentId: string)
    requires Segment(postId) && Segment(commentId)
    ensures RouteOf(Request(DELETE, "/posts/comment/" + postId + "/" + commentId, NoBody)) == Some(DeleteComment(postId, commentId))
  {
    RouteFour(DELETE, "posts", "comment", postId, commentId, NoBody,
      "/posts/comment/" + postId + "/" + commentId, DeleteComment(postId, commentId));
  }

  /** The order in which post bodies append their fields. */
  const PostFieldOrder: seq<string> := ["content", "image", "removeImage"]

  /** The multipart body of `editPost`, built one append at a time: `content` whenever it is
      not `undefined` (even when empty), `image` when a file is given, `removeImage` as the
      text "true" when set. The server reads back exactly `data`. */
  method EditPostForm(data: PostEdit) returns (form: seq<Field>)
    ensures FollowsOrder(form, PostFieldOrder)
    ensures ReadPostEdit(form) == data
  {
    ghost var f1 := Field("content", Text(if data.content.Some? then data.content.value else ""));
    ghost var f2 := Field("image", Blob(if data.image.Some? then data.image.value else Entities.FileRef("", 0)));
    ghost var f3 := Field("removeImage", Text("true"));
    form := [];
    if data.content.Some? {
      form := form + [Field("content", Text(data.content.value))];
    }
    assert form == Optional(data.content.Some?, f1);
    if data.image.Some? {
      form := form + [Field("image", Blob(data.image.value))];
    }
    assert form == Optional(data.content.Some?, f1) + Optional(data.image.Some?, f2);
    if data.removeImage {
      form := form + [Field("removeImage", Text("true"))];
    }
    assert form == Optional(data.content.Some?, f1) + Optional(data.image.Some?, f2) + Optional(data.removeImage, f3);
    ThreeFieldsRead(data.content.Some?, f1, data.image.Some?, f2, data.removeImage, f3);
    ThreeFieldsOrder(data.content.Some?, f1, data.image.Some?, f2, data.removeImage, f3);
  }

  /** `editPost`: PUT /posts/:postId with that body. */
  method EditPostRequest(postId: string, data: PostEdit) returns (r: Request)
    ensures r.body.Multipart? && FollowsOrder(r.body.fields, PostFieldOrder)
    ensures Segment(postId) ==> RouteOf(r) == Some(EditPost(postId, data))
  {
    var form := EditPostForm(data);
    r := Request(PUT, "/posts/" + postId, Multipart(form));
    if Segment(postId) {
      RoutesEditPost(postId, form);
    }
  }

  lemma RoutesEditPost(postId: string, form: seq<Field>)
    requires Segment(postId)
    ensures RouteOf(Request(PUT, "/posts/" + postId, Multipart(form))) == Some(EditPost(postId, ReadPostEdit(form)))
  {
    RouteTwo(PUT, "posts", postId, Multipart(form), "/posts/" + postId, EditPost(postId, ReadPostEdit(form)));
  }
}
