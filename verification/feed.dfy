/** The global feed page: a snapshot of posts loaded once, kept current by the three socket
    events and by the results of the viewer's own actions. Each handler is one atomic step on
    the page state; the remote call it awaits is a parameter. */
module FeedPage {
  import opened Common
  import opened Entities
  import opened Reconcile

  class FeedView {
    var posts: seq<Post>
    var loading: bool
    var editingPost: Option<Post>

    constructor ()
      ensures posts == [] && loading && editingPost == None
    {
      posts, loading, editingPost := [], true, None;
    }

    /** `loadFeed`: the fetched snapshot replaces the list; `loading` is cleared whether the
        fetch succeeded or not, and a failure escapes to the caller. */
    method LoadFeed(fetched: Reply<seq<Post>>) returns (res: HandlerResult)
      modifies this`posts, this`loading
      ensures posts == (if fetched.Ok? then fetched.value else old(posts))
      ensures !loading
      ensures res == (if fetched.Ok? then Completed else Raised(fetched.err))
    {
      res := Completed;
      if fetched.Ok? {
        posts := fetched.value;
      } else {
        res := Raised(fetched.err);
      }
      loading := false;
    }

    /** The `new_post` socket event. */
    method OnNewPost(post: Post)
      modifies this`posts
      ensures posts == InsertNew(old(posts), post)
      ensures UniqueIds(old(posts)) ==> UniqueIds(posts)
    {
      if UniqueIds(posts) {
        InsertNewKeepsUnique(posts, post);
      }
      posts := InsertNew(posts, post);
    }

    /** The `post_updated` socket event: the incoming post replaces the entries with its id. */
    method OnPostUpdated(post: Post)
      modifies this`posts
      ensures posts == ReplaceWhere(old(posts), post.id, post)
      ensures !HasId(old(posts), post.id) ==> posts == old(posts)
      ensures UniqueIds(old(posts)) ==> UniqueIds(posts)
    {
      if !HasId(posts, post.id) {
        ReplaceAbsentIsNoop(posts, post.id, post);
      }
      if UniqueIds(posts) {
        ReplaceKeepsUnique(posts, post.id, post);
      }
      posts := ReplaceWhere(posts, post.id, post);
    }

    /** The `post_deleted` socket event, whose payload is `{ postId }`. */
    method OnPostDeleted(postId: Option<string>)
      modifies this`posts
      ensures posts == RemoveWhere(old(posts), postId)
      ensures !HasId(old(posts), postId) ==> posts == old(posts)
      ensures UniqueIds(old(posts)) ==> UniqueIds(posts)
    {
      if !HasId(posts, postId) {
        RemoveAbsentIsNoop(posts, postId);
      }
      if UniqueIds(posts) {
        RemoveKeepsUnique(posts, postId);
      }
      posts := RemoveWhere(posts, postId);
    }

    /** The shared shape of `handleLike` and `handleComment`: await the call, then replace the
        acted-on post with the returned one; a rejection is not caught. The key is the acted-on
        post's `_id`, which may be missing: then every id-less entry is replaced. */
    method ApplyResult(postId: Option<string>, updated: Reply<Post>) returns (res: HandlerResult)
      modifies this`posts
      ensures posts == (if updated.Ok? then ReplaceWhere(old(posts), postId, updated.value) else old(posts))
      ensures res == (if updated.Ok? then Completed else Raised(updated.err))
    {
      if updated.Ok? {
        posts := ReplaceWhere(posts, postId, updated.value);
        res := Completed;
      } else {
        res := Raised(updated.err);
      }
    }

    /** `handleLike`. */
    method Like(postId: Option<string>, updated: Reply<Post>) returns (res: HandlerResult)
      modifies this`posts
      ensures posts == (if updated.Ok? then ReplaceWhere(old(posts), postId, updated.value) else old(posts))
      ensures res == (if updated.Ok? then Completed else Raised(updated.err))
    {
      res := ApplyResult(postId, updated);
    }

    /** `handleComment`: its rejection reaches the comment box, which reports it. */
    method Comment(postId: Option<string>, text: string, updated: Reply<Post>) returns (res: HandlerResult)
      modifies this`posts
      ensures posts == (if updated.Ok? then ReplaceWhere(old(posts), postId, updated.value) else old(posts))
      ensures res == (if updated.Ok? then Completed else Raised(updated.err))
    {
      res := ApplyResult(postId, updated);
    }

    /** `handleDeleteComment`: a failure is caught and alerted. */
    method DeleteComment(postId: Option<string>, commentId: string, updated: Reply<Post>) returns (res: HandlerResult)
      modifies this`posts
      ensures posts == (if updated.Ok? then ReplaceWhere(old(posts), postId, updated.value) else old(posts))
      ensures res == (if updated.Ok? then Completed else Alerted("Failed to delete comment"))
    {
      if updated.Ok? {
        posts := ReplaceWhere(posts, postId, updated.value);
        res := Completed;
      } else {
        res := Alerted("Failed to delete comment");
      }
    }

    /** `handleDeletePost`: the entry goes only once the server confirmed the delete. */
    method DeletePost(postId: Option<string>, deleted: Outcome) returns (res: HandlerResult)
      modifies this`posts
      ensures posts == (if deleted.Succeeded? then RemoveWhere(old(posts), postId) else old(posts))
      ensures res == (if deleted.Succeeded? then Completed else Alerted("Failed to delete post"))
    {
      if deleted.Succeeded? {
        posts := RemoveWhere(posts, postId);
        res := Completed;
      } else {
        res := Alerted("Failed to delete post");
      }
    }

    /** `handleEditPost`: open the editor on a post. */
    method StartEdit(post: Post)
      modifies this`editingPost
      ensures editingPost == Some(post)
    {
      editingPost := Some(post);
    }

    /** The editor's cancel button. */
    method CancelEdit()
      modifies this`editingPost
      ensures editingPost == None
    {
      editingPost := None;
    }

    /** `handleSaveEdit`: on success the edited post replaces the entry with the edited id and
        the editor closes; on failure (including no post being edited, where reading
        `editingPost._id` throws inside the `try`) the server message or the fallback is
        alerted and nothing changes. */
    method SaveEdit(updated: Reply<Post>) returns (res: HandlerResult)
      modifies this`posts, this`editingPost
      ensures old(editingPost).None? ==>
        posts == old(posts) && editingPost == None && res == Alerted("Failed to update post")
      ensures old(editingPost).Some? && updated.Ok? ==>
        posts == ReplaceWhere(old(posts), old(editingPost).value.id, updated.value)
        && editingPost == None && res == Completed
      ensures old(editingPost).Some? && updated.Fail? ==>
        posts == old(posts) && editingPost == old(editingPost)
        && res == Alerted(MessageOr(updated.err, "Failed to update post"))
    {
      if editingPost.None? {
        res := Alerted(MessageOr(ServerError(None), "Failed to update post"));
        return;
      }
      if updated.Ok? {
        posts := ReplaceWhere(posts, editingPost.value.id, updated.value);
        editingPost := None;
        res := Completed;
      } else {
        res := Alerted(MessageOr(updated.err, "Failed to update post"));
      }
    }
  }
}
