/** A user's profile page: the profile document with its followers, and that author's posts,
    kept current by the same socket events as the feed, but with creations and updates filtered
    to the author whose id is in the route. */
module ProfilePage {
  import opened Common
  import opened Entities
  import opened Reconcile

  /** `post?.user?._id || post?.user`, as far as it can equal a route id: the populated
      author's non-empty `_id`, or the bare author id string. A populated author without a
      usable `_id` yields the document itself, and a missing author yields `undefined`; neither
      equals a string, and both are `None` here. */
  function AuthorKey(post: Post): (r: Option<string>)
    ensures r.Some? ==> post.user.Some?
    ensures forall key :: post.user == Some(IdString(key)) ==> r == Some(key)
    ensures post.user.Some? && post.user.value.UserObject? && r.Some? ==> r.value != "" && r == post.user.value.objectId
  {
    match post.user
    case None => None
    case Some(UserObject(oid)) => if Truthy(oid) then oid else None
    case Some(IdString(key)) => Some(key)
  }

  /** The author filter of the `new_post` and `post_updated` handlers. */
  predicate InScope(post: Post, routeId: string)
    ensures InScope(post, routeId) ==> post.user.Some?
    ensures post.user == Some(IdString(routeId)) ==> InScope(post, routeId)
    ensures post.user == Some(UserObject(Some(routeId))) ==> (InScope(post, routeId) <==> routeId != "")
  {
    AuthorKey(post) == Some(routeId)
  }

  /** Every listed post is by the route's author. */
  predicate AllInScope(s: seq<Post>, routeId: string) {
    forall i :: 0 <= i < |s| ==> InScope(s[i], routeId)
  }

  /** The profile's `new_post` handler: out-of-scope posts are dropped before the feed rule. */
  function ScopedInsert(prev: seq<Post>, post: Post, routeId: string): (r: seq<Post>)
    ensures !InScope(post, routeId) ==> r == prev
    ensures InScope(post, routeId) ==> r == InsertNew(prev, post)
  {
    if AuthorKey(post) != Some(routeId) then prev else InsertNew(prev, post)
  }

  /** The profile's `post_updated` handler: out-of-scope posts are dropped before the feed rule. */
  function ScopedReplace(prev: seq<Post>, post: Post, routeId: string): (r: seq<Post>)
    ensures !InScope(post, routeId) ==> r == prev
    ensures InScope(post, routeId) ==> r == ReplaceWhere(prev, post.id, post)
  {
    if AuthorKey(post) != Some(routeId) then prev else ReplaceWhere(prev, post.id, post)
  }

  /** `isOwnProfile`: the signed-in user's `_id` is the route id. */
  predicate IsOwnProfile(viewerId: Option<string>, routeId: string)
    ensures viewerId.None? ==> !IsOwnProfile(viewerId, routeId)
    ensures IsOwnProfile(viewerId, routeId) ==> viewerId.value == routeId
    ensures viewerId.Some? && viewerId.value == routeId ==> IsOwnProfile(viewerId, routeId)
  {
    viewerId == Some(routeId)
  }

  /** `isFollowing`: some follower has the signed-in user's `_id`. */
  predicate IsFollowing(profile: Option<Profile>, viewerId: Option<string>)
    ensures profile.None? ==> !IsFollowing(profile, viewerId)
    ensures profile.Some? ==>
      (IsFollowing(profile, viewerId) <==> |RemoveFollower(profile.value.followers, viewerId)| < |profile.value.followers|)
  {
    profile.Some? && exists i :: 0 <= i < |profile.value.followers| && profile.value.followers[i].id == viewerId
  }

  /** `followers.filter(f => f._id !== key)`. */
  function RemoveFollower(fs: seq<Follower>, key: Option<string>): (r: seq<Follower>)
    ensures forall f :: f in r <==> f in fs && f.id != key
    ensures |r| <= |fs|
    ensures |r| == |fs| <==> forall i :: 0 <= i < |fs| ==> fs[i].id != key
  {
    if fs == [] then []
    else
      var rest := RemoveFollower(fs[1..], key);
      assert forall f :: f in fs <==> f == fs[0] || f in fs[1..];
      assert forall i :: 1 <= i < |fs| ==> fs[i] == fs[1..][i - 1];
      if fs[0].id == key then rest else [fs[0]] + rest
  }

  /** The optimistic follow toggle applied after `followUser` resolves: a null profile is left
      alone; a follower with the user's `_id` is removed (every such entry), otherwise `{ _id }`
      is appended. Nothing but `followers` changes. */
  function ToggleFollow(profile: Option<Profile>, viewerId: Option<string>): (r: Option<Profile>)
    ensures profile.None? ==> r.None?
    ensures profile.Some? ==> r.Some? && r.value == profile.value.(followers := r.value.followers)
    ensures profile.Some? && IsFollowing(profile, viewerId) ==>
      r.value.followers == RemoveFollower(profile.value.followers, viewerId)
    ensures profile.Some? && !IsFollowing(profile, viewerId) ==>
      r.value.followers == profile.value.followers + [Follower(viewerId)]
  {
    if profile.None? then profile
    else
      var p := profile.value;
      var already := exists i :: 0 <= i < |p.followers| && p.followers[i].id == viewerId;
      Some(p.(followers := if already then RemoveFollower(p.followers, viewerId) else p.followers + [Follower(viewerId)]))
  }

  /** Following and unfollowing flip `isFollowing`. */
  lemma ToggleFlipsFollowing(profile: Option<Profile>, viewerId: Option<string>)
    requires profile.Some?
    ensures IsFollowing(ToggleFollow(profile, viewerId), viewerId) == !IsFollowing(profile, viewerId)
  {
    var r := ToggleFollow(profile, viewerId);
    if !IsFollowing(profile, viewerId) {
      var fs := r.value.followers;
      assert fs[|fs| - 1].id == viewerId;
    }
  }

  /** Removing a key that no follower has changes nothing. */
  lemma {:induction false} RemoveAbsentFollower(fs: seq<Follower>, key: Option<string>)
    requires forall i :: 0 <= i < |fs| ==> fs[i].id != key
    ensures RemoveFollower(fs, key) == fs
  {
    if fs != [] {
      RemoveAbsentFollower(fs[1..], key);
      assert fs == [fs[0]] + fs[1..];
    }
  }

  /** Removal from a list with a new last entry works on the two parts separately. */
  lemma {:induction false} RemoveFollowerAppend(fs: seq<Follower>, f: Follower, key: Option<string>)
    ensures RemoveFollower(fs + [f], key) == RemoveFollower(fs, key) + RemoveFollower([f], key)
  {
    if fs != [] {
      assert (fs + [f])[1..] == fs[1..] + [f];
      RemoveFollowerAppend(fs[1..], f, key);
    } else {
      assert fs + [f] == [f];
    }
  }

  /** Following someone not yet followed and then unfollowing restores the follower list. */
  lemma FollowThenUnfollowRestores(profile: Option<Profile>, viewerId: Option<string>)
    requires !IsFollowing(profile, viewerId)
    ensures ToggleFollow(ToggleFollow(profile, viewerId), viewerId) == profile
  {
    if profile.Some? {
      var fs := profile.value.followers;
      ToggleFlipsFollowing(profile, viewerId);
      RemoveFollowerAppend(fs, Follower(viewerId), viewerId);
      RemoveAbsentFollower(fs, viewerId);
      assert RemoveFollower([Follower(viewerId)], viewerId) == [];
      assert fs + [] == fs;
    }
  }

  /** A profile view ignores a creation by another author; the unscoped feed takes it. */
  lemma ScopeFiltersOtherAuthors(prev: seq<Post>, post: Post, routeId: string)
    requires AuthorKey(post) != Some(routeId)
    requires Truthy(post.id) && !HasId(prev, post.id)
    ensures ScopedInsert(prev, post, routeId) == prev
    ensures InsertNew(prev, post) == [post] + prev
  {
  }

  /** Scoped creation and update and the unscoped delete keep a list that holds only the
      route author's posts in that state. */
  lemma ScopedRulesKeepScope(prev: seq<Post>, post: Post, key: Option<string>, routeId: string)
    requires AllInScope(prev, routeId)
    ensures AllInScope(ScopedInsert(prev, post, routeId), routeId)
    ensures AllInScope(ScopedReplace(prev, post, routeId), routeId)
    ensures AllInScope(RemoveWhere(prev, key), routeId)
  {
    var r := RemoveWhere(prev, key);
    forall i | 0 <= i < |r| ensures InScope(r[i], routeId) {
      assert r[i] in prev;
    }
    var c := ScopedInsert(prev, post, routeId);
    if c != prev {
      forall i | 0 < i < |c| ensures InScope(c[i], routeId) {
        assert c[i] == prev[i - 1];
      }
    }
  }

  class ProfileView {
    const routeId: string
    var profile: Option<Profile>
    var posts: seq<Post>
    var loading: bool
    var editingPost: Option<Post>
    var editingProfile: bool
    /** The `mounted` flag of the current run of the initial-load effect. */
    var mounted: bool

    constructor (routeId: string)
      ensures this.routeId == routeId
      ensures profile == None && posts == [] && loading && editingPost == None && !editingProfile && !mounted
    {
      this.routeId := routeId;
      profile, posts, loading, editingPost, editingProfile, mounted := None, [], true, None, false, false;
    }

    // ----- initial load, one step per settled promise -----

    /** The effect starts: a fresh `mounted` flag, and the loading indicator on. */
    method BeginLoad()
      modifies this`mounted, this`loading
      ensures mounted && loading
    {
      mounted, loading := true, true;
    }

    /** `loadProfile` resolved: its `setProfile` is not guarded by `mounted`. */
    method ProfileFetched(p: Profile)
      modifies this`profile
      ensures profile == Some(p)
    {
      profile := Some(p);
    }

    /** `loadPosts` resolved: its `setPosts` is not guarded by `mounted`. */
    method PostsFetched(ps: seq<Post>)
      modifies this`posts
      ensures posts == ps
    {
      posts := ps;
    }

    /** `Promise.all` settled: on rejection the profile is reset to null, and in every case
        loading ends, but only while the effect run is still mounted. */
    method LoadSettled(rejected: bool)
      modifies this`profile, this`loading
      ensures old(mounted) ==> !loading && profile == (if rejected then None else old(profile))
      ensures !old(mounted) ==> profile == old(profile) && loading == old(loading)
    {
      if rejected && mounted {
        profile := None;
      }
      if mounted {
        loading := false;
      }
    }

    /** The effect's cleanup. */
    method Unmount()
      modifies this`mounted
      ensures !mounted
    {
      mounted := false;
    }

    /** The initial load when both requests settle while mounted: the profile is shown only if
        both succeeded; fetched posts are kept even when the profile failed. */
    method InitialLoad(fetchedProfile: Reply<Profile>, fetchedPosts: Reply<seq<Post>>)
      modifies this`mounted, this`loading, this`profile, this`posts
      ensures mounted && !loading
      ensures profile == (if fetchedProfile.Ok? && fetchedPosts.Ok? then Some(fetchedProfile.value) else None)
      ensures posts == (if fetchedPosts.Ok? then fetchedPosts.value else old(posts))
    {
      BeginLoad();
      if fetchedProfile.Ok? {
        ProfileFetched(fetchedProfile.value);
      }
      if fetchedPosts.Ok? {
        PostsFetched(fetchedPosts.value);
      }
      var rejected := fetchedProfile.Fail? || fetchedPosts.Fail?;
      if !rejected {
        assert profile == Some(fetchedProfile.value);
      }
      LoadSettled(rejected);
    }

    // ----- socket events (handlers are registered only for a non-empty route id) -----

    /** The profile's `new_post` event. */
    method OnNewPost(post: Post)
      modifies this`posts
      ensures posts == (if routeId == "" then old(posts) else ScopedInsert(old(posts), post, routeId))
    {
      if routeId != "" {
        posts := ScopedInsert(posts, post, routeId);
      }
    }

    /** The profile's `post_updated` event. */
    method OnPostUpdated(post: Post)
      modifies this`posts
      ensures posts == (if routeId == "" then old(posts) else ScopedReplace(old(posts), post, routeId))
    {
      if routeId != "" {
        posts := ScopedReplace(posts, post, routeId);
      }
    }

    /** The profile's `post_deleted` event: not filtered by author. */
    method OnPostDeleted(postId: Option<string>)
      modifies this`posts
      ensures posts == (if routeId == "" then old(posts) else RemoveWhere(old(posts), postId))
    {
      if routeId != "" {
        posts := RemoveWhere(posts, postId);
      }
    }

    // ----- the viewer's actions -----

    /** `handleFollow`: nothing without a signed-in user; the toggle follows only a resolved
        `followUser`, whose rejection is not caught. */
    method Follow(viewer: Option<Viewer>, followed: Outcome) returns (res: HandlerResult)
      modifies this`profile
      ensures viewer.None? ==> profile == old(profile) && res == Completed
      ensures viewer.Some? && followed.Failed? ==> profile == old(profile) && res == Raised(followed.err)
      ensures viewer.Some? && followed.Succeeded? ==>
        profile == ToggleFollow(old(profile), viewer.value.id) && res == Completed
    {
      if viewer.None? {
        return Completed;
      }
      if followed.Failed? {
        return Raised(followed.err);
      }
      profile := ToggleFollow(profile, viewer.value.id);
      res := Completed;
    }

    /** `handleLike` and `handleComment` (which logs and rethrows): the returned post replaces
        the acted-on entry, keyed by its `_id` (possibly missing); a rejection escapes. */
    method ApplyResult(postId: Option<string>, updated: Reply<Post>) returns (res: HandlerResult)
      modifies this`posts
      ensures posts == (if updated.Ok? then ReplaceWhere(old(posts), postId, updated.value) else old(posts))
      ensures res == (if updated.Ok? then Completed else Raised(updated.err))
    {
      if updated.Ok? {
        posts := ReplaceWhere(posts, postId, updated.value);
        res := Completed;
      } else {
        res := Raised(updated.err);
      }
    }

    /** `handleDeleteComment`: a failure is caught and alerted. */
    method DeleteComment(postId: Option<string>, commentId: string, updated: Reply<Post>) returns (res: HandlerResult)
      modifies this`posts
      ensures posts == (if updated.Ok? then ReplaceWhere(old(posts), postId, updated.value) else old(posts))
      ensures res == (if updated.Ok? then Completed else Alerted("Failed to delete comment"))
    {
      if updated.Ok? {
        posts := ReplaceWhere(posts, postId, updated.value);
        res := Completed;
      } else {
        res := Alerted("Failed to delete comment");
      }
    }

    /** `handleDeletePost`: the entry goes only once the server confirmed the delete. */
    method DeletePost(postId: Option<string>, deleted: Outcome) returns (res: HandlerResult)
      modifies this`posts
      ensures posts == (if deleted.Succeeded? then RemoveWhere(old(posts), postId) else old(posts))
      ensures res == (if deleted.Succeeded? then Completed else Alerted("Failed to delete post"))
    {
      if deleted.Succeeded? {
        posts := RemoveWhere(posts, postId);
        res := Completed;
      } else {
        res := Alerted("Failed to delete post");
      }
    }

    /** `handleEditPost`. */
    method StartEdit(post: Post)
      modifies this`editingPost
      ensures editingPost == Some(post)
    {
      editingPost := Some(post);
    }

    /** The post editor's cancel button (`onCancel`). */
    method CancelEdit()
      modifies this`editingPost
      ensures editingPost == None
    {
      editingPost := None;
    }

    /** `handleSaveEdit`, the same rule as the feed's. */
    method SaveEdit(updated: Reply<Post>) returns (res: HandlerResult)
      modifies this`posts, this`editingPost
      ensures old(editingPost).None? ==>
        posts == old(posts) && editingPost == None && res == Alerted("Failed to update post")
      ensures old(editingPost).Some? && updated.Ok? ==>
        posts == ReplaceWhere(old(posts), old(editingPost).value.id, updated.value)
        && editingPost == None && res == Completed
      ensures old(editingPost).Some? && updated.Fail? ==>
        posts == old(posts) && editingPost == old(editingPost)
        && res == Alerted(MessageOr(updated.err, "Failed to update post"))
    {
      if editingPost.None? {
        res := Alerted(MessageOr(ServerError(None), "Failed to update post"));
        return;
      }
      if updated.Ok? {
        posts := ReplaceWhere(posts, editingPost.value.id, updated.value);
        editingPost := None;
        res := Completed;
      } else {
        res := Alerted(MessageOr(updated.err, "Failed to update post"));
      }
    }

    /** `handleSaveProfile`: the returned profile is shown and the editor closes; when it is the
        viewer's own profile the returned document is handed to the authentication context
        (`authUser`). A rejection escapes to the profile editor. */
    method SaveProfile(viewer: Option<Viewer>, updated: Reply<Profile>) returns (res: HandlerResult, authUser: Option<Profile>)
      modifies this`profile, this`editingProfile
      ensures updated.Fail? ==>
        profile == old(profile) && editingProfile == old(editingProfile) && res == Raised(updated.err) && authUser == None
      ensures updated.Ok? ==> profile == Some(updated.value) && !editingProfile && res == Completed
      ensures updated.Ok? ==>
        authUser == (if viewer.Some? && IsOwnProfile(viewer.value.id, routeId) then Some(updated.value) else None)
    {
      authUser := None;
      if updated.Fail? {
        return Raised(updated.err), None;
      }
      profile := Some(updated.value);
      editingProfile := false;
      if viewer.Some? && IsOwnProfile(viewer.value.id, routeId) {
        authUser := Some(updated.value);
      }
      res := Completed;
    }

    /** The header's edit button and the editor's cancel button. */
    method SetEditingProfile(on: bool)
      modifies this`editingProfile
      ensures editingProfile == on
    {
      editingProfile := on;
    }
  }
}
