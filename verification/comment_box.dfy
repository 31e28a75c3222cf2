/** The comment box under a post (`CommentBox.jsx`): who may delete a comment, and the
    comment form's submit handler. */
module CommentBox {
  import opened Common
  import opened Strings
  import opened Entities

  /** The comment's author is a populated user document whose `_id` is the viewer's. A bare
      id string is never recognised as the viewer, even when it is the viewer's id. */
  predicate IsCommentOwner(c: Comment, viewer: Viewer) {
    c.user.Some? && c.user.value.UserObject? && c.user.value.objectId == viewer.id
  }

  /** `post.user._id === user._id`: read through `UnderscoreId`, so a post whose author is a
      bare id string has an `undefined` author id. */
  predicate IsPostOwner(postUser: UserRef, viewer: Viewer) {
    UnderscoreId(postUser) == viewer.id
  }

  /** `canDelete`: a signed-in viewer owns the comment or the post. */
  function CanDelete(c: Comment, postUser: UserRef, viewer: Option<Viewer>): (r: bool)
    ensures r ==> viewer.Some?
    ensures r <==> viewer.Some? && (IsCommentOwner(c, viewer.value) || IsPostOwner(postUser, viewer.value))
  {
    match viewer
    case None => false
    case Some(v) => IsCommentOwner(c, v) || IsPostOwner(postUser, v)
  }

  /** A comment whose author is not a populated document is deletable exactly when the post
      is the viewer's, whoever wrote it. */
  lemma BareAuthorOnlyThroughPost(c: Comment, postUser: UserRef, viewer: Option<Viewer>)
    requires c.user.None? || c.user.value.IdString?
    ensures CanDelete(c, postUser, viewer) <==> viewer.Some? && UnderscoreId(postUser) == viewer.value.id
  {
  }

  /** The post's author may delete every comment under it. */
  lemma PostOwnerDeletesAll(comments: seq<Comment>, postUser: UserRef, viewer: Viewer)
    requires postUser == UserObject(viewer.id)
    ensures forall i :: 0 <= i < |comments| ==> CanDelete(comments[i], postUser, Some(viewer))
  {
  }

  /** Two missing ids compare equal: a viewer whose document lacks `_id` may delete the
      comments of a post whose author came back as a bare id string. */
  lemma MissingIdsGrantDeletion(c: Comment, key: string)
    ensures CanDelete(c, IdString(key), Some(Viewer(None)))
  {
  }

  /** The submit guard: nothing is sent while the trimmed text is empty, a submission is in
      flight, or nobody is signed in. */
  predicate SubmitBlocked(text: string, submitting: bool, viewer: Option<Viewer>)
    ensures SubmitBlocked(text, submitting, viewer) <==> Blank(text) || submitting || viewer.None?
  {
    Trim(text) == "" || submitting || viewer.None?
  }

  const SendFailed := "Failed to send comment. Try again."

  /** The form's state: the draft, the in-flight flag and the error shown under it. */
  class CommentForm {
    var text: string
    var submitting: bool
    var error: Option<string>

    constructor ()
      ensures text == "" && !submitting && error == None
    {
      text := "";
      submitting := false;
      error := None;
    }

    /** Typing into the box. */
    method Edit(input: string)
      modifies this`text
      ensures text == input
    {
      text := input;
    }

    /** `handleSubmit`, with `sent` the `(postId, text)` handed to `onComment` and `outcome`
        how that call settled. The text is sent untrimmed; it is cleared only on success;
        a failure keeps it and shows the server's message or the fallback. */
    method Submit(postId: Option<string>, viewer: Option<Viewer>, outcome: Outcome)
      returns (sent: Option<(Option<string>, string)>)
      modifies this
      ensures sent.None? <==> SubmitBlocked(old(text), old(submitting), viewer)
      ensures sent.None? ==> text == old(text) && submitting == old(submitting) && error == old(error)
      ensures sent.Some? ==> sent.value == (postId, old(text)) && !submitting
      ensures sent.Some? && outcome.Succeeded? ==> text == "" && error == None
      ensures sent.Some? && outcome.Failed? ==>
        text == old(text) && error == Some(MessageOr(outcome.err, SendFailed))
    {
      if SubmitBlocked(text, submitting, viewer) {
        return None;
      }
      submitting := true;
      error := None;
      sent := Some((postId, text));
      match outcome {
        case Succeeded =>
          text := "";
        case Failed(err) =>
          error := Some(MessageOr(err, SendFailed));
      }
      submitting := false;
    }
  }
}
