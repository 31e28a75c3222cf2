/** The post composer (`CreatePost.jsx`): the submit guard shared with the Post button, the
    multipart body it builds field by field, and the reset after a successful post. */
module PostComposer {
  import opened Common
  import opened Strings
  import opened Entities
  import opened Http
  import opened PostApi

  /** The Post button is disabled, and a submit ignored, while posting or when there is
      neither trimmed content nor an image. */
  predicate PostBlocked(loading: bool, content: string, image: Option<FileRef>)
    ensures PostBlocked(loading, content, image) <==> loading || (Blank(content) && image.None?)
  {
    loading || (Trim(content) == "" && image.None?)
  }

  /** The `FormData` of `handleSubmit`: the trimmed content when it is not empty, then the
      image when one is chosen. Read back as a post body it gives exactly those two, and it is
      empty exactly when the guard would block the submit. */
  method NewPostForm(content: string, image: Option<FileRef>) returns (form: seq<Field>)
    ensures FollowsOrder(form, PostFieldOrder)
    ensures ReadPostEdit(form) == PostEdit(if Trim(content) != "" then Some(Trim(content)) else None, image, false)
    ensures form == [] <==> PostBlocked(false, content, image)
  {
    var trimmed := Trim(content);
    ghost var f1 := Field("content", Text(trimmed));
    ghost var f2 := Field("image", Blob(if image.Some? then image.value else FileRef("", 0)));
    ghost var f3 := Field("removeImage", Text("true"));
    form := [];
    if trimmed != "" {
      form := form + [Field("content", Text(trimmed))];
    }
    assert form == Optional(trimmed != "", f1);
    if image.Some? {
      form := form + [Field("image", Blob(image.value))];
    }
    assert form == Optional(trimmed != "", f1) + Optional(image.Some?, f2) + Optional(false, f3);
    ThreeFieldsRead(trimmed != "", f1, image.Some?, f2, false, f3);
    ThreeFieldsOrder(trimmed != "", f1, image.Some?, f2, false, f3);
  }

  const CreateFailed := "Failed to create post. Please try again."

  /** The composer's state. */
  class Composer {
    var content: string
    var image: Option<FileRef>
    var preview: Option<string>
    var loading: bool

    constructor ()
      ensures content == "" && image == None && preview == None && !loading
    {
      content := "";
      image := None;
      preview := None;
      loading := false;
    }

    /** Typing into the text area. */
    method Edit(input: string)
      modifies this`content
      ensures content == input
    {
      content := input;
    }

    /** `handleImageChange`: a picked file and its object URL replace the image and the
        preview; no file changes nothing. */
    method ChooseImage(file: Option<FileRef>, objectUrl: string)
      modifies this`image, this`preview
      ensures file.None? ==> image == old(image) && preview == old(preview)
      ensures file.Some? ==> image == file && preview == Some(objectUrl)
    {
      if file.None? {
        return;
      }
      image := file;
      preview := Some(objectUrl);
    }

    /** `removeImage`. */
    method RemoveImage()
      modifies this`image, this`preview
      ensures image == None && preview == None
    {
      image := None;
      preview := None;
    }

    /** `handleSubmit`, with `created` how POST /posts settled and `refreshed` how the
        `onPostCreated` callback settled (`Succeeded` when there is none). A blocked submit
        sends nothing; otherwise it posts the composer's body to /posts itself, which is the
        request `CreatePostRequest` builds and the server routes to post creation. Once the
        post is created the draft is cleared, even if the refresh then fails; any failure
        raises the same alert; loading ends false whenever a request was sent. */
    method Submit(created: Outcome, refreshed: Outcome) returns (sent: Option<Request>, res: HandlerResult)
      modifies this
      ensures sent.None? <==> PostBlocked(old(loading), old(content), old(image))
      ensures sent.None? ==>
        res == Completed && content == old(content) && image == old(image)
        && preview == old(preview) && loading == old(loading)
      ensures sent.Some? ==> !loading && sent.value.body.Multipart?
      ensures sent.Some? ==> sent.value.verb == POST && sent.value.path == "/posts"
      ensures sent.Some? && sent.value.body.Multipart? ==> sent.value == CreatePostRequest(sent.value.body.fields)
      ensures sent.Some? && sent.value.body.Multipart? ==>
        ReadPostEdit(sent.value.body.fields)
        == PostEdit(if Trim(old(content)) != "" then Some(Trim(old(content))) else None, old(image), false)
      ensures sent.Some? && created.Failed? ==>
        content == old(content) && image == old(image) && preview == old(preview) && res == Alerted(CreateFailed)
      ensures sent.Some? && created.Succeeded? ==>
        content == "" && image == None && preview == None
        && res == (if refreshed.Succeeded? then Completed else Alerted(CreateFailed))
    {
      var text, file := content, image;
      if loading {
        return None, Completed;
      }
      if Trim(text) == "" && file.None? {
        return None, Completed;
      }
      loading := true;
      var form := NewPostForm(text, file);
      var request := Request(POST, "/posts", Multipart(form));
      sent := Some(request);
      if created.Failed? {
        res := Alerted(CreateFailed);
      } else {
        content := "";
        RemoveImage();
        res := if refreshed.Succeeded? then Completed else Alerted(CreateFailed);
      }
      loading := false;
    }
  }
}
