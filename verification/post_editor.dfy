/** The post editor (`EditPost.jsx`): the payload its save handler hands to `onSave`, the
    image controls, and the save button's rule. */
module PostEditor {
  import opened Common
  import opened Strings
  import opened Entities
  import opened Http

  /** The payload of `handleSubmit`: the trimmed content always; `removeImage` when the post
      had an image and no preview is shown any more; otherwise the chosen file, if any. */
  function EditPayload(content: string, originalImage: Option<string>, preview: Option<string>,
                       image: Option<FileRef>): (r: PostEdit)
    ensures r.content == Some(Trim(content))
    ensures r.removeImage <==> Truthy(originalImage) && !Truthy(preview)
    ensures r.removeImage ==> r.image == None
    ensures !r.removeImage ==> r.image == image
  {
    if Truthy(originalImage) && !Truthy(preview) then PostEdit(Some(Trim(content)), None, true)
    else PostEdit(Some(Trim(content)), image, false)
  }

  /** The save button: disabled while saving, or when the trimmed content is empty and no
      image is shown. */
  predicate SaveDisabled(loading: bool, content: string, preview: Option<string>)
    ensures SaveDisabled(loading, content, preview) <==> loading || (Blank(content) && !Truthy(preview))
  {
    loading || (Trim(content) == "" && !Truthy(preview))
  }

  /** An image-only post with its content erased can still be saved while its image shows,
      and cannot once the image is removed. */
  lemma SaveNeedsContentOrImage(content: string, preview: Option<string>)
    requires Blank(content)
    ensures SaveDisabled(false, content, preview) <==> !Truthy(preview)
  {
  }

  /** The editor's state for one post. */
  class EditForm {
    const originalImage: Option<string>
    var content: string
    var image: Option<FileRef>
    var preview: Option<string>
    var loading: bool

    /** Opening the editor: the post's content (or ""), no new file, the post's image as
        the preview. */
    constructor (post: Post)
      ensures originalImage == post.image
      ensures content == post.content && image == None && !loading
      ensures preview == (if Truthy(post.image) then post.image else None)
    {
      originalImage := post.image;
      content := post.content;
      image := None;
      preview := if Truthy(post.image) then post.image else None;
      loading := false;
    }

    /** `handleImageChange`: a picked file replaces the image and its object URL the preview;
        no file changes nothing. */
    method ChooseImage(file: Option<FileRef>, objectUrl: string)
      modifies this`image, this`preview
      ensures file.None? ==> image == old(image) && preview == old(preview)
      ensures file.Some? ==> image == file && preview == Some(objectUrl)
    {
      if file.None? {
        return;
      }
      image := file;
      preview := Some(objectUrl);
    }

    /** `removeImage`: both the chosen file and the preview are cleared. */
    method RemoveImage()
      modifies this`image, this`preview
      ensures image == None && preview == None
    {
      image := None;
      preview := None;
    }

    /** `handleSubmit`: ignored while saving; otherwise the payload is handed to `onSave`
        (whose failures the pages report themselves) and loading ends false either way. */
    method Submit() returns (payload: Option<PostEdit>)
      modifies this`loading
      ensures payload == (if old(loading) then None else Some(EditPayload(content, originalImage, preview, image)))
      ensures !old(loading) ==> !loading
      ensures old(loading) ==> loading
    {
      if loading {
        return None;
      }
      loading := true;
      payload := Some(EditPayload(content, originalImage, preview, image));
      loading := false;
    }
  }

  /** Removing the image of a post that had one asks the server to remove it and sends no
      file; on a post without an image there is nothing to remove. */
  lemma RemovedImageIsRequested(content: string, originalImage: Option<string>)
    ensures EditPayload(content, originalImage, None, None).removeImage == Truthy(originalImage)
    ensures EditPayload(content, originalImage, None, None).image == None
  {
  }

  /** An untouched image is neither sent again nor removed. */
  lemma UntouchedImageKept(content: string, post: Post)
    ensures var preview := if Truthy(post.image) then post.image else None;
            EditPayload(content, post.image, preview, None) == PostEdit(Some(Trim(content)), None, false)
  {
  }

  /** A new file replaces the image: it is sent, and nothing is removed. */
  lemma NewImageSent(content: string, originalImage: Option<string>, file: FileRef, objectUrl: string)
    requires objectUrl != ""
    ensures EditPayload(content, originalImage, Some(objectUrl), Some(file)) == PostEdit(Some(Trim(content)), Some(file), false)
  {
  }
}
