/** The profile editor (`EditProfile.jsx`): username normalisation, the submit validation and
    payload, the error it shows, and the save button's rule. */
module ProfileEditor {
  import opened Common
  import opened Strings
  import opened Entities
  import opened Http

  /** The save button: disabled while saving or when the trimmed username is empty. */
  predicate SaveDisabled(loading: bool, username: string)
    ensures SaveDisabled(loading, username) <==> loading || Blank(username)
  {
    loading || Trim(username) == ""
  }

  /** Trimming only removes characters, so it brings in no upper-case letter. */
  lemma TrimKeepsLowercase(s: string)
    requires forall i :: 0 <= i < |s| ==> !('A' <= s[i] <= 'Z')
    ensures forall i :: 0 <= i < |Trim(s)| ==> !('A' <= Trim(s)[i] <= 'Z')
  {
    var r := Trim(s);
    var a := LeadingSpaces(s);
    forall i | 0 <= i < |r|
      ensures !('A' <= r[i] <= 'Z')
    {
      assert r[i] == s[a + i];
    }
  }

  /** A username typed into the field reaches the server lower-case (in ASCII) and without
      surrounding white space. */
  lemma TypedUsernameSavedLowercase(input: string)
    ensures forall i :: 0 <= i < |Trim(ToLower(input))| ==> !('A' <= Trim(ToLower(input))[i] <= 'Z')
  {
    TrimKeepsLowercase(ToLower(input));
  }

  /** Lower-casing keeps white space where it is, so a blank input stays blank. */
  lemma LowercaseKeepsBlank(input: string)
    ensures Blank(ToLower(input)) <==> Blank(input)
  {
    var s := ToLower(input);
    assert forall i :: 0 <= i < |input| ==> (IsSpace(s[i]) <==> IsSpace(input[i]));
  }

  const UsernameRequired := "Username is required"
  const UpdateFailed := "Failed to update profile"

  /** The editor's state. */
  class EditForm {
    var username: string
    var bio: string
    var profilePic: Option<FileRef>
    var preview: Option<string>
    var loading: bool
    var error: Option<string>

    /** Opening the editor on the current profile (or on nothing yet). */
    constructor (profile: Option<Profile>)
      ensures username == (if profile.Some? then profile.value.username else "")
      ensures bio == (if profile.Some? then profile.value.bio else "")
      ensures preview == (if profile.Some? && Truthy(profile.value.profilePic) then profile.value.profilePic else None)
      ensures profilePic == None && !loading && error == None
    {
      username := if profile.Some? then profile.value.username else "";
      bio := if profile.Some? then profile.value.bio else "";
      preview := if profile.Some? && Truthy(profile.value.profilePic) then profile.value.profilePic else None;
      profilePic := None;
      loading := false;
      error := None;
    }

    /** The username field's `onChange`: the input is stored lower-cased and the error is
        cleared. */
    method ChangeUsername(input: string)
      modifies this`username, this`error
      ensures username == ToLower(input) && error == None
      ensures forall i :: 0 <= i < |username| ==> !('A' <= username[i] <= 'Z')
    {
      username := ToLower(input);
      error := None;
    }

    /** The bio field's `onChange`. */
    method ChangeBio(input: string)
      modifies this`bio
      ensures bio == input
    {
      bio := input;
    }

    /** `handleImageChange`: a picked file and its object URL replace the picture and the
        preview; no file changes nothing. */
    method ChooseImage(file: Option<FileRef>, objectUrl: string)
      modifies this`profilePic, this`preview
      ensures file.None? ==> profilePic == old(profilePic) && preview == old(preview)
      ensures file.Some? ==> profilePic == file && preview == Some(objectUrl)
    {
      if file.None? {
        return;
      }
      profilePic := file;
      preview := Some(objectUrl);
    }

    /** `handleSubmit`, with `saved` how `onSave` settled. Ignored while saving; a blank
        username shows "Username is required" and saves nothing; otherwise the trimmed
        username, the trimmed bio and the chosen file are handed to `onSave`, and a failure
        shows the server's message or the fallback. The draft itself is never changed. */
    method Submit(saved: Outcome) returns (payload: Option<ProfileEdit>)
      modifies this`loading, this`error
      ensures payload.None? <==> SaveDisabled(old(loading), username)
      ensures old(loading) ==> loading && error == old(error)
      ensures !old(loading) && Trim(username) == "" ==> error == Some(UsernameRequired) && !loading
      ensures payload.Some? ==>
        payload.value == ProfileEdit(Some(Trim(username)), Some(Trim(bio)), profilePic) && !loading
      ensures payload.Some? ==>
        error == (if saved.Succeeded? then None else Some(MessageOr(saved.err, UpdateFailed)))
    {
      if loading {
        return None;
      }
      if Trim(username) == "" {
        error := Some(UsernameRequired);
        return None;
      }
      loading := true;
      error := None;
      payload := Some(ProfileEdit(Some(Trim(username)), Some(Trim(bio)), profilePic));
      if saved.Failed? {
        error := Some(MessageOr(saved.err, UpdateFailed));
      }
      loading := false;
    }
  }
}
