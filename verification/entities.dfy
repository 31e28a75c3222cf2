/** The server documents the client holds, reduced to the fields the client reads. Every
    `_id` may be missing from a payload, so each is an `Option<string>`; comparing two of them
    with `===` is comparing the options (two missing ids are equal). */
module Entities {
  import opened Common

  /** A reference to a user as the server sends it: a bare id string, or a populated
      user document whose `_id` may be missing. */
  datatype UserRef = IdString(key: string) | UserObject(objectId: Option<string>)

  /** `ref._id`: a string has no `_id` property; a document has its own. */
  function UnderscoreId(ref: UserRef): Option<string> {
    match ref
    case IdString(_) => None
    case UserObject(oid) => oid
  }

  datatype Comment = Comment(id: Option<string>, user: Option<UserRef>, text: string)

  datatype Post = Post(
    id: Option<string>,
    user: Option<UserRef>,
    content: string,
    image: Option<string>,
    likes: seq<string>,
    comments: seq<Comment>)

  datatype Notification = Notification(id: Option<string>, sender: Option<UserRef>, message: string, createdAt: string)

  /** An entry of a profile's `followers` list; the optimistic toggle appends `{ _id }` only. */
  datatype Follower = Follower(id: Option<string>)

  datatype Profile = Profile(
    id: Option<string>,
    username: string,
    bio: string,
    profilePic: Option<string>,
    followers: seq<Follower>)

  /** The signed-in user object of the authentication context; only its `_id` is read. */
  datatype Viewer = Viewer(id: Option<string>)

  /** A `File` picked in a file input: an object, hence always truthy. */
  datatype FileRef = FileRef(name: string, size: nat)
}
