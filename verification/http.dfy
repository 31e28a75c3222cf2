/** The HTTP side the API modules build requests for: multipart form bodies, and the
    server's routing of a request to the operation it names (path segments, the query string
    with its percent-decoding, the multipart fields it reads). It is the reference the request
    builders are proved against. */
module Http {
  import opened Common
  import opened Entities
  import opened Strings

  // ----- multipart form bodies -----

  datatype FieldValue = Text(text: string) | Blob(file: FileRef)

  /** One `formData.append(name, value)`. */
  datatype Field = Field(name: string, value: FieldValue)

  /** `formData.get(name)`: the first value appended under `name`. */
  function Get(form: seq<Field>, name: string): Option<FieldValue> {
    if form == [] then None
    else if form[0].name == name then Some(form[0].value)
    else Get(form[1..], name)
  }

  /** The position of `name` in `order`, or `|order|` when absent. */
  function IndexOf(order: seq<string>, name: string): (k: nat)
    ensures k <= |order|
    ensures k < |order| ==> order[k] == name
    ensures k == |order| <==> name !in order
  {
    if order == [] then 0
    else if order[0] == name then 0
    else 1 + IndexOf(order[1..], name)
  }

  /** Every field name is one of `order`, and the fields follow `order` (so none repeats). */
  predicate FollowsOrder(form: seq<Field>, order: seq<string>) {
    (forall i :: 0 <= i < |form| ==> form[i].name in order)
    && forall i, j :: 0 <= i < j < |form| ==> IndexOf(order, form[i].name) < IndexOf(order, form[j].name)
  }

  /** The field appended by a step that appends only when `present` holds. */
  function Optional(present: bool, f: Field): (r: seq<Field>)
    ensures |r| <= 1
    ensures present <==> r == [f]
  {
    if present then [f] else []
  }

  /** Lookup in a concatenation finds the first part's field before the second's. */
  lemma {:induction false} GetConcat(a: seq<Field>, b: seq<Field>, n: string)
    ensures Get(a + b, n) == if Get(a, n).Some? then Get(a, n) else Get(b, n)
  {
    if a == [] {
      assert a + b == b;
    } else {
      assert (a + b)[0] == a[0];
      assert (a + b)[1..] == a[1..] + b;
      GetConcat(a[1..], b, n);
    }
  }

  /** Lookup in the result of one optional append. */
  lemma GetOptional(p: bool, f: Field, n: string)
    ensures Get(Optional(p, f), n) == if p && f.name == n then Some(f.value) else None
  {
    if p {
      assert [f][1..] == [];
    }
  }

  /** A form made of three optional appends under distinct names: each name reads back its
      value exactly when its step appended. */
  lemma ThreeFieldsRead(p1: bool, f1: Field, p2: bool, f2: Field, p3: bool, f3: Field)
    requires f1.name != f2.name && f1.name != f3.name && f2.name != f3.name
    ensures var form := Optional(p1, f1) + Optional(p2, f2) + Optional(p3, f3);
      && Get(form, f1.name) == (if p1 then Some(f1.value) else None)
      && Get(form, f2.name) == (if p2 then Some(f2.value) else None)
      && Get(form, f3.name) == (if p3 then Some(f3.value) else None)
  {
    var a, b, c := Optional(p1, f1), Optional(p2, f2), Optional(p3, f3);
    forall n | n == f1.name || n == f2.name || n == f3.name
      ensures Get(a + b + c, n) == (if p1 && f1.name == n then Some(f1.value)
                                   else if p2 && f2.name == n then Some(f2.value)
                                   else if p3 && f3.name == n then Some(f3.value) else None)
    {
      GetConcat(a + b, c, n);
      GetConcat(a, b, n);
      GetOptional(p1, f1, n);
      GetOptional(p2, f2, n);
      GetOptional(p3, f3, n);
    }
  }

  /** The fields of three optional appends under distinct names follow the order of the
      steps. */
  lemma ThreeFieldsOrder(p1: bool, f1: Field, p2: bool, f2: Field, p3: bool, f3: Field)
    requires f1.name != f2.name && f1.name != f3.name && f2.name != f3.name
    ensures FollowsOrder(Optional(p1, f1) + Optional(p2, f2) + Optional(p3, f3), [f1.name, f2.name, f3.name])
  {
    var form := Optional(p1, f1) + Optional(p2, f2) + Optional(p3, f3);
    var order := [f1.name, f2.name, f3.name];
    assert IndexOf(order, f1.name) == 0;
    assert IndexOf(order, f2.name) == 1 by { assert order[1..] == [f2.name, f3.name]; }
    assert IndexOf(order, f3.name) == 2 by {
      assert order[1..] == [f2.name, f3.name] && order[1..][1..] == [f3.name];
    }
    forall i, j | 0 <= i < j < |form|
      ensures IndexOf(order, form[i].name) < IndexOf(order, form[j].name)
    {
      if p1 && i == 0 {
        assert form[i] == f1;
      }
    }
  }

  /** A text field's value. */
  function TextOf(v: Option<FieldValue>): Option<string> {
    if v.Some? && v.value.Text? then Some(v.value.text) else None
  }

  /** A file field's value. */
  function FileOf(v: Option<FieldValue>): Option<FileRef> {
    if v.Some? && v.value.Blob? then Some(v.value.file) else None
  }

  // ----- what the server is asked to do -----

  /** The edit-post payload: `content` (possibly empty) when defined, a new `image` file, and
      the `removeImage` flag. */
  datatype PostEdit = PostEdit(content: Option<string>, image: Option<FileRef>, removeImage: bool)

  /** The profile-update payload; each key is optional. */
  datatype ProfileEdit = ProfileEdit(username: Option<string>, bio: Option<string>, profilePic: Option<FileRef>)

  datatype Verb = GET | POST | PUT | DELETE

  datatype Body = NoBody | CommentBody(text: string) | Multipart(fields: seq<Field>)

  /** A request relative to the API base URL. */
  datatype Request = Request(verb: Verb, path: string, body: Body)

  datatype Operation =
    | FeedPosts
    | CreatePost
    | LikePost(postId: string)
    | AddComment(postId: string, text: string)
    | UserPosts(userId: string)
    | DeletePost(postId: string)
    | DeleteComment(postId: string, commentId: string)
    | EditPost(postId: string, postEdit: PostEdit)
    | FollowUser(userId: string)
    | SearchUsers(query: string)
    | UpdateProfile(profileEdit: ProfileEdit)

  /** A path segment the router reads back as one id. */
  predicate Segment(s: string) {
    s != "" && '/' !in s && '?' !in s && '#' !in s
  }

  /** How the server reads an edit-post body. */
  function ReadPostEdit(form: seq<Field>): PostEdit {
    PostEdit(TextOf(Get(form, "content")), FileOf(Get(form, "image")),
             Get(form, "removeImage") == Some(Text("true")))
  }

  /** How the server reads a profile-update body. */
  function ReadProfileEdit(form: seq<Field>): ProfileEdit {
    ProfileEdit(TextOf(Get(form, "username")), TextOf(Get(form, "bio")), FileOf(Get(form, "profilePic")))
  }

  // ----- the query string -----

  /** The value of a hexadecimal digit. */
  function HexValue(c: char): Option<nat> {
    if '0' <= c <= '9' then Some(c as nat - '0' as nat)
    else if 'A' <= c <= 'F' then Some(c as nat - 'A' as nat + 10)
    else if 'a' <= c <= 'f' then Some(c as nat - 'a' as nat + 10)
    else None
  }

  /** Form-urlencoded decoding of a query value: `+` is a space, `%XY` the character with that
      code, anything else itself. */
  function Decode(s: string): string {
    if s == [] then ""
    else if s[0] == '+' then " " + Decode(s[1..])
    else if s[0] == '%' && |s| >= 3 && HexValue(s[1]).Some? && HexValue(s[2]).Some? then
      [(HexValue(s[1]).value * 16 + HexValue(s[2]).value) as char] + Decode(s[3..])
    else [s[0]] + Decode(s[1..])
  }

  /** The decoded value of the first `name=value` pair of a query string. */
  function QueryParam(pairs: seq<string>, name: string): Option<string> {
    if pairs == [] then None
    else
      var key := name + "=";
      if key <= pairs[0] then Some(Decode(pairs[0][|key|..])) else QueryParam(pairs[1..], name)
  }

  // ----- routing -----

  /** The operation named by a path without query, split into segments after the leading "/". */
  function OperationOf(verb: Verb, segs: seq<string>, body: Body): Option<Operation> {
    match verb
    case GET =>
      if |segs| == 2 && segs[0] == "users" && segs[1] == "feed" then Some(FeedPosts)
      else if |segs| == 3 && segs[0] == "posts" && segs[1] == "user" && segs[2] != "" then Some(UserPosts(segs[2]))
      else None
    case POST =>
      if |segs| == 1 && segs[0] == "posts" && body.Multipart? then Some(CreatePost)
      else if |segs| == 3 && segs[0] == "posts" && segs[1] == "comment" && segs[2] != "" && body.CommentBody? then
        Some(AddComment(segs[2], body.text))
      else None
    case PUT =>
      if |segs| == 2 then
        if segs[0] == "posts" && segs[1] != "" && body.Multipart? then Some(EditPost(segs[1], ReadPostEdit(body.fields)))
        else if segs[0] == "users" && segs[1] == "profile" && body.Multipart? then Some(UpdateProfile(ReadProfileEdit(body.fields)))
        else None
      else if |segs| == 3 then
        if segs[0] == "posts" && segs[1] == "like" && segs[2] != "" then Some(LikePost(segs[2]))
        else if segs[0] == "users" && segs[1] == "follow" && segs[2] != "" then Some(FollowUser(segs[2]))
        else None
      else None
    case DELETE =>
      if |segs| == 2 && segs[0] == "posts" && segs[1] != "" then Some(DeletePost(segs[1]))
      else if |segs| == 4 && segs[0] == "posts" && segs[1] == "comment" && segs[2] != "" && segs[3] != "" then
        Some(DeleteComment(segs[2], segs[3]))
      else None
  }

  /** The operation the server performs for a request: the fragment after `#` is never sent,
      the query after the first `?` is read as `&`-separated pairs, and the path as
      `/`-separated segments. */
  function RouteOf(req: Request): Option<Operation> {
    var target := Split(req.path, '#')[0];
    var parts := Split(target, '?');
    var path := parts[0];
    if path == [] || path[0] != '/' then None
    else
      var segs := Split(path[1..], '/');
      if |parts| == 1 then OperationOf(req.verb, segs, req.body)
      else if req.verb == GET && segs == ["users", "search"] then
        var q := QueryParam(Split(Join(parts[1..], '?'), '&'), "q");
        if q.Some? then Some(SearchUsers(q.value)) else None
      else None
  }

  /** A string without the separator splits into itself. */
  lemma SplitNoSeparator(s: string, sep: char)
    requires sep !in s
    ensures Split(s, sep) == [s]
  {
    SplitJoin([s], sep);
  }

  /** Routing a path made of "/" and separator-free segments, with no query or fragment,
      reads the segments back. */
  lemma RoutePlainPath(verb: Verb, segs: seq<string>, body: Body)
    requires |segs| >= 1
    requires forall i :: 0 <= i < |segs| ==> '/' !in segs[i] && '?' !in segs[i] && '#' !in segs[i]
    ensures RouteOf(Request(verb, "/" + Join(segs, '/'), body)) == OperationOf(verb, segs, body)
  {
    var path := "/" + Join(segs, '/');
    NoCharInJoin(segs, '/', '#');
    NoCharInJoin(segs, '/', '?');
    SplitNoSeparator(path, '#');
    SplitNoSeparator(path, '?');
    assert path[1..] == Join(segs, '/');
    SplitJoin(segs, '/');
  }

  /** A path with a query string: the fragment split keeps it whole, the first `?` ends the
      route path, and the rest joins back into the query. */
  lemma QueryPathParts(segs: seq<string>, query: string)
    requires |segs| >= 1
    requires forall i :: 0 <= i < |segs| ==> '/' !in segs[i] && '?' !in segs[i] && '#' !in segs[i]
    requires '#' !in query
    ensures var path := "/" + Join(segs, '/') + "?" + query;
      Split(path, '#')[0] == path &&
      |Split(path, '?')| >= 2 &&
      Split(path, '?')[0] == "/" + Join(segs, '/') &&
      Join(Split(path, '?')[1..], '?') == query
  {
    var p := "/" + Join(segs, '/');
    var path := p + "?" + query;
    NoCharInJoin(segs, '/', '#');
    NoCharInJoin(segs, '/', '?');
    assert path == p + ("?" + query);
    assert '#' !in path;
    SplitNoSeparator(path, '#');
    SplitPrefix(p, "?" + query, '?');
    assert ("?" + query)[0] == '?' && ("?" + query)[1..] == query;
    JoinSplit(query, '?');
  }

  /** A path with a query string routes only as the user search, reading its `q` parameter. */
  lemma RouteQuery(verb: Verb, segs: seq<string>, query: string, body: Body)
    requires |segs| >= 1
    requires forall i :: 0 <= i < |segs| ==> '/' !in segs[i] && '?' !in segs[i] && '#' !in segs[i]
    requires '#' !in query
    ensures RouteOf(Request(verb, "/" + Join(segs, '/') + "?" + query, body)) ==
      if verb == GET && segs == ["users", "search"] then
        var q := QueryParam(Split(query, '&'), "q");
        if q.Some? then Some(SearchUsers(q.value)) else None
      else None
  {
    var p := "/" + Join(segs, '/');
    QueryPathParts(segs, query);
    assert p[1..] == Join(segs, '/');
    SplitJoin(segs, '/');
  }

  /** Joins of two, three and four pieces, written out. */
  lemma JoinSmall(a: string, b: string, c: string, d: string, sep: char)
    ensures Join([a, b], sep) == a + [sep] + b
    ensures Join([a, b, c], sep) == a + [sep] + b + [sep] + c
    ensures Join([a, b, c, d], sep) == a + [sep] + b + [sep] + c + [sep] + d
  {
    assert [a, b][1..] == [b] && [a, b, c][1..] == [b, c] && [a, b, c, d][1..] == [b, c, d];
    assert [c, d][1..] == [d];
    assert Join([d], sep) == d;
    assert Join([c, d], sep) == c + [sep] + d;
    assert Join([b, c, d], sep) == b + [sep] + c + [sep] + d;
    assert Join([c], sep) == c;
    assert Join([b, c], sep) == b + [sep] + c;
  }

  /** A request whose path is "/a" for a segment `a` performs what `OperationOf` names for it. */
  lemma RouteOne(verb: Verb, a: string, body: Body, path: string, op: Operation)
    requires Segment(a)
    requires path == "/" + a
    requires OperationOf(verb, [a], body) == Some(op)
    ensures RouteOf(Request(verb, path, body)) == Some(op)
  {
    SplitNoSeparator(a, '/');
    assert path == "/" + Join([a], '/');
    RoutePlainPath(verb, [a], body);
  }

  /** The same for "/a/b". */
  lemma RouteTwo(verb: Verb, a: string, b: string, body: Body, path: string, op: Operation)
    requires Segment(a) && Segment(b)
    requires path == "/" + a + "/" + b
    requires OperationOf(verb, [a, b], body) == Some(op)
    ensures RouteOf(Request(verb, path, body)) == Some(op)
  {
    JoinSmall(a, b, "", "", '/');
    assert path == "/" + Join([a, b], '/');
    RoutePlainPath(verb, [a, b], body);
  }

  /** The same for "/a/b/c". */
  lemma RouteThree(verb: Verb, a: string, b: string, c: string, body: Body, path: string, op: Operation)
    requires Segment(a) && Segment(b) && Segment(c)
    requires path == "/" + a + "/" + b + "/" + c
    requires OperationOf(verb, [a, b, c], body) == Some(op)
    ensures RouteOf(Request(verb, path, body)) == Some(op)
  {
    JoinSmall(a, b, c, "", '/');
    assert path == "/" + Join([a, b, c], '/');
    RoutePlainPath(verb, [a, b, c], body);
  }

  /** The same for "/a/b/c/d". */
  lemma RouteFour(verb: Verb, a: string, b: string, c: string, d: string, body: Body, path: string, op: Operation)
    requires Segment(a) && Segment(b) && Segment(c) && Segment(d)
    requires path == "/" + a + "/" + b + "/" + c + "/" + d
    requires OperationOf(verb, [a, b, c, d], body) == Some(op)
    ensures RouteOf(Request(verb, path, body)) == Some(op)
  {
    JoinSmall(a, b, c, d, '/');
    assert path == "/" + Join([a, b, c, d], '/');
    RoutePlainPath(verb, [a, b, c, d], body);
  }

  /** A character other than the separator that no piece holds is not in their join. */
  lemma {:induction false} NoCharInJoin(ws: seq<string>, sep: char, c: char)
    requires |ws| >= 1 && c != sep
    requires forall i :: 0 <= i < |ws| ==> c !in ws[i]
    ensures c !in Join(ws, sep)
  {
    if |ws| > 1 {
      NoCharInJoin(ws[1..], sep, c);
    }
  }
}
