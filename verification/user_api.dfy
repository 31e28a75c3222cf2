/** The user endpoints: following, the profile update body, and the search request, whose
    query is sent without encoding. */
module UserApi {
  import opened Common
  import opened Strings
  import opened Http

  /** `followUser`: PUT /users/follow/:userId. For an id that is one path segment, the server
      toggles following that user. */
  function FollowRequest(userId: string): (r: Request)
    ensures Segment(userId) ==> RouteOf(r) == Some(FollowUser(userId))
  {
    var r := Request(PUT, "/users/follow/" + userId, NoBody);
    if Segment(userId) then
      assert "users" != "posts" by { assert "users"[0] != "posts"[0]; }
      RouteThree(PUT, "users", "follow", userId, NoBody, r.path, FollowUser(userId));
      r
    else r
  }

  const ProfileFieldOrder: seq<string> := ["username", "bio", "profilePic"]

  /** The multipart body of `updateProfile`: `username` and `bio` whenever they are not
      `undefined` (even when empty), `profilePic` when a file is given, in that order. The
      server reads back exactly `data`. */
  method UpdateProfileForm(data: ProfileEdit) returns (form: seq<Field>)
    ensures FollowsOrder(form, ProfileFieldOrder)
    ensures ReadProfileEdit(form) == data
  {
    ghost var f1 := Field("username", Text(if data.username.Some? then data.username.value else ""));
    ghost var f2 := Field("bio", Text(if data.bio.Some? then data.bio.value else ""));
    ghost var f3 := Field("profilePic", Blob(if data.profilePic.Some? then data.profilePic.value else Entities.FileRef("", 0)));
    form := [];
    if data.username.Some? {
      form := form + [Field("username", Text(data.username.value))];
    }
    assert form == Optional(data.username.Some?, f1);
    if data.bio.Some? {
      form := form + [Field("bio", Text(data.bio.value))];
    }
    assert form == Optional(data.username.Some?, f1) + Optional(data.bio.Some?, f2);
    if data.profilePic.Some? {
      form := form + [Field("profilePic", Blob(data.profilePic.value))];
    }
    assert form == Optional(data.username.Some?, f1) + Optional(data.bio.Some?, f2) + Optional(data.profilePic.Some?, f3);
    ThreeFieldsRead(data.username.Some?, f1, data.bio.Some?, f2, data.profilePic.Some?, f3);
    ThreeFieldsOrder(data.username.Some?, f1, data.bio.Some?, f2, data.profilePic.Some?, f3);
  }

  /** `updateProfile`: PUT /users/profile with that body. */
  method UpdateProfileRequest(data: ProfileEdit) returns (r: Request)
    ensures r.body.Multipart? && FollowsOrder(r.body.fields, ProfileFieldOrder)
    ensures RouteOf(r) == Some(UpdateProfile(data))
  {
    var form := UpdateProfileForm(data);
    r := Request(PUT, "/users/profile", Multipart(form));
    RoutesUpdateProfile(form);
  }

  lemma RoutesUpdateProfile(form: seq<Field>)
    ensures RouteOf(Request(PUT, "/users/profile", Multipart(form))) == Some(UpdateProfile(ReadProfileEdit(form)))
  {
    assert "users" != "posts" by { assert "users"[0] != "posts"[0]; }
    RouteTwo(PUT, "users", "profile", Multipart(form), "/users/profile", UpdateProfile(ReadProfileEdit(form)));
  }

  // ----- search -----

  /** The `q` pair of a query is read up to the first `&` and decoded. */
  lemma SearchQueryValue(text: string)
    ensures QueryParam(Split("q=" + text, '&'), "q") == Some(Decode(Split(text, '&')[0]))
  {
    SplitPrefix("q=", text, '&');
    var pairs := Split("q=" + text, '&');
    assert pairs[0] == "q=" + Split(text, '&')[0];
    assert "q=" <= pairs[0];
    assert pairs[0][2..] == Split(text, '&')[0];
  }

  /** Routing GET /users/search?q=<text>: the server reads the decoded text up to the first
      `&`, whatever else the text holds, unless a `#` cuts it short. */
  lemma RouteSearch(text: string, path: string)
    requires '#' !in text
    requires path == "/users/search?q=" + text
    ensures RouteOf(Request(GET, path, NoBody)) == Some(SearchUsers(Decode(Split(text, '&')[0])))
  {
    JoinSmall("users", "search", "", "", '/');
    assert path == "/" + Join(["users", "search"], '/') + "?" + ("q=" + text);
    assert '#' !in "q=" + text;
    RouteQuery(GET, ["users", "search"], "q=" + text, NoBody);
    SearchQueryValue(text);
  }

  /** `searchUsers` as written: the query is pasted into the URL unencoded, so the server
      searches for the decoded text before the first `&`. */
  function SearchRequest(query: string): (r: Request)
    ensures '#' !in query ==> RouteOf(r) == Some(SearchUsers(Decode(Split(query, '&')[0])))
  {
    var r := Request(GET, "/users/search?q=" + query, NoBody);
    if '#' !in query then
      RouteSearch(query, r.path);
      r
    else r
  }

  /** A query holding `&` reaches the server cut at the `&`. */
  lemma SearchAmpersandTruncates()
    ensures RouteOf(SearchRequest("a&b")) == Some(SearchUsers("a"))
    ensures RouteOf(SearchRequest("a&b")) != Some(SearchUsers("a&b"))
  {
    RouteSearch("a&b", "/users/search?q=" + "a&b");
    SplitNoSeparator("b", '&');
    assert "&b"[1..] == "b" && "a&b"[1..] == "&b";
    assert Split("&b", '&') == ["", "b"];
    assert Split("a&b", '&')[0] == "a";
    assert Decode("a") == "a";
  }

  /** A query holding `+` reaches the server with a space in its place. */
  lemma SearchPlusBecomesSpace()
    ensures RouteOf(SearchRequest("a+b")) == Some(SearchUsers("a b"))
  {
    RouteSearch("a+b", "/users/search?q=" + "a+b");
    SplitNoSeparator("a+b", '&');
    assert Decode("b") == "b";
    assert Decode("+b") == " b";
    assert Decode("a+b") == "a b";
  }

  /** The percent-escape of one character the query parser treats specially, or the character
      itself. */
  function EscapeChar(c: char): (r: string)
    ensures r == [c] <==> c !in "%&#+"
    ensures '&' !in r && '#' !in r && '+' !in r
  {
    if c == '%' then "%25"
    else if c == '&' then "%26"
    else if c == '#' then "%23"
    else if c == '+' then "%2B"
    else [c]
  }

  /** Percent-encoding of a query value: `%`, `&`, `#` and `+` become `%25`, `%26`, `%23`
      and `%2B`; every other character stands for itself. */
  function EncodeQuery(q: string): (r: string)
    ensures '&' !in r && '#' !in r && '+' !in r
    ensures |r| >= |q|
  {
    if q == [] then "" else EscapeChar(q[0]) + EncodeQuery(q[1..])
  }

  /** Decoding undoes one escaped character in front of any rest. */
  lemma DecodeEscape(c: char, rest: string)
    ensures Decode(EscapeChar(c) + rest) == [c] + Decode(rest)
  {
    var e := EscapeChar(c) + rest;
    if c in "%&#+" {
      assert |EscapeChar(c)| == 3 && e[0] == '%' && e[3..] == rest;
    } else {
      assert e[0] == c && e[1..] == rest;
    }
  }

  /** Decoding undoes the encoding. */
  lemma {:induction false} DecodeEncode(q: string)
    ensures Decode(EncodeQuery(q)) == q
  {
    if q != [] {
      DecodeEscape(q[0], EncodeQuery(q[1..]));
      DecodeEncode(q[1..]);
      assert [q[0]] + q[1..] == q;
    }
  }

  /** `searchUsers` with the query encoded: the server searches for exactly the query. */
  function SearchRequestEncoded(query: string): (r: Request)
    ensures RouteOf(r) == Some(SearchUsers(query))
  {
    var text := EncodeQuery(query);
    RouteSearch(text, "/users/search?q=" + text);
    SplitNoSeparator(text, '&');
    DecodeEncode(query);
    SearchRequest(text)
  }
}
