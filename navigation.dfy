/**
 * The navigation host: the preview route that carries two Base64 path
 * arguments, the bottom bar's tabs, gating on the authentication state,
 * the result screen's wait for both view-model slots, and loading the
 * signed-in user's record. A route is chosen as a string; the navigation
 * library's own work is not modelled.
 */
module Navigation {
  import opened Wrappers
  import opened Documents
  import opened Recipes
  import opened Base64
  import opened Auth

  const PreviewPrefix: string := "photo_preview/"

  /** The first '/' in `s`, if any. */
  function IndexOfSlash(s: string): (r: Option<nat>)
    ensures r.Some? ==> r.value < |s| && s[r.value] == '/' && '/' !in s[..r.value]
    ensures r.None? ==> '/' !in s
  {
    if s == [] then None
    else if s[0] == '/' then Some(0)
    else
      match IndexOfSlash(s[1..])
      case None => None
      case Some(i) =>
        assert s[..i + 1] == [s[0]] + s[1..][..i];
        Some(i + 1)
  }

  /**
   * Matching a route against `photo_preview/{encodedUri}/{encodedPhotoUrl}`:
   * after the fixed prefix come exactly two non-empty segments, neither
   * containing '/'.
   */
  function ParsePreviewRoute(route: string): (r: Option<(string, string)>)
    ensures r.Some? ==>
              route == PreviewPrefix + r.value.0 + "/" + r.value.1
              && r.value.0 != "" && r.value.1 != "" && '/' !in r.value.0 && '/' !in r.value.1
  {
    if |route| < |PreviewPrefix| || route[..|PreviewPrefix|] != PreviewPrefix then None
    else
      var rest := route[|PreviewPrefix|..];
      match IndexOfSlash(rest)
      case None => None
      case Some(j) =>
        var first, second := rest[..j], rest[j + 1..];
        if first != "" && second != "" && '/' !in second then
          assert rest == first + "/" + second;
          assert route == route[..|PreviewPrefix|] + rest;
          Some((first, second))
        else None
  }

  /** Past a slash-free prefix, the first '/' is the first '/' of what follows. */
  lemma {:induction false} IndexOfSlashAfter(first: string, rest: string)
    requires '/' !in first
    ensures IndexOfSlash(first + rest)
            == match IndexOfSlash(rest) case None => None case Some(i) => Some(|first| + i)
    decreases |first|
  {
    if first == [] {
      assert first + rest == rest;
    } else {
      assert (first + rest)[1..] == first[1..] + rest;
      IndexOfSlashAfter(first[1..], rest);
    }
  }

  /** When the prefix holds a '/', the first '/' lies inside it. */
  lemma {:induction false} IndexOfSlashWithin(first: string, rest: string)
    requires '/' in first
    ensures IndexOfSlash(first + rest) == IndexOfSlash(first)
    decreases |first|
  {
    if first[0] != '/' {
      assert (first + rest)[1..] == first[1..] + rest;
      IndexOfSlashWithin(first[1..], rest);
    }
  }

  /** How the route built from two segments splits after the prefix. */
  lemma SplitBuiltRoute(e1: string, e2: string)
    ensures var route := PreviewPrefix + e1 + "/" + e2;
            |route| >= |PreviewPrefix| && route[..|PreviewPrefix|] == PreviewPrefix
            && route[|PreviewPrefix|..] == e1 + "/" + e2
  {
  }

  /** Any two non-empty segments without '/' are recovered from the route built out of them. */
  lemma ParsePreviewRouteComplete(first: string, second: string)
    requires first != "" && second != "" && '/' !in first && '/' !in second
    ensures ParsePreviewRoute(PreviewPrefix + first + "/" + second) == Some((first, second))
  {
    var rest := first + "/" + second;
    SplitBuiltRoute(first, second);
    IndexOfSlashAfter(first, "/" + second);
    assert first + ("/" + second) == rest;
    assert rest[..|first|] == first && rest[|first| + 1..] == second;
  }

  /**
   * `"photo_preview/" + toBase64(uri) + "/" + toBase64(photoUrl)`, with `a`
   * the alphabet `toBase64` uses. The route matches the preview destination
   * exactly when both encodings are non-empty and free of '/', and the
   * preview then receives the two strings that were encoded.
   */
  function PreviewRoute(a: Alphabet, uri: string, photoUrl: string): (route: string)
    ensures ParsePreviewRoute(route).Some?
            <==> uri != "" && photoUrl != ""
                 && '/' !in EncodeString(a, uri) && '/' !in EncodeString(a, photoUrl)
    ensures ParsePreviewRoute(route).Some? ==> OpenPreview(a, route) == Some((uri, photoUrl))
  {
    BuiltRouteMatches(a, uri, photoUrl);
    PreviewPrefix + EncodeString(a, uri) + "/" + EncodeString(a, photoUrl)
  }

  /** The case analysis behind `PreviewRoute`: a built route splits back into its two encodings, or matches nothing. */
  lemma BuiltRouteMatches(a: Alphabet, uri: string, photoUrl: string)
    ensures var e1, e2 := EncodeString(a, uri), EncodeString(a, photoUrl);
            var route := PreviewPrefix + e1 + "/" + e2;
            && (ParsePreviewRoute(route).Some? <==> uri != "" && photoUrl != "" && '/' !in e1 && '/' !in e2)
            && (ParsePreviewRoute(route).Some? ==> OpenPreview(a, route) == Some((uri, photoUrl)))
  {
    var e1, e2 := EncodeString(a, uri), EncodeString(a, photoUrl);
    if uri != "" && photoUrl != "" && '/' !in e1 && '/' !in e2 {
      ParsePreviewRouteComplete(e1, e2);
      DecodeEncodeString(a, uri);
      DecodeEncodeString(a, photoUrl);
    } else {
      RouteWithoutBothSegments(e1, e2);
    }
  }

  /**
   * The preview screen's arguments for a route: shown only when the route
   * matches and both arguments decode; `None` when no screen is shown.
   */
  function OpenPreview(a: Alphabet, route: string): (r: Option<(string, string)>)
    ensures r.Some? <==>
              && ParsePreviewRoute(route).Some?
              && DecodeString(a, ParsePreviewRoute(route).value.0).Some?
              && DecodeString(a, ParsePreviewRoute(route).value.1).Some?
    ensures r.Some? ==>
              && DecodeString(a, ParsePreviewRoute(route).value.0) == Some(r.value.0)
              && DecodeString(a, ParsePreviewRoute(route).value.1) == Some(r.value.1)
  {
    match ParsePreviewRoute(route)
    case None => None
    case Some((encodedUri, encodedPhotoUrl)) =>
      match (DecodeString(a, encodedUri), DecodeString(a, encodedPhotoUrl))
      case (Some(uri), Some(photoUrl)) => Some((uri, photoUrl))
      case _ => None
  }

  /**
   * With the URL-safe alphabet the preview screen receives exactly the
   * image URI and photo URL the camera screen encoded, whenever both are
   * non-empty; an empty one matches no destination.
   */
  lemma UrlSafeRouteOpens(uri: string, photoUrl: string)
    ensures OpenPreview(UrlSafe, PreviewRoute(UrlSafe, uri, photoUrl))
            == if uri != "" && photoUrl != "" then Some((uri, photoUrl)) else None
  {
    UrlSafeHasNoSlash(Utf8.Encode(uri));
    UrlSafeHasNoSlash(Utf8.Encode(photoUrl));
  }

  /** A route whose first or second segment is empty, or which has a '/' inside a segment, matches nothing. */
  lemma RouteWithoutBothSegments(e1: string, e2: string)
    requires e1 == "" || e2 == "" || '/' in e1 || '/' in e2
    ensures ParsePreviewRoute(PreviewPrefix + e1 + "/" + e2) == None
  {
    var rest := e1 + "/" + e2;
    SplitBuiltRoute(e1, e2);
    assert rest == e1 + ("/" + e2);
    if '/' in e1 {
      IndexOfSlashWithin(e1, "/" + e2);
      var j := IndexOfSlash(e1).value;
      assert rest[j + 1..][|e1| - j - 1] == rest[|e1|] == '/';
    } else {
      IndexOfSlashAfter(e1, "/" + e2);
      assert rest[..|e1|] == e1 && rest[|e1| + 1..] == e2;
    }
  }

  /**
   * With the standard alphabet of `toBase64`/`fromBase64`, the preview
   * screen opens on the right arguments exactly when neither encoding
   * contains '/', and otherwise on none.
   */
  lemma StandardRouteOpensIff(uri: string, photoUrl: string)
    ensures var e1, e2 := EncodeString(Standard, uri), EncodeString(Standard, photoUrl);
            OpenPreview(Standard, PreviewRoute(Standard, uri, photoUrl))
            == if uri != "" && photoUrl != "" && '/' !in e1 && '/' !in e2 then Some((uri, photoUrl)) else None
  {
  }

  /** The UTF-8 bytes of "ab?" and their standard Base64 encoding. */
  lemma EncodeAbQuestion()
    ensures EncodeString(Standard, "ab?") == "YWI/"
  {
    assert Utf8.Encode("ab?") == [0x61, 0x62, 0x3F];
    assert Encode(Standard, [0x61, 0x62, 0x3F]) == EncodeGroup(Standard, 0x61, 0x62, 0x3F);
    assert CharOf(Standard, 24) == 'Y' && CharOf(Standard, 22) == 'W';
    assert CharOf(Standard, 8) == 'I' && CharOf(Standard, 63) == '/';
  }

  /**
   * The route as written breaks on an ordinary input: the UTF-8 bytes of
   * "ab?" encode to "YWI/", so the route has three segments after the
   * prefix, matches no destination (and `navigate` throws), and no preview
   * screen opens.
   */
  lemma StandardRouteBreaks(photoUrl: string)
    ensures ParsePreviewRoute(PreviewRoute(Standard, "ab?", photoUrl)) == None
    ensures OpenPreview(Standard, PreviewRoute(Standard, "ab?", photoUrl)) == None
  {
    EncodeAbQuestion();
    assert "YWI/"[3] == '/';
  }

  /** The destinations the host declares, as route patterns. */
  const Destinations: set<string> := {
    "login", "signup", "homepage", "profile", "update", "camera",
    "photo_preview/{encodedUri}/{encodedPhotoUrl}", "recipeResult/{title}",
    "post/{postId}", "user_profile/{userId}" }

  /** The route a bottom-bar tab navigates to; any index beyond the three tabs navigates nowhere. */
  function TabRoute(index: int): (route: Option<string>) {
    match index
    case 0 => Some("homepage")
    case 1 => Some("camera")
    case 2 => Some("profile")
    case _ => None
  }

  /** Exactly the three tabs have a route; each is a declared destination, and no two tabs share one. */
  lemma TabRoutes(i: int, j: int)
    ensures TabRoute(i).Some? <==> 0 <= i <= 2
    ensures TabRoute(i).Some? ==> TabRoute(i).value in Destinations
    ensures TabRoute(i).Some? && TabRoute(i) == TabRoute(j) ==> i == j
  {
  }

  class BottomBar {
    var selectedIndex: int
    /** The routes navigated to by tab presses, oldest first. */
    var navigations: seq<string>

    constructor ()
      ensures selectedIndex == 0 && navigations == []
    {
      selectedIndex, navigations := 0, [];
    }

    /** A tab press always selects the pressed index, and navigates only for the three tabs. */
    method Click(index: int)
      modifies this
      ensures selectedIndex == index
      ensures navigations == old(navigations) + (if TabRoute(index).Some? then [TabRoute(index).value] else [])
    {
      selectedIndex := index;
      match TabRoute(index) {
        case Some(route) => navigations := navigations + [route];
        case None =>
      }
    }
  }

  /** The bottom bar is drawn only for a signed-in user. */
  predicate ShowBottomBar(state: AuthState) {
    state == Authenticated
  }

  /** What a change of authentication state triggers. */
  datatype AuthEffect = LoadUser(email: string) | NoEffect | NavigateToLogin

  /**
   * On `Authenticated`, the user's record is loaded by e-mail (nothing
   * happens if the provider has no e-mail); on any other state the host
   * returns to the login screen.
   */
  function OnAuthState(state: AuthState, email: Option<string>): (e: AuthEffect)
    ensures e == NavigateToLogin <==> !state.Authenticated?
    ensures e.LoadUser? ==> email == Some(e.email)
  {
    if state.Authenticated? then
      match email
      case Some(e) => LoadUser(e)
      case None => NoEffect
    else NavigateToLogin
  }

  /** The bar is drawn exactly in the states that do not send the user back to login. */
  lemma GatingAgrees(state: AuthState, email: Option<string>)
    ensures ShowBottomBar(state) <==> OnAuthState(state, email) != NavigateToLogin
    ensures OnAuthState(state, email).LoadUser? <==> ShowBottomBar(state) && email.Some?
  {
  }

  /** What the result destination draws. */
  datatype ResultView = ShowResult(recipe: RecipeResponse, userPhotoUrl: string) | ShowProgress

  /** The result screen, drawn once both view-model slots are filled, a progress indicator until then. */
  function ResultScreen(recipe: Option<RecipeResponse>, userPhotoUrl: Option<string>): (v: ResultView)
    ensures v.ShowResult? <==> recipe.Some? && userPhotoUrl.Some?
    ensures v.ShowResult? ==> v.recipe == recipe.value && v.userPhotoUrl == userPhotoUrl.value
  {
    if recipe.Some? && userPhotoUrl.Some? then ShowResult(recipe.value, userPhotoUrl.value) else ShowProgress
  }

  /** The fields of the user record one matching document supplies. */
  datatype UserFields = UserFields(
    name: string, surname: string, username: string, bio: string, image: string,
    posts: Option<seq<Value>>, followers: Option<seq<Value>>, following: Option<seq<Value>>)

  /**
   * One document's fields: strings default to "" when absent, lists are
   * kept only when the field is a list; a string field of another type
   * makes the read throw, which is `Err`.
   */
  function UserFieldsOf(d: Doc): (r: Result<UserFields>)
    ensures r.Ok? <==> GetString(d, "name").Ok? && GetString(d, "surname").Ok? && GetString(d, "username").Ok?
                       && GetString(d, "bio").Ok? && GetString(d, "image").Ok?
    ensures r.Ok? ==> r.value.name == GetString(d, "name").value.GetOr("")
                      && r.value.surname == GetString(d, "surname").value.GetOr("")
                      && r.value.username == GetString(d, "username").value.GetOr("")
                      && r.value.bio == GetString(d, "bio").value.GetOr("")
                      && r.value.image == GetString(d, "image").value.GetOr("")
    ensures r.Ok? ==> r.value.posts == AsList(Field(d, "posts"))
                      && r.value.followers == AsList(Field(d, "followers"))
                      && r.value.following == AsList(Field(d, "following"))
  {
    var name, surname := GetString(d, "name"), GetString(d, "surname");
    var username, bio, image := GetString(d, "username"), GetString(d, "bio"), GetString(d, "image");
    if name.Err? || surname.Err? || username.Err? || bio.Err? || image.Err? then
      Err(Some(WrongTypeMessage))
    else
      Ok(UserFields(name.value.GetOr(""), surname.value.GetOr(""), username.value.GetOr(""),
                    bio.value.GetOr(""), image.value.GetOr(""),
                    AsList(Field(d, "posts")), AsList(Field(d, "followers")), AsList(Field(d, "following"))))
  }

  /** The record `signup` writes loads back with the given name and surname, empty strings and empty lists. */
  lemma SignupRecordLoadsBack(name: string, surname: string, email: string)
    ensures UserFieldsOf(NewUserDoc(name, surname, email))
            == Ok(UserFields(name, surname, "", "", "", Some([]), Some([]), Some([])))
  {
    var d := NewUserDoc(name, surname, email);
    assert Field(d, "name") == Str(name) && Field(d, "surname") == Str(surname);
    assert Field(d, "username") == Str("") && Field(d, "bio") == Str("") && Field(d, "image") == Str("");
    assert Field(d, "posts") == List([]) && Field(d, "followers") == List([]) && Field(d, "following") == List([]);
  }

  /** Whether every document of a query result can be read into the record. */
  predicate AllReadable(docs: seq<Snapshot>) {
    forall i | 0 <= i < |docs| :: Readable(docs[i])
  }

  predicate Readable(doc: Snapshot) {
    UserFieldsOf(doc.data).Ok?
  }

  /** The record holds the fields `f` read from one document, and the signed-in e-mail. */
  predicate Holds(user: UserRecord, f: UserFields, email: string)
    reads user
  {
    user.name == Some(f.name) && user.surname == Some(f.surname) && user.username == Some(f.username)
    && user.bio == Some(f.bio) && user.image == Some(f.image)
    && user.posts == f.posts && user.followers == f.followers && user.following == f.following
    && user.email == Some(email)
  }

  /** The body of the loop for one readable document: `user.apply { ... }` and then the e-mail. */
  method Apply(user: UserRecord, f: UserFields, email: string)
    modifies user
    ensures Holds(user, f, email)
  {
    user.name, user.surname, user.username := Some(f.name), Some(f.surname), Some(f.username);
    user.bio, user.image := Some(f.bio), Some(f.image);
    user.posts, user.followers, user.following := f.posts, f.followers, f.following;
    user.email := Some(email);
  }

  /**
   * The user loader's loop over the matching documents: each one
   * overwrites the record and sets the e-mail, so the last one wins. A
   * document whose string field has another type throws inside the
   * listener; `crashed` reports it. A failed query changes nothing.
   */
  method LoadUserRecord(user: UserRecord, email: string, query: Result<seq<Snapshot>>) returns (crashed: bool)
    modifies user
    ensures query.Err? ==> !crashed && unchanged(user)
    ensures query.Ok? ==> (crashed <==> !AllReadable(query.value))
    ensures query.Ok? && query.value == [] ==> unchanged(user)
    ensures query.Ok? && query.value != [] && !crashed ==>
              Holds(user, UserFieldsOf(query.value[|query.value| - 1].data).value, email)
  {
    crashed := false;
    if query.Err? {
      return;
    }
    var docs := query.value;
    var i := 0;
    while i < |docs|
      invariant 0 <= i <= |docs|
      invariant forall k | 0 <= k < i :: Readable(docs[k])
      invariant i == 0 ==> unchanged(user)
      invariant i > 0 ==> Holds(user, UserFieldsOf(docs[i - 1].data).value, email)
    {
      var fields := UserFieldsOf(docs[i].data);
      if fields.Err? {
        crashed := true;
        return;
      }
      Apply(user, fields.value, email);
      i := i + 1;
    }
  }
}
