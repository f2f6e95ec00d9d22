/**
 * The home feed: post documents, already ordered newest first by the query,
 * are turned one by one into feed posts; a document that lacks an author,
 * whose author cannot be fetched, that has no recipe map or that throws while
 * being read is skipped. The like button then edits the loaded list locally.
 */
module Feed {
  import opened Wrappers
  import opened Documents
  import opened Recipes

  datatype FeedPost = FeedPost(
    id: string,
    userId: string,
    userName: string,
    userImage: string,
    recipe: RecipeResponse,
    userPhotoUrl: string,
    recipePhotoUrl: string,
    timestamp: int,
    likes: int,
    likedByCurrentUser: bool)

  /** `doc.get("likedBy") as? List<String> ?: emptyList()` */
  function LikedBy(d: Doc): (likers: seq<Value>) {
    AsList(Field(d, "likedBy")).GetOr([])
  }

  /** `currentUser?.uid?.let { uid -> list.contains(uid) } ?: false` */
  predicate ContainsUid(list: seq<Value>, uid: Option<string>) {
    uid.Some? && Str(uid.value) in list
  }

  /**
   * The post one document gives, once its author's id, display name and
   * image are known; `now` is the clock reading used for a missing timestamp.
   * Used by the feed and by the profile screen alike.
   */
  function BuildPost(doc: Snapshot, userId: string, userName: string, userImage: string,
                     uid: Option<string>, now: int): (r: Option<FeedPost>)
    ensures !Field(doc.data, "recipe").Map? ==> r.None?
    ensures r.Some? ==>
      var p := r.value;
      && p.id == doc.id && p.userId == userId && p.userName == userName && p.userImage == userImage
      && ParseRecipe(Field(doc.data, "recipe").fields) == Ok(p.recipe)
      && p.likes == |LikedBy(doc.data)|
      && (p.likedByCurrentUser <==> ContainsUid(LikedBy(doc.data), uid))
      && (Field(doc.data, "userPhotoUrl").Null? ==> p.userPhotoUrl == "")
      && (Field(doc.data, "userPhotoUrl").Str? ==> p.userPhotoUrl == Field(doc.data, "userPhotoUrl").s)
      && (Field(doc.data, "recipePhotoUrl").Null? ==> p.recipePhotoUrl == "")
      && (Field(doc.data, "recipePhotoUrl").Str? ==> p.recipePhotoUrl == Field(doc.data, "recipePhotoUrl").s)
      && (Field(doc.data, "timestamp").Null? ==> p.timestamp == now)
      && (Field(doc.data, "timestamp").Time? ==> p.timestamp == Field(doc.data, "timestamp").millis)
    ensures r.Some? <==>
      Field(doc.data, "recipe").Map?
      && ParseRecipe(Field(doc.data, "recipe").fields).Ok?
      && GetString(doc.data, "userPhotoUrl").Ok?
      && GetString(doc.data, "recipePhotoUrl").Ok?
      && GetTimestamp(doc.data, "timestamp").Ok?
  {
    match AsMap(Field(doc.data, "recipe"))
    case None => None
    case Some(recipeMap) =>
      match ParseRecipe(recipeMap)
      case Err(_) => None
      case Ok(recipe) =>
        var likedBy := LikedBy(doc.data);
        match (GetString(doc.data, "userPhotoUrl"), GetString(doc.data, "recipePhotoUrl"), GetTimestamp(doc.data, "timestamp"))
        case (Ok(userPhotoUrl), Ok(recipePhotoUrl), Ok(timestamp)) =>
          Some(FeedPost(doc.id, userId, userName, userImage, recipe,
                        userPhotoUrl.GetOr(""), recipePhotoUrl.GetOr(""), timestamp.GetOr(now),
                        |likedBy|, ContainsUid(likedBy, uid)))
        case _ => None
  }

  /** `"${userDoc.getString("name")} ${userDoc.getString("surname")}"`: a missing part is the text "null". */
  function DisplayName(userDoc: Doc): (r: Result<string>)
    ensures r.Ok? <==> GetString(userDoc, "name").Ok? && GetString(userDoc, "surname").Ok?
    ensures r.Ok? ==> r.value == Render(GetString(userDoc, "name").value) + " " + Render(GetString(userDoc, "surname").value)
  {
    match (GetString(userDoc, "name"), GetString(userDoc, "surname"))
    case (Ok(n), Ok(s)) => Ok(Render(n) + " " + Render(s))
    case (Err(e), _) => Err(e)
    case (_, Err(e)) => Err(e)
  }

  /**
   * What the feed loop makes of one document: skip it without an author id,
   * when its author's document cannot be fetched, or when anything throws.
   * `fetchUser` stands for reading a user document (a missing one reads as empty).
   */
  function FeedPostOf(doc: Snapshot, fetchUser: string -> Result<Doc>, uid: Option<string>, now: int): (r: Option<FeedPost>)
    ensures !Field(doc.data, "userId").Str? ==> r.None?
    ensures !Field(doc.data, "recipe").Map? ==> r.None?
    ensures r.Some? <==>
      && Field(doc.data, "userId").Str?
      && fetchUser(Field(doc.data, "userId").s).Ok?
      && DisplayName(fetchUser(Field(doc.data, "userId").s).value).Ok?
      && GetString(fetchUser(Field(doc.data, "userId").s).value, "image").Ok?
      && BuildPost(doc, Field(doc.data, "userId").s,
                   DisplayName(fetchUser(Field(doc.data, "userId").s).value).value,
                   GetString(fetchUser(Field(doc.data, "userId").s).value, "image").value.GetOr(""), uid, now).Some?
    ensures r.Some? ==>
      var userDoc := fetchUser(Field(doc.data, "userId").s).value;
      r == BuildPost(doc, Field(doc.data, "userId").s, DisplayName(userDoc).value,
                     GetString(userDoc, "image").value.GetOr(""), uid, now)
    ensures r.Some? ==>
      && r.value.userId == Field(doc.data, "userId").s
      && fetchUser(r.value.userId).Ok?
      && Ok(r.value.userName) == DisplayName(fetchUser(r.value.userId).value)
      && r.value.likes == |LikedBy(doc.data)|
      && (r.value.likedByCurrentUser <==> ContainsUid(LikedBy(doc.data), uid))
  {
    match GetString(doc.data, "userId")
    case Err(_) => None
    case Ok(None) => None
    case Ok(Some(userId)) =>
      match fetchUser(userId)
      case Err(_) => None
      case Ok(userDoc) =>
        match (DisplayName(userDoc), GetString(userDoc, "image"))
        case (Ok(userName), Ok(image)) => BuildPost(doc, userId, userName, image.GetOr(""), uid, now)
        case _ => None
  }

  /** The feed the loop builds: one post per usable document, in query order. */
  function FeedOf(docs: seq<Snapshot>, fetchUser: string -> Result<Doc>, uid: Option<string>, now: int): (r: seq<FeedPost>)
    ensures |r| <= |docs|
    decreases |docs|
  {
    if docs == [] then []
    else
      var rest := FeedOf(docs[..|docs| - 1], fetchUser, uid, now);
      match FeedPostOf(docs[|docs| - 1], fetchUser, uid, now)
      case Some(p) => rest + [p]
      case None => rest
  }

  /** A single document contributes exactly the post `FeedPostOf` builds for it, or nothing. */
  lemma FeedOfOne(doc: Snapshot, fetchUser: string -> Result<Doc>, uid: Option<string>, now: int)
    ensures FeedOf([doc], fetchUser, uid, now)
         == match FeedPostOf(doc, fetchUser, uid, now) case Some(p) => [p] case None => []
  {
    assert [doc][..0] == [];
  }

  /** Every post in the feed comes from one of the documents, and every document that gives a post has it in the feed. */
  lemma {:induction false} FeedOfMembers(docs: seq<Snapshot>, fetchUser: string -> Result<Doc>, uid: Option<string>, now: int)
    ensures forall p | p in FeedOf(docs, fetchUser, uid, now) ::
              exists d | d in docs :: FeedPostOf(d, fetchUser, uid, now) == Some(p)
    ensures forall d | d in docs && FeedPostOf(d, fetchUser, uid, now).Some? ::
              FeedPostOf(d, fetchUser, uid, now).value in FeedOf(docs, fetchUser, uid, now)
    decreases |docs|
  {
    if docs != [] {
      var init := docs[..|docs| - 1];
      var last := docs[|docs| - 1];
      FeedOfMembers(init, fetchUser, uid, now);
      assert docs == init + [last];
      forall d | d in docs
        ensures d == last || d in init
      {
      }
    }
  }

  /** The loop over the query's documents, appending each post built to `feedPosts`. */
  method CollectFeed(docs: seq<Snapshot>, fetchUser: string -> Result<Doc>, uid: Option<string>, now: int)
    returns (feedPosts: seq<FeedPost>)
    ensures feedPosts == FeedOf(docs, fetchUser, uid, now)
  {
    feedPosts := [];
    var i := 0;
    while i < |docs|
      invariant 0 <= i <= |docs|
      invariant feedPosts == FeedOf(docs[..i], fetchUser, uid, now)
    {
      assert docs[..i + 1][..i] == docs[..i];
      var post := FeedPostOf(docs[i], fetchUser, uid, now);
      if post.Some? {
        feedPosts := feedPosts + [post.value];
      }
      i := i + 1;
    }
    assert docs[..|docs|] == docs;
  }

  /** Feed building distributes over concatenation: posts appear in the order of their documents. */
  lemma {:induction false} FeedOfAppend(a: seq<Snapshot>, b: seq<Snapshot>, fetchUser: string -> Result<Doc>, uid: Option<string>, now: int)
    ensures FeedOf(a + b, fetchUser, uid, now) == FeedOf(a, fetchUser, uid, now) + FeedOf(b, fetchUser, uid, now)
    decreases |b|
  {
    if b == [] {
      assert a + b == a;
    } else {
      var b' := b[..|b| - 1];
      assert (a + b)[..|a + b| - 1] == a + b';
      assert (a + b)[|a + b| - 1] == b[|b| - 1];
      FeedOfAppend(a, b', fetchUser, uid, now);
    }
  }

  /** Every post in the feed has as many likes as likers, and is liked only if some liker is the signed-in user. */
  lemma {:induction false} FeedPostsWellFormed(docs: seq<Snapshot>, fetchUser: string -> Result<Doc>, uid: Option<string>, now: int)
    ensures forall p | p in FeedOf(docs, fetchUser, uid, now) :: WellFormed(p)
    ensures uid.None? ==> forall p | p in FeedOf(docs, fetchUser, uid, now) :: !p.likedByCurrentUser
    decreases |docs|
  {
    if docs != [] {
      FeedPostsWellFormed(docs[..|docs| - 1], fetchUser, uid, now);
      var d := docs[|docs| - 1];
      var post := FeedPostOf(d, fetchUser, uid, now);
      if post.Some? {
        var likedBy := LikedBy(d.data);
        if post.value.likedByCurrentUser {
          assert Str(uid.value) in likedBy;
        }
      }
    }
  }

  /** The invariant the like counter keeps: never negative, and at least one when the user likes the post. */
  predicate WellFormed(p: FeedPost) {
    p.likes >= 0 && (p.likedByCurrentUser ==> p.likes >= 1)
  }

  /** The local state edit of `onLikeClick` for a signed-in user. */
  function ToggleLike(posts: seq<FeedPost>, postId: string, currentlyLiked: bool): (r: seq<FeedPost>)
    ensures |r| == |posts|
    ensures forall i | 0 <= i < |posts| && posts[i].id != postId :: r[i] == posts[i]
    ensures forall i | 0 <= i < |posts| && posts[i].id == postId ::
      r[i] == posts[i].(likedByCurrentUser := !currentlyLiked,
                        likes := if currentlyLiked then posts[i].likes - 1 else posts[i].likes + 1)
  {
    seq(|posts|, i requires 0 <= i < |posts| =>
      if posts[i].id == postId then
        posts[i].(likedByCurrentUser := !currentlyLiked,
                  likes := if currentlyLiked then posts[i].likes - 1 else posts[i].likes + 1)
      else posts[i])
  }

  /** Every post carrying `postId` shows `liked` as its flag: the button passes the post's own flag. */
  predicate FlagIs(posts: seq<FeedPost>, postId: string, liked: bool) {
    forall i | 0 <= i < |posts| && posts[i].id == postId :: posts[i].likedByCurrentUser == liked
  }

  /** Pressing like twice on the same post, each time with the flag it shows, restores the list. */
  lemma {:induction false} ToggleTwiceRestores(posts: seq<FeedPost>, postId: string, liked: bool)
    requires FlagIs(posts, postId, liked)
    ensures FlagIs(ToggleLike(posts, postId, liked), postId, !liked)
    ensures ToggleLike(ToggleLike(posts, postId, liked), postId, !liked) == posts
  {
    var once := ToggleLike(posts, postId, liked);
    var twice := ToggleLike(once, postId, !liked);
    forall i | 0 <= i < |posts| ensures twice[i] == posts[i] {
      if posts[i].id == postId {
        assert once[i].id == postId;
      }
    }
  }

  /** A press with the post's own flag keeps every post well formed. */
  lemma {:induction false} ToggleKeepsWellFormed(posts: seq<FeedPost>, postId: string, liked: bool)
    requires FlagIs(posts, postId, liked)
    requires forall i | 0 <= i < |posts| :: WellFormed(posts[i])
    ensures forall i | 0 <= i < |posts| :: WellFormed(ToggleLike(posts, postId, liked)[i])
  {
    var r := ToggleLike(posts, postId, liked);
    forall i | 0 <= i < |posts| ensures WellFormed(r[i]) {
      if posts[i].id == postId {
        assert posts[i].likedByCurrentUser == liked;
      }
    }
  }

  /**
   * The write a like press sends for a signed-in user: `arrayRemove` of the
   * user's id from the post's `likedBy` when the post showed as liked,
   * `arrayUnion` otherwise.
   */
  datatype LikeRequest = LikeRequest(postId: string, remove: bool, uid: string)

  /** The post's stored `likedBy` once the request has been applied. */
  function ApplyLike(likedBy: seq<Value>, req: LikeRequest): (r: seq<Value>)
    ensures ContainsUid(r, Some(req.uid)) <==> !req.remove
    ensures forall y | y != Str(req.uid) :: y in r <==> y in likedBy
  {
    if req.remove then ArrayRemove(likedBy, Str(req.uid)) else ArrayUnion(likedBy, Str(req.uid))
  }

  /**
   * The local edit and the write agree: when the flag a post shows is
   * whether its stored `likedBy` holds the user, the toggled flag is again
   * whether the updated `likedBy` holds the user, so reloading shows the
   * same flag.
   */
  lemma {:induction false} ToggleAgreesWithStore(posts: seq<FeedPost>, postId: string, likedBy: seq<Value>, uid: string)
    requires FlagIs(posts, postId, ContainsUid(likedBy, Some(uid)))
    ensures var liked := ContainsUid(likedBy, Some(uid));
            FlagIs(ToggleLike(posts, postId, liked), postId,
                   ContainsUid(ApplyLike(likedBy, LikeRequest(postId, liked, uid)), Some(uid)))
  {
    var liked := ContainsUid(likedBy, Some(uid));
    var r := ToggleLike(posts, postId, liked);
    var after := ApplyLike(likedBy, LikeRequest(postId, liked, uid));
    forall i | 0 <= i < |r| && r[i].id == postId
      ensures r[i].likedByCurrentUser == ContainsUid(after, Some(uid))
    {
      assert posts[i].id == postId;
    }
  }

  /** The home screen's state. */
  class HomeScreen {
    var posts: seq<FeedPost>
    var isLoading: bool
    var error: Option<string>

    constructor ()
      ensures posts == [] && isLoading && error.None?
    {
      posts := [];
      isLoading := true;
      error := None;
    }

    /**
     * The loading effect: `query` is the ordered posts query, which may throw;
     * loading ends on every path.
     */
    method Load(query: Result<seq<Snapshot>>, fetchUser: string -> Result<Doc>, uid: Option<string>, now: int)
      modifies this
      ensures !isLoading
      ensures query.Ok? ==> posts == FeedOf(query.value, fetchUser, uid, now) && error == old(error)
      ensures query.Err? ==> posts == old(posts) && error == Some("Error loading posts: " + Render(query.message))
    {
      match query {
        case Ok(docs) =>
          posts := CollectFeed(docs, fetchUser, uid, now);
        case Err(m) =>
          error := Some("Error loading posts: " + Render(m));
      }
      isLoading := false;
    }

    /**
     * `onLikeClick`: nothing happens without a signed-in user; otherwise the
     * like or unlike write is sent and the list is edited locally.
     */
    method LikeClicked(postId: string, currentlyLiked: bool, uid: Option<string>) returns (request: Option<LikeRequest>)
      modifies this
      ensures request == if uid.None? then None else Some(LikeRequest(postId, currentlyLiked, uid.value))
      ensures posts == if uid.None? then old(posts) else ToggleLike(old(posts), postId, currentlyLiked)
      ensures isLoading == old(isLoading) && error == old(error)
    {
      request := None;
      if uid.Some? {
        request := Some(LikeRequest(postId, currentlyLiked, uid.value));
        posts := ToggleLike(posts, postId, currentlyLiked);
      }
    }
  }
}
