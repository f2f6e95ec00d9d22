/**
 * The post detail screen: loading one post document, and deleting the post,
 * which first removes its id from the signed-in user's post list and then
 * deletes the post document.
 */
module PostDetail {
  import opened Wrappers
  import opened Documents
  import opened Recipes

  datatype UserPost = UserPost(
    id: string,
    recipe: RecipeResponse,
    userPhotoUrl: string,
    recipePhotoUrl: string,
    timestamp: int,
    likes: int)

  const InvalidRecipe: string := "Invalid recipe data"
  const NotAuthenticated: string := "User not authenticated"

  /** What reading a fetched post document ends in: a post, or the error text the screen shows. */
  datatype Parsed = Parsed(post: UserPost) | ParseFailed(error: string)

  const ParsingErrorPrefix: string := "Error parsing post data: "

  /**
   * The inner `try` of the loading effect: a document without a recipe map
   * is invalid; an ingredient list holding a non-map, or a photo URL,
   * timestamp or like count of the wrong type, throws and is reported with
   * the parsing prefix; any other document gives its post.
   */
  function ParsePost(doc: Snapshot, now: int): (r: Parsed)
    ensures !Field(doc.data, "recipe").Map? ==> r == ParseFailed(InvalidRecipe)
    ensures r.Parsed?
            <==> && Field(doc.data, "recipe").Map?
                 && ParseRecipe(Field(doc.data, "recipe").fields).Ok?
                 && GetString(doc.data, "userPhotoUrl").Ok?
                 && GetString(doc.data, "recipePhotoUrl").Ok?
                 && GetTimestamp(doc.data, "timestamp").Ok?
                 && GetLong(doc.data, "likes").Ok?
    ensures r.ParseFailed? && Field(doc.data, "recipe").Map? ==>
              |r.error| >= |ParsingErrorPrefix| && r.error[..|ParsingErrorPrefix|] == ParsingErrorPrefix
    ensures r.Parsed? ==>
      && r.post.id == doc.id
      && ParseRecipe(Field(doc.data, "recipe").fields) == Ok(r.post.recipe)
      && (Field(doc.data, "userPhotoUrl").Null? ==> r.post.userPhotoUrl == "")
      && (Field(doc.data, "userPhotoUrl").Str? ==> r.post.userPhotoUrl == Field(doc.data, "userPhotoUrl").s)
      && (Field(doc.data, "recipePhotoUrl").Null? ==> r.post.recipePhotoUrl == "")
      && (Field(doc.data, "recipePhotoUrl").Str? ==> r.post.recipePhotoUrl == Field(doc.data, "recipePhotoUrl").s)
      && (Field(doc.data, "timestamp").Null? ==> r.post.timestamp == now)
      && (Field(doc.data, "timestamp").Time? ==> r.post.timestamp == Field(doc.data, "timestamp").millis)
      && (Field(doc.data, "likes").Null? ==> r.post.likes == 0)
      && -0x8000_0000 <= r.post.likes < 0x8000_0000
      && (var v := Field(doc.data, "likes");
          v.Num? && v.n == v.n.Floor as real && -0x8000_0000 <= v.n.Floor < 0x8000_0000 ==> r.post.likes == v.n.Floor)
  {
    match AsMap(Field(doc.data, "recipe"))
    case None => ParseFailed(InvalidRecipe)
    case Some(recipeMap) =>
      match ParseRecipe(recipeMap)
      case Err(m) => ParseFailed(ParsingErrorPrefix + Render(m))
      case Ok(recipe) =>
        match (GetString(doc.data, "userPhotoUrl"), GetString(doc.data, "recipePhotoUrl"),
               GetTimestamp(doc.data, "timestamp"), GetLong(doc.data, "likes"))
        case (Ok(u), Ok(p), Ok(t), Ok(l)) =>
          Parsed(UserPost(doc.id, recipe, u.GetOr(""), p.GetOr(""), t.GetOr(now),
                          match l case Some(v) => ToInt32(v) case None => 0))
        case _ => ParseFailed(ParsingErrorPrefix + WrongTypeMessage)
  }

  /** `currentPosts.filter { it != postId }` */
  function RemovePostId(ids: seq<Value>, postId: string): (r: seq<Value>)
    ensures Str(postId) !in r
    ensures forall x :: x in r <==> x in ids && x != Str(postId)
    ensures |r| <= |ids|
  {
    ArrayRemove(ids, Str(postId))
  }

  /** Filtering distributes over concatenation, so the remaining ids keep their order. */
  lemma {:induction false} RemovePostIdAppend(a: seq<Value>, b: seq<Value>, postId: string)
    ensures RemovePostId(a + b, postId) == RemovePostId(a, postId) + RemovePostId(b, postId)
    decreases |a|
  {
    if a == [] {
      assert a + b == b;
    } else {
      assert (a + b)[0] == a[0];
      assert (a + b)[1..] == a[1..] + b;
      RemovePostIdAppend(a[1..], b, postId);
    }
  }

  /** Exactly the occurrences of the post id go; every other id keeps its number of occurrences. */
  lemma {:induction false} RemovePostIdCounts(ids: seq<Value>, postId: string)
    ensures multiset(RemovePostId(ids, postId))[Str(postId)] == 0
    ensures forall x | x != Str(postId) :: multiset(RemovePostId(ids, postId))[x] == multiset(ids)[x]
    ensures |RemovePostId(ids, postId)| == |ids| - multiset(ids)[Str(postId)]
    decreases |ids|
  {
    if ids != [] {
      RemovePostIdCounts(ids[1..], postId);
      assert ids == [ids[0]] + ids[1..];
      assert multiset(ids) == multiset{ids[0]} + multiset(ids[1..]);
    }
  }

  /** Removing twice is removing once. */
  lemma {:induction false} RemovePostIdIdempotent(ids: seq<Value>, postId: string)
    ensures RemovePostId(RemovePostId(ids, postId), postId) == RemovePostId(ids, postId)
    decreases |ids|
  {
    if ids != [] {
      RemovePostIdIdempotent(ids[1..], postId);
      var rest := RemovePostId(ids[1..], postId);
      if ids[0] != Str(postId) {
        var once := [ids[0]] + rest;
        assert RemovePostId(ids, postId) == once;
        assert once[0] == ids[0] && once[1..] == rest;
      } else {
        assert RemovePostId(ids, postId) == [] + rest == rest;
      }
    }
  }

  /** A list without the post id is left as it is. */
  lemma {:induction false} RemoveAbsentIsIdentity(ids: seq<Value>, postId: string)
    requires Str(postId) !in ids
    ensures RemovePostId(ids, postId) == ids
    decreases |ids|
  {
    if ids != [] {
      RemoveAbsentIsIdentity(ids[1..], postId);
      assert ids == [ids[0]] + ids[1..];
    }
  }

  /** The writes `deletePost` makes, in order. */
  datatype DeleteWrites = DeleteWrites(newPosts: Option<seq<Value>>, deleteDocument: bool)

  class PostDetailScreen {
    const postId: string
    var post: Option<UserPost>
    var isLoading: bool
    var error: Option<string>
    var showDeleteConfirmation: bool
    var navigatedTo: Option<string>

    constructor (postId: string)
      ensures this.postId == postId
      ensures post.None? && isLoading && error.None? && !showDeleteConfirmation && navigatedTo.None?
    {
      this.postId := postId;
      post := None;
      isLoading := true;
      error := None;
      showDeleteConfirmation := false;
      navigatedTo := None;
    }

    /** The loading effect: `fetch` is the read of the post document, which may throw. */
    method Load(fetch: Result<Snapshot>, now: int)
      modifies this
      ensures !isLoading
      ensures fetch.Err? ==> post == old(post) && error == Some("Error loading post: " + Render(fetch.message))
      ensures fetch.Ok? && ParsePost(fetch.value, now).ParseFailed? ==>
        post == old(post) && error == Some(ParsePost(fetch.value, now).error)
      ensures fetch.Ok? && ParsePost(fetch.value, now).Parsed? ==>
        post == Some(ParsePost(fetch.value, now).post) && error == old(error)
      ensures showDeleteConfirmation == old(showDeleteConfirmation) && navigatedTo == old(navigatedTo)
    {
      match fetch {
        case Err(m) =>
          error := Some("Error loading post: " + Render(m));
        case Ok(doc) =>
          var parsed := ParsePost(doc, now);
          match parsed {
            case ParseFailed(e) => error := Some(e);
            case Parsed(p) => post := Some(p);
          }
      }
      isLoading := false;
    }

    /** The delete button. */
    method AskDelete()
      modifies this
      ensures showDeleteConfirmation
      ensures post == old(post) && isLoading == old(isLoading) && error == old(error) && navigatedTo == old(navigatedTo)
    {
      showDeleteConfirmation := true;
    }

    /**
     * `deletePost`: `uid` is the signed-in user, `userFetch` the read of
     * that user's document, `updated` and `deleted` the two writes' outcomes;
     * each step that throws ends the attempt with an error.
     */
    method DeletePost(uid: Option<string>, userFetch: Result<Doc>, updated: Result<()>, deleted: Result<()>)
      returns (writes: DeleteWrites)
      modifies this
      ensures !isLoading && !showDeleteConfirmation
      ensures post == old(post)
      ensures uid.None? ==>
        writes == DeleteWrites(None, false) && error == Some(NotAuthenticated) && navigatedTo == old(navigatedTo)
      ensures uid.Some? && userFetch.Err? ==>
        writes == DeleteWrites(None, false) && navigatedTo == old(navigatedTo)
        && error == Some("Error deleting post: " + Render(userFetch.message))
      ensures uid.Some? && userFetch.Ok? ==>
        writes.newPosts == Some(RemovePostId(AsList(Field(userFetch.value, "posts")).GetOr([]), postId))
      ensures uid.Some? && userFetch.Ok? && updated.Err? ==>
        !writes.deleteDocument && navigatedTo == old(navigatedTo)
        && error == Some("Error deleting post: " + Render(updated.message))
      ensures uid.Some? && userFetch.Ok? && updated.Ok? ==> writes.deleteDocument
      ensures uid.Some? && userFetch.Ok? && updated.Ok? && deleted.Err? ==>
        navigatedTo == old(navigatedTo) && error == Some("Error deleting post: " + Render(deleted.message))
      ensures uid.Some? && userFetch.Ok? && updated.Ok? && deleted.Ok? ==>
        navigatedTo == Some("profile") && error == old(error)
    {
      isLoading := true;
      writes := DeleteWrites(None, false);
      if uid.None? {
        error := Some(NotAuthenticated);
      } else if userFetch.Err? {
        error := Some("Error deleting post: " + Render(userFetch.message));
      } else {
        var currentPosts := AsList(Field(userFetch.value, "posts")).GetOr([]);
        var updatedPosts := RemovePostId(currentPosts, postId);
        writes := writes.(newPosts := Some(updatedPosts));
        if updated.Err? {
          error := Some("Error deleting post: " + Render(updated.message));
        } else {
          writes := writes.(deleteDocument := true);
          if deleted.Err? {
            error := Some("Error deleting post: " + Render(deleted.message));
          } else {
            navigatedTo := Some("profile");
          }
        }
      }
      isLoading := false;
      showDeleteConfirmation := false;
    }
  }
}
