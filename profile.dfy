/**
 * Another user's profile screen: the header derived from the user's
 * document, the user's posts (newest first), and the follow button, which
 * edits the follower count and the following flag locally.
 */
module Profile {
  import opened Wrappers
  import opened Documents
  import opened Recipes
  import opened Feed

  /** `doc.get(key) as? List<String> ?: emptyList()` */
  function ListField(d: Doc, key: string): (items: seq<Value>) {
    AsList(Field(d, key)).GetOr([])
  }

  /** The profile's posts: `mapNotNull` over the query's documents, dropping those that give no post. */
  function ProfilePosts(docs: seq<Snapshot>, userId: string, userName: string, userImage: string,
                        uid: Option<string>, now: int): (r: seq<FeedPost>)
    ensures |r| <= |docs|
    ensures forall p | p in r :: p.userId == userId && p.userName == userName && p.userImage == userImage
    decreases |docs|
  {
    if docs == [] then []
    else
      var rest := ProfilePosts(docs[1..], userId, userName, userImage, uid, now);
      match BuildPost(docs[0], userId, userName, userImage, uid, now)
      case Some(p) => [p] + rest
      case None => rest
  }

  /** The profile's posts keep the query's order: the list of a concatenation is the concatenation of the lists. */
  lemma {:induction false} ProfilePostsAppend(a: seq<Snapshot>, b: seq<Snapshot>, userId: string, userName: string,
                                              userImage: string, uid: Option<string>, now: int)
    ensures ProfilePosts(a + b, userId, userName, userImage, uid, now)
         == ProfilePosts(a, userId, userName, userImage, uid, now) + ProfilePosts(b, userId, userName, userImage, uid, now)
    decreases |a|
  {
    if a == [] {
      assert a + b == b;
    } else {
      assert (a + b)[0] == a[0];
      assert (a + b)[1..] == a[1..] + b;
      ProfilePostsAppend(a[1..], b, userId, userName, userImage, uid, now);
    }
  }

  /**
   * A document without a recipe map is dropped; any other gives exactly the
   * post it builds, or nothing when building it throws (the per-post catch).
   */
  lemma {:induction false} ProfilePostsOfOne(doc: Snapshot, userId: string, userName: string, userImage: string,
                                             uid: Option<string>, now: int)
    ensures !Field(doc.data, "recipe").Map? ==> ProfilePosts([doc], userId, userName, userImage, uid, now) == []
    ensures ProfilePosts([doc], userId, userName, userImage, uid, now)
         == match BuildPost(doc, userId, userName, userImage, uid, now) case Some(p) => [p] case None => []
  {
    assert [doc][1..] == [];
  }

  /** Each post on the profile counts its likers, and is liked exactly when the signed-in user is among them. */
  lemma {:induction false} ProfilePostsLikes(docs: seq<Snapshot>, userId: string, userName: string, userImage: string,
                                             uid: Option<string>, now: int)
    ensures forall p | p in ProfilePosts(docs, userId, userName, userImage, uid, now) ::
      exists d | d in docs :: (p.id == d.id
        && p.likes == |LikedBy(d.data)|
        && (p.likedByCurrentUser <==> ContainsUid(LikedBy(d.data), uid)))
    decreases |docs|
  {
    if docs != [] {
      ProfilePostsLikes(docs[1..], userId, userName, userImage, uid, now);
      forall p | p in ProfilePosts(docs, userId, userName, userImage, uid, now)
        ensures exists d | d in docs :: (p.id == d.id
          && p.likes == |LikedBy(d.data)|
          && (p.likedByCurrentUser <==> ContainsUid(LikedBy(d.data), uid)))
      {
        if p !in ProfilePosts(docs[1..], userId, userName, userImage, uid, now) {
          assert docs[0] in docs;
        } else {
          var d :| d in docs[1..] && p.id == d.id
            && p.likes == |LikedBy(d.data)|
            && (p.likedByCurrentUser <==> ContainsUid(LikedBy(d.data), uid));
          assert d in docs;
        }
      }
    }
  }

  /** The follow button is offered unless the signed-in user is looking at their own profile. */
  predicate ShowFollowButton(uid: Option<string>, userId: string) {
    uid != Some(userId)
  }

  /** What a press on the follow button asks the database to do. */
  datatype FollowRequest =
    | Follow(userId: string, currentUid: string)
    | Unfollow(userId: string, currentUid: string)

  /** The local effect of a press: the follower count moves by one, the flag flips. */
  function FollowStep(followersCount: int, isFollowing: bool): (r: (int, bool))
    ensures r.1 == !isFollowing
    ensures r.0 == followersCount + (if isFollowing then -1 else 1)
  {
    if isFollowing then (followersCount - 1, false) else (followersCount + 1, true)
  }

  /** Two presses in a row restore both the count and the flag. */
  lemma FollowTwiceRestores(followersCount: int, isFollowing: bool)
    ensures var (c, f) := FollowStep(followersCount, isFollowing);
      FollowStep(c, f) == (followersCount, isFollowing)
  {
  }

  class UserProfileScreen {
    const userId: string
    var userName: string
    var userImage: string
    var userBio: string
    var posts: seq<FeedPost>
    var followersCount: int
    var followingCount: int
    var isFollowing: bool
    var isLoading: bool
    var error: Option<string>

    constructor (userId: string)
      ensures this.userId == userId
      ensures userName == "" && userImage == "" && userBio == "" && posts == []
      ensures followersCount == 0 && followingCount == 0 && !isFollowing
      ensures isLoading && error.None?
    {
      this.userId := userId;
      userName, userImage, userBio := "", "", "";
      posts := [];
      followersCount, followingCount := 0, 0;
      isFollowing := false;
      isLoading := true;
      error := None;
    }

    /**
     * The assignments from the fetched user document, one after another: a
     * getter that throws stops them, leaving the later fields as they were,
     * and its message is returned.
     */
    method ShowUser(d: Doc, uid: Option<string>) returns (failure: Option<string>)
      modifies this
      ensures failure.Some? <==> DisplayName(d).Err? || GetString(d, "image").Err? || GetString(d, "bio").Err?
      ensures failure.Some? ==> failure == Some(WrongTypeMessage)
      ensures posts == old(posts) && error == old(error) && isLoading == old(isLoading)
      ensures DisplayName(d).Err? ==> userName == old(userName) && userImage == old(userImage)
      ensures DisplayName(d).Ok? ==> userName == DisplayName(d).value
      ensures DisplayName(d).Err? || GetString(d, "image").Err? ==> userImage == old(userImage)
      ensures DisplayName(d).Ok? && GetString(d, "image").Ok? ==> userImage == GetString(d, "image").value.GetOr("")
      ensures failure.Some? ==>
        userBio == old(userBio) && followersCount == old(followersCount)
        && followingCount == old(followingCount) && isFollowing == old(isFollowing)
      ensures failure.None? ==>
        && userBio == GetString(d, "bio").value.GetOr("")
        && followersCount == |ListField(d, "followers")|
        && followingCount == |ListField(d, "following")|
        && (isFollowing <==> ContainsUid(ListField(d, "followers"), uid))
    {
      var name := DisplayName(d);
      if name.Err? {
        return Some(Render(name.message));
      }
      userName := name.value;
      var image := GetString(d, "image");
      if image.Err? {
        return Some(Render(image.message));
      }
      userImage := image.value.GetOr("");
      var bio := GetString(d, "bio");
      if bio.Err? {
        return Some(Render(bio.message));
      }
      userBio := bio.value.GetOr("");
      var followers := ListField(d, "followers");
      var following := ListField(d, "following");
      followersCount := |followers|;
      followingCount := |following|;
      isFollowing := ContainsUid(followers, uid);
      failure := None;
    }

    /**
     * The loading effect. `userFetch` is the read of the profile's user
     * document and `query` the read of its posts, newest first; each may
     * throw. The fields are assigned one after another, so a read that
     * throws part-way leaves the earlier ones assigned and the later ones
     * as they were.
     */
    method Load(userFetch: Result<Doc>, query: Result<seq<Snapshot>>, uid: Option<string>, now: int)
      modifies this
      ensures !isLoading
      ensures userFetch.Err? ==>
        error == Some("Error loading profile: " + Render(userFetch.message))
        && userName == old(userName) && userImage == old(userImage) && userBio == old(userBio)
        && posts == old(posts) && followersCount == old(followersCount)
        && followingCount == old(followingCount) && isFollowing == old(isFollowing)
      ensures userFetch.Ok? && DisplayName(userFetch.value).Err? ==>
        error == Some("Error loading profile: " + WrongTypeMessage)
        && userName == old(userName) && userImage == old(userImage) && userBio == old(userBio)
        && posts == old(posts) && followersCount == old(followersCount)
        && followingCount == old(followingCount) && isFollowing == old(isFollowing)
      ensures userFetch.Ok? && DisplayName(userFetch.value).Ok? ==>
        userName == DisplayName(userFetch.value).value
      ensures userFetch.Ok? && DisplayName(userFetch.value).Ok? && GetString(userFetch.value, "image").Err? ==>
        error == Some("Error loading profile: " + WrongTypeMessage)
        && userImage == old(userImage) && userBio == old(userBio)
        && posts == old(posts) && followersCount == old(followersCount)
        && followingCount == old(followingCount) && isFollowing == old(isFollowing)
      ensures userFetch.Ok? && DisplayName(userFetch.value).Ok?
              && GetString(userFetch.value, "image").Ok? && GetString(userFetch.value, "bio").Err? ==>
        error == Some("Error loading profile: " + WrongTypeMessage)
        && userImage == GetString(userFetch.value, "image").value.GetOr("") && userBio == old(userBio)
        && posts == old(posts) && followersCount == old(followersCount)
        && followingCount == old(followingCount) && isFollowing == old(isFollowing)
      ensures userFetch.Ok? && DisplayName(userFetch.value).Ok?
              && GetString(userFetch.value, "image").Ok? && GetString(userFetch.value, "bio").Ok? ==>
        var d := userFetch.value;
        && userImage == GetString(d, "image").value.GetOr("")
        && userBio == GetString(d, "bio").value.GetOr("")
        && followersCount == |ListField(d, "followers")|
        && followingCount == |ListField(d, "following")|
        && (isFollowing <==> ContainsUid(ListField(d, "followers"), uid))
        && (query.Err? ==> error == Some("Error loading profile: " + Render(query.message)) && posts == old(posts))
        && (query.Ok? ==> error == old(error) && posts == ProfilePosts(query.value, userId, userName, userImage, uid, now))
    {
      isLoading := false;
      if userFetch.Err? {
        error := Some("Error loading profile: " + Render(userFetch.message));
        return;
      }
      var failure := ShowUser(userFetch.value, uid);
      if failure.Some? {
        error := Some("Error loading profile: " + failure.value);
        return;
      }
      if query.Err? {
        error := Some("Error loading profile: " + Render(query.message));
        return;
      }
      posts := ProfilePosts(query.value, userId, userName, userImage, uid, now);
    }

    /**
     * The follow button's click handler. The button exists only while
     * `ShowFollowButton` holds, so nobody is asked to follow themselves;
     * without a signed-in user nothing happens.
     */
    method FollowPressed(uid: Option<string>) returns (request: Option<FollowRequest>)
      requires ShowFollowButton(uid, userId)
      modifies this
      ensures request.Some? ==> request.value.userId == userId && request.value.currentUid != userId
      ensures uid.None? ==> request.None? && followersCount == old(followersCount) && isFollowing == old(isFollowing)
      ensures uid.Some? ==>
        (followersCount, isFollowing) == FollowStep(old(followersCount), old(isFollowing))
        && request == Some(if old(isFollowing) then Unfollow(userId, uid.value) else Follow(userId, uid.value))
      ensures userName == old(userName) && posts == old(posts) && followingCount == old(followingCount)
      ensures isLoading == old(isLoading) && error == old(error)
    {
      request := None;
      if uid.Some? {
        if isFollowing {
          request := Some(Unfollow(userId, uid.value));
          followersCount := followersCount - 1;
        } else {
          request := Some(Follow(userId, uid.value));
          followersCount := followersCount + 1;
        }
        isFollowing := !isFollowing;
      }
    }
  }
}
