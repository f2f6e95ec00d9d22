/**
 * The photo preview screen: "Analyze" sends the uploaded photo's URL to
 * the recipe API and opens the result screen on the first recipe;
 * "Discard" deletes the photo and goes back; "Try Again" dismisses the
 * error. The API, Storage and Firestore calls are inputs: what they
 * returned, or the message of what they threw.
 */
module PhotoPreview {
  import opened Wrappers
  import opened Documents
  import opened Recipes
  import opened Text
  import opened RecipeSlots

  const TryAnotherImage: string := " Please try another image."
  const NotFoundMessage: string := "No recipe found for this image." + TryAnotherImage
  const TimeoutMessage: string := "Connection timed out." + " Please check your internet connection and try again."
  const AnalyzeFailedPrefix: string := "Failed to analyze image: "
  const NoRecipesMessage: string := "No recipes found for this image." + TryAnotherImage
  const ProcessingPrefix: string := "Error processing recipe: "
  const DeleteFallback: string := "An error occurred"

  /**
   * The message shown when the API call throws: a message mentioning
   * "404" means no recipe was found, this test coming first; otherwise one
   * mentioning "timeout" means the connection timed out; anything else,
   * a missing message included, is reported as it is.
   */
  function ApiErrorMessage(msg: Option<string>): (m: string)
    ensures m == NotFoundMessage <==> msg.Some? && Contains(msg.value, "404")
    ensures m == TimeoutMessage <==> msg.Some? && !Contains(msg.value, "404") && Contains(msg.value, "timeout")
    ensures m == AnalyzeFailedPrefix + Render(msg) <==>
              msg.None? || (!Contains(msg.value, "404") && !Contains(msg.value, "timeout"))
  {
    assert NotFoundMessage[0] == 'N' && TimeoutMessage[0] == 'C';
    assert (AnalyzeFailedPrefix + Render(msg))[0] == 'F';
    if msg.Some? && Contains(msg.value, "404") then NotFoundMessage
    else if msg.Some? && Contains(msg.value, "timeout") then TimeoutMessage
    else AnalyzeFailedPrefix + Render(msg)
  }

  /** None of the API failure messages is the "no recipes" message, so a failure is never reported twice. */
  lemma ApiErrorIsNotNoRecipes(msg: Option<string>)
    ensures ApiErrorMessage(msg) != NoRecipesMessage
  {
    assert NotFoundMessage[9] == ' ' && NoRecipesMessage[9] == 's';
    assert TimeoutMessage[0] == 'C' && NoRecipesMessage[0] == 'N';
    assert (AnalyzeFailedPrefix + Render(msg))[0] == 'F';
  }

  /** The destination of the result screen for an already URL-encoded title. */
  function RecipeResultRoute(encodedTitle: string): (route: string)
    ensures |route| == |"recipeResult/"| + |encodedTitle|
    ensures route[..|"recipeResult/"|] == "recipeResult/"
    ensures route[|"recipeResult/"|..] == encodedTitle
  {
    "recipeResult/" + encodedTitle
  }

  /** What the recipe API call did: returned a list of recipes, or threw with a message. */
  datatype ApiOutcome = Returned(recipes: seq<RecipeResponse>) | Threw(message: Option<string>)

  class PhotoPreviewScreen {
    const photoUrl: string
    var isLoading: bool
    var error: Option<string>
    /** The last route navigated to from this screen. */
    var navigatedTo: Option<string>
    var poppedBack: bool

    constructor (photoUrl: string)
      ensures this.photoUrl == photoUrl
      ensures !isLoading && error == None && navigatedTo == None && !poppedBack
    {
      this.photoUrl := photoUrl;
      isLoading, error, navigatedTo, poppedBack := false, None, None, false;
    }

    /**
     * "Analyze". `encodeTitle` stands for `URLEncoder.encode(title, "UTF-8")`;
     * `navigation` is whether navigating to the result screen succeeded or
     * what it threw.
     */
    method Analyze(api: ApiOutcome, slots: RecipeViewModel, encodeTitle: string -> string, navigation: Result<()>)
      modifies this, slots
      ensures !isLoading && poppedBack == old(poppedBack)
      ensures api.Threw? ==>
                error == Some(ApiErrorMessage(api.message)) && navigatedTo == old(navigatedTo)
                && slots.currentRecipe == old(slots.currentRecipe) && slots.userPhotoUrl == old(slots.userPhotoUrl)
      ensures api == Returned([]) ==>
                error == Some(NoRecipesMessage) && navigatedTo == old(navigatedTo)
                && slots.currentRecipe == old(slots.currentRecipe) && slots.userPhotoUrl == old(slots.userPhotoUrl)
      ensures api.Returned? && api.recipes != [] ==>
                slots.currentRecipe == Some(api.recipes[0]) && slots.userPhotoUrl == Some(photoUrl)
      ensures api.Returned? && api.recipes != [] && navigation.Ok? ==>
                error == None && navigatedTo == Some(RecipeResultRoute(encodeTitle(api.recipes[0].title)))
      ensures api.Returned? && api.recipes != [] && navigation.Err? ==>
                error == Some(ProcessingPrefix + Render(navigation.message)) && navigatedTo == old(navigatedTo)
    {
      isLoading := true;
      error := None;
      var response: Option<seq<RecipeResponse>>;
      match api {
        case Returned(recipes) =>
          response := Some(recipes);
        case Threw(message) =>
          error := Some(ApiErrorMessage(message));
          response := None;
      }
      if response.Some? && response.value != [] {
        var recipe := response.value[0];
        slots.SetRecipe(recipe);
        slots.SetUserPhotoUrl(photoUrl);
        var route := RecipeResultRoute(encodeTitle(recipe.title));
        if navigation.Ok? {
          navigatedTo := Some(route);
        } else {
          error := Some(ProcessingPrefix + Render(navigation.message));
        }
      } else if error == None {
        error := Some(NoRecipesMessage);
      }
      isLoading := false;
    }

    /**
     * "Discard". `reference` is whether the photo URL named a Storage
     * object; the Storage delete and the Firestore delete only log their
     * failures, so their outcomes change nothing here.
     */
    method Discard(reference: Result<()>, storageDelete: Result<()>, photosDelete: Result<()>)
      returns (deletesAttempted: bool)
      modifies this
      ensures !isLoading && navigatedTo == old(navigatedTo)
      ensures deletesAttempted <==> reference.Ok?
      ensures reference.Ok? ==> error == None && poppedBack
      ensures reference.Err? ==> error == Some(reference.message.GetOr(DeleteFallback)) && poppedBack == old(poppedBack)
    {
      isLoading := true;
      error := None;
      if reference.Err? {
        error := Some(reference.message.GetOr(DeleteFallback));
        deletesAttempted := false;
      } else {
        deletesAttempted := true;
        poppedBack := true;
      }
      isLoading := false;
    }

    /** "Try Again" only dismisses the error. */
    method TryAgain()
      modifies this
      ensures error == None
      ensures isLoading == old(isLoading) && navigatedTo == old(navigatedTo) && poppedBack == old(poppedBack)
    {
      error := None;
    }
  }
}
