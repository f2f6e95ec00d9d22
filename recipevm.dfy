/**
 * The view model shared by the preview and result screens: two nullable
 * slots, each overwritten by its own setter.
 */
module RecipeSlots {
  import opened Wrappers
  import opened Recipes

  class RecipeViewModel {
    var currentRecipe: Option<RecipeResponse>
    var userPhotoUrl: Option<string>

    /** Both slots start empty. */
    constructor ()
      ensures currentRecipe == None && userPhotoUrl == None
    {
      currentRecipe := None;
      userPhotoUrl := None;
    }

    /** `setRecipe`: the recipe slot takes the new value, the photo slot keeps its own. */
    method SetRecipe(recipe: RecipeResponse)
      modifies this
      ensures currentRecipe == Some(recipe)
      ensures userPhotoUrl == old(userPhotoUrl)
    {
      currentRecipe := Some(recipe);
    }

    /** `setUserPhotoUrl`: the photo slot takes the new value, the recipe slot keeps its own. */
    method SetUserPhotoUrl(url: string)
      modifies this
      ensures userPhotoUrl == Some(url)
      ensures currentRecipe == old(currentRecipe)
    {
      userPhotoUrl := Some(url);
    }
  }
}
