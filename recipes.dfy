/**
 * The recipe returned by the recognition service, and the one parser the
 * feed, the profile and the post detail screens each apply to the
 * `recipe` map of a post document. The published post stores the recipe
 * as a map whose keys are the property names of the data class, so the
 * parser has a serialiser as its partner, and the two round-trip.
 */
module Recipes {
  import opened Wrappers
  import opened Documents

  datatype Ingredient = Ingredient(amount: real, name: string, unit: string)

  datatype RecipeResponse = RecipeResponse(
    image: string,
    missedIngredients: seq<Ingredient>,
    title: string,
    usedIngredients: seq<Ingredient>)

  /** Stand-in for the runtime's message when an ingredient list holds something other than a map. */
  const NotAMapMessage: string := "Ingredient is not a map"

  function Lookup(m: map<string, Value>, key: string): (v: Value) {
    if key in m then m[key] else Null
  }

  /** One ingredient map, every field defaulting on its own: amount 0.0, name and unit "". */
  function IngredientOf(m: map<string, Value>): (r: Ingredient)
    ensures Lookup(m, "amount").Num? ==> r.amount == Lookup(m, "amount").n
    ensures !Lookup(m, "amount").Num? ==> r.amount == 0.0
    ensures Lookup(m, "name").Str? ==> r.name == Lookup(m, "name").s
    ensures !Lookup(m, "name").Str? ==> r.name == ""
    ensures Lookup(m, "unit").Str? ==> r.unit == Lookup(m, "unit").s
    ensures !Lookup(m, "unit").Str? ==> r.unit == ""
  {
    Ingredient(
      AsNumber(Lookup(m, "amount")).GetOr(0.0),
      AsString(Lookup(m, "name")).GetOr(""),
      AsString(Lookup(m, "unit")).GetOr(""))
  }

  predicate AllMaps(items: seq<Value>) {
    forall i | 0 <= i < |items| :: items[i].Map?
  }

  /**
   * The `map { Ingredient(...) }` over a list that passed the unchecked
   * cast: element by element, throwing at the first element that is not a map.
   */
  function ParseItems(items: seq<Value>): (r: Result<seq<Ingredient>>)
    ensures r.Ok? <==> AllMaps(items)
    ensures r.Ok? ==> |r.value| == |items|
    ensures r.Ok? ==> forall i | 0 <= i < |items| :: r.value[i] == IngredientOf(items[i].fields)
    ensures r.Err? ==> r == Err(Some(NotAMapMessage))
  {
    if items == [] then Ok([])
    else if !items[0].Map? then Err(Some(NotAMapMessage))
    else
      match ParseItems(items[1..])
      case Ok(rest) => Ok([IngredientOf(items[0].fields)] + rest)
      case Err(e) => Err(e)
  }

  /** `(v as? List<Map<String, Any>>)?.map { ... } ?: emptyList()` */
  function ParseIngredients(v: Value): (r: Result<seq<Ingredient>>)
    ensures !v.List? ==> r == Ok([])
    ensures v.List? ==> r == ParseItems(v.items)
  {
    match AsList(v)
    case None => Ok([])
    case Some(items) => ParseItems(items)
  }

  /** `parseRecipeResponse`: title and image default to "", ingredient lists to empty. */
  function ParseRecipe(m: map<string, Value>): (r: Result<RecipeResponse>)
    ensures r.Ok? <==> ParseIngredients(Lookup(m, "used_ingredients")).Ok?
                       && ParseIngredients(Lookup(m, "missed_ingredients")).Ok?
    ensures r.Ok? ==> r.value.title == AsString(Lookup(m, "title")).GetOr("")
    ensures r.Ok? ==> r.value.image == AsString(Lookup(m, "image")).GetOr("")
    ensures r.Ok? ==> r.value.usedIngredients == ParseIngredients(Lookup(m, "used_ingredients")).value
    ensures r.Ok? ==> r.value.missedIngredients == ParseIngredients(Lookup(m, "missed_ingredients")).value
    ensures r.Err? ==> r == Err(Some(NotAMapMessage))
  {
    var title := AsString(Lookup(m, "title")).GetOr("");
    var image := AsString(Lookup(m, "image")).GetOr("");
    match ParseIngredients(Lookup(m, "used_ingredients"))
    case Err(e) => Err(e)
    case Ok(used) =>
      match ParseIngredients(Lookup(m, "missed_ingredients"))
      case Err(e) => Err(e)
      case Ok(missed) => Ok(RecipeResponse(image, missed, title, used))
  }

  /** How the document database stores an ingredient: one map keyed by property name. */
  function IngredientValue(g: Ingredient): (v: Value) {
    Map(map["amount" := Num(g.amount), "name" := Str(g.name), "unit" := Str(g.unit)])
  }

  function IngredientsValue(gs: seq<Ingredient>): (v: Value)
    ensures v.List? && |v.items| == |gs|
    ensures forall i | 0 <= i < |gs| :: v.items[i] == IngredientValue(gs[i])
  {
    List(seq(|gs|, i requires 0 <= i < |gs| => IngredientValue(gs[i])))
  }

  /** How the document database stores a recipe, as written by the publish action. */
  function RecipeMap(r: RecipeResponse): (m: map<string, Value>)
    ensures m.Keys == {"image", "missed_ingredients", "title", "used_ingredients"}
    ensures AsString(m["title"]) == Some(r.title) && AsString(m["image"]) == Some(r.image)
    ensures AsList(m["used_ingredients"]).Some? && AsList(m["missed_ingredients"]).Some?
  {
    map[
      "image" := Str(r.image),
      "missed_ingredients" := IngredientsValue(r.missedIngredients),
      "title" := Str(r.title),
      "used_ingredients" := IngredientsValue(r.usedIngredients)]
  }

  /** Reading back a stored ingredient list gives the list that was stored. */
  lemma {:induction false} IngredientsRoundTrip(gs: seq<Ingredient>)
    ensures ParseIngredients(IngredientsValue(gs)) == Ok(gs)
  {
    var v := IngredientsValue(gs);
    assert AllMaps(v.items);
    var r := ParseItems(v.items);
    forall i | 0 <= i < |gs| ensures r.value[i] == gs[i] {
      var m := v.items[i].fields;
      assert Lookup(m, "amount") == Num(gs[i].amount);
      assert Lookup(m, "name") == Str(gs[i].name);
      assert Lookup(m, "unit") == Str(gs[i].unit);
    }
    assert r.value == gs;
  }

  /** Parsing a stored recipe gives back the recipe that was stored. */
  lemma {:induction false} RecipeRoundTrip(r: RecipeResponse)
    ensures ParseRecipe(RecipeMap(r)) == Ok(r)
  {
    var m := RecipeMap(r);
    assert Lookup(m, "used_ingredients") == IngredientsValue(r.usedIngredients);
    assert Lookup(m, "missed_ingredients") == IngredientsValue(r.missedIngredients);
    IngredientsRoundTrip(r.usedIngredients);
    IngredientsRoundTrip(r.missedIngredients);
  }

  /** The empty map parses to the all-defaults recipe: no field is required. */
  lemma EmptyRecipeDefaults()
    ensures ParseRecipe(map[]) == Ok(RecipeResponse("", [], "", []))
  {
    assert Lookup(map[], "used_ingredients") == Null;
    assert Lookup(map[], "missed_ingredients") == Null;
  }
}
