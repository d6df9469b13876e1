/** The request the front end posts to the recipe service, as both ends read it. */
module Api {
  import opened Wrappers

  /** One ingredient of the request. The service also accepts an optional quantity, which nothing reads. */
  datatype Ingredient = Ingredient(name: string)

  /** The body of a request to the recipe-analysis endpoint. */
  datatype RecipeRequest = RecipeRequest(
    ingredients: seq<Ingredient>,
    dietaryRestrictions: seq<string>,
    cuisinePreference: Option<string>)

  /** The names of the ingredients, in order. */
  function Names(ingredients: seq<Ingredient>): (r: seq<string>)
    ensures |r| == |ingredients|
    ensures forall i :: 0 <= i < |r| ==> r[i] == ingredients[i].name
  {
    seq(|ingredients|, i requires 0 <= i < |ingredients| => ingredients[i].name)
  }
}
