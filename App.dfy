/**
 * The page's state: the five `useState` fields of `App` and the handlers
 * that overwrite them. A request to the service is issued by
 * `BeginFindRecipes` and settled by `FinishFindRecipes`; between the two the
 * page is loading.
 */
module RecipeApp {
  import opened Wrappers
  import opened Text
  import opened Json
  import opened Api
  import opened RecipeNormalizer

  const NoIngredientsMessage: string := "Please add at least one ingredient"

  /** What the network exchange gave: the parsed body, or the message of the error it raised. */
  datatype FetchOutcome = Responded(body: Value) | Rejected(message: string)

  /** No two ingredients have names that are equal once lower-cased. */
  ghost predicate DistinctIgnoringCase(xs: seq<Ingredient>) {
    forall i, j :: 0 <= i < j < |xs| ==> !SameIgnoringCase(xs[i].name, xs[j].name)
  }

  /** Every name is non-empty and carries no surrounding whitespace. */
  ghost predicate AllTrimmed(xs: seq<Ingredient>) {
    forall i :: 0 <= i < |xs| ==> xs[i].name != "" && IsTrimmed(xs[i].name)
  }

  /** `ingredients.some(ing => ing.name.toLowerCase() === name.toLowerCase())`. */
  predicate HasIngredient(xs: seq<Ingredient>, name: string) {
    exists i :: 0 <= i < |xs| && SameIgnoringCase(xs[i].name, name)
  }

  /** `xs.filter((_, index) => index !== indexToRemove)`. */
  function Without<T>(xs: seq<T>, indexToRemove: int): seq<T> {
    if xs == [] then []
    else if |xs| - 1 == indexToRemove then Without(xs[..|xs| - 1], indexToRemove)
    else Without(xs[..|xs| - 1], indexToRemove) + [xs[|xs| - 1]]
  }

  /** The filter drops exactly the element at a valid index, keeping the order of the rest, and nothing otherwise. */
  lemma {:induction false} WithoutIndex<T>(xs: seq<T>, indexToRemove: int)
    ensures 0 <= indexToRemove < |xs| ==> Without(xs, indexToRemove) == xs[..indexToRemove] + xs[indexToRemove + 1..]
    ensures !(0 <= indexToRemove < |xs|) ==> Without(xs, indexToRemove) == xs
  {
    if xs != [] {
      var init := xs[..|xs| - 1];
      WithoutIndex(init, indexToRemove);
      if 0 <= indexToRemove < |init| {
        assert init[..indexToRemove] == xs[..indexToRemove];
        assert init[indexToRemove + 1..] + [xs[|xs| - 1]] == xs[indexToRemove + 1..];
      } else if indexToRemove == |init| {
        assert xs[indexToRemove + 1..] == [];
      } else {
        assert init + [xs[|xs| - 1]] == xs;
      }
    }
  }

  /** Removing one element keeps the names distinct and trimmed. */
  lemma RemovePreservesInvariant(xs: seq<Ingredient>, i: int)
    requires DistinctIgnoringCase(xs) && AllTrimmed(xs)
    ensures DistinctIgnoringCase(Without(xs, i)) && AllTrimmed(Without(xs, i))
  {
    WithoutIndex(xs, i);
    if 0 <= i < |xs| {
      var ys := Without(xs, i);
      assert forall p :: 0 <= p < |ys| ==> ys[p] == xs[if p < i then p else p + 1];
    }
  }

  /** The page. */
  class App {
    var ingredients: seq<Ingredient>
    var currentIngredient: string
    var recipes: seq<Recipe>
    var loading: bool
    var error: string

    ghost predicate Valid()
      reads this
    {
      DistinctIgnoringCase(ingredients) && AllTrimmed(ingredients)
    }

    /** The initial values of the five fields. */
    constructor()
      ensures Valid()
      ensures ingredients == [] && currentIngredient == "" && recipes == []
      ensures !loading && error == ""
    {
      ingredients, currentIngredient, recipes := [], "", [];
      loading, error := false, "";
    }

    /** The input's `onChange`. */
    method SetCurrentIngredient(text: string)
      modifies this`currentIngredient
      ensures currentIngredient == text
    {
      currentIngredient := text;
    }

    /**
     * Appends the trimmed input and clears it, unless the trimmed input is
     * empty or already present ignoring case; then nothing changes.
     */
    method AddIngredient()
      requires Valid()
      modifies this`ingredients, this`currentIngredient
      ensures Valid()
      ensures var trimmed := Trim(old(currentIngredient));
        if trimmed != "" && !HasIngredient(old(ingredients), trimmed) then
          ingredients == old(ingredients) + [Ingredient(trimmed)] && currentIngredient == ""
        else
          ingredients == old(ingredients) && currentIngredient == old(currentIngredient)
    {
      var trimmed := Trim(currentIngredient);
      if trimmed != "" && !HasIngredient(ingredients, trimmed) {
        ingredients := ingredients + [Ingredient(trimmed)];
        currentIngredient := "";
      }
    }

    /** The input's `onKeyPress`: Enter adds the ingredient, any other key does nothing. */
    method HandleKeyPress(key: string)
      requires Valid()
      modifies this`ingredients, this`currentIngredient
      ensures Valid()
      ensures key != "Enter" ==> ingredients == old(ingredients) && currentIngredient == old(currentIngredient)
      ensures key == "Enter" ==>
        var trimmed := Trim(old(currentIngredient));
        if trimmed != "" && !HasIngredient(old(ingredients), trimmed) then
          ingredients == old(ingredients) + [Ingredient(trimmed)] && currentIngredient == ""
        else
          ingredients == old(ingredients) && currentIngredient == old(currentIngredient)
    {
      if key == "Enter" {
        AddIngredient();
      }
    }

    /** Drops the ingredient at `indexToRemove`; an index out of range changes nothing. */
    method RemoveIngredient(indexToRemove: int)
      requires Valid()
      modifies this`ingredients
      ensures Valid()
      ensures 0 <= indexToRemove < |old(ingredients)| ==>
        ingredients == old(ingredients)[..indexToRemove] + old(ingredients)[indexToRemove + 1..]
      ensures !(0 <= indexToRemove < |old(ingredients)|) ==> ingredients == old(ingredients)
    {
      RemovePreservesInvariant(ingredients, indexToRemove);
      WithoutIndex(ingredients, indexToRemove);
      ingredients := Without(ingredients, indexToRemove);
    }

    /**
     * The part of `findRecipes` before the request: with no ingredients it
     * sets the error and issues nothing; otherwise it starts loading, clears
     * the error and returns the request body.
     */
    method BeginFindRecipes() returns (request: Option<RecipeRequest>)
      modifies this`loading, this`error
      ensures old(ingredients) == [] ==>
        request == None && error == NoIngredientsMessage && loading == old(loading)
      ensures old(ingredients) != [] ==>
        request == Some(RecipeRequest(ingredients, [], None)) && loading && error == ""
    {
      if |ingredients| == 0 {
        error := NoIngredientsMessage;
        return None;
      }
      loading := true;
      error := "";
      request := Some(RecipeRequest(ingredients, [], None));
    }

    /**
     * The part of `findRecipes` after the request: a normalised batch replaces
     * the recipes; a rejected exchange or a TypeError while normalising sets
     * the error and keeps the recipes; loading ends either way.
     */
    method FinishFindRecipes(outcome: FetchOutcome, clock: nat -> nat)
      modifies this`recipes, this`loading, this`error
      ensures !loading
      ensures outcome.Rejected? ==> error == outcome.message && recipes == old(recipes)
      ensures outcome.Responded? && CleanRecipes(outcome.body, clock).Success? ==>
        recipes == CleanRecipes(outcome.body, clock).value && error == old(error)
      ensures outcome.Responded? && CleanRecipes(outcome.body, clock).Failure? ==>
        error == CleanRecipes(outcome.body, clock).error && recipes == old(recipes)
    {
      match outcome {
        case Rejected(message) =>
          error := message;
        case Responded(body) =>
          match CleanRecipes(body, clock) {
            case Success(batch) => recipes := batch;
            case Failure(message) => error := message;
          }
      }
      loading := false;
    }

    /**
     * `findRecipes` run to completion: `exchange` is the network exchange and
     * the service, as a function of the request body.
     */
    method FindRecipes(exchange: RecipeRequest -> FetchOutcome, clock: nat -> nat)
      modifies this`recipes, this`loading, this`error
      ensures old(ingredients) == [] ==>
        error == NoIngredientsMessage && loading == old(loading) && recipes == old(recipes)
      ensures old(ingredients) != [] ==>
        var outcome := exchange(RecipeRequest(ingredients, [], None));
        && !loading
        && (outcome.Rejected? ==> error == outcome.message && recipes == old(recipes))
        && (outcome.Responded? && CleanRecipes(outcome.body, clock).Success? ==>
              recipes == CleanRecipes(outcome.body, clock).value && error == "")
        && (outcome.Responded? && CleanRecipes(outcome.body, clock).Failure? ==>
              error == CleanRecipes(outcome.body, clock).error && recipes == old(recipes))
    {
      var request := BeginFindRecipes();
      if request.Some? {
        FinishFindRecipes(exchange(request.value), clock);
      }
    }

    /** Empties the ingredients, the recipes, the input and the error; loading is left alone. */
    method ClearAll()
      requires Valid()
      modifies this`ingredients, this`recipes, this`currentIngredient, this`error
      ensures Valid()
      ensures ingredients == [] && recipes == [] && currentIngredient == "" && error == ""
    {
      ingredients := [];
      recipes := [];
      currentIngredient := "";
      error := "";
    }
  }
}
