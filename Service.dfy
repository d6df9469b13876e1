/**
 * The `/analyze-recipes` handler of the recipe service: the fallback recipe,
 * the loop that keeps the recipes that pass validation, the substitution of
 * the fallback when none does, and the message of the response.
 */
module RecipeService {
  import opened Wrappers
  import opened Text
  import opened Json
  import opened Api
  import opened RecipePrompt

  /** An HTTP error response: its status code and its `detail`. */
  datatype HttpError = HttpError(status: int, detail: string)

  /** The body of a successful response. */
  datatype RecipeResponse = RecipeResponse(recipes: seq<Value>, message: string)

  /** What the language-model step gave: the parsed JSON of its answer, or that it raised. */
  datatype LlmOutcome = Generated(data: Value) | Raised

  /** Pydantic's verdict on `Recipe(**record)`: accepted, or the text of the validation error. */
  datatype Validation = Accepted | Rejected(reason: string)

  const NoIngredientsDetail: string := "No ingredients provided"
  const InternalErrorPrefix: string := "Internal server error: "

  const FallbackInstructions: seq<string> := [
    "Prepare and clean all ingredients",
    "Heat oil in a large pan over medium heat",
    "Add ingredients in order of cooking time needed",
    "Season with salt, pepper, and your favorite spices",
    "Cook until tender and flavors are well combined",
    "Serve hot and enjoy!"
  ]

  /** Python's `xs[:2]`. */
  function FirstTwo(xs: seq<string>): (r: seq<string>)
    ensures |r| == if |xs| < 2 then |xs| else 2
    ensures r == xs[..|r|]
  {
    if |xs| < 2 then xs else xs[..2]
  }

  function StrList(xs: seq<string>): (v: Value)
    ensures v.Arr? && |v.items| == |xs|
    ensures forall i :: 0 <= i < |xs| ==> v.items[i] == Str(xs[i])
  {
    Arr(seq(|xs|, i requires 0 <= i < |xs| => Str(xs[i])))
  }

  function FallbackName(names: seq<string>): string {
    "Simple " + Join(" & ", FirstTwo(names)) + " Dish"
  }

  const FallbackNutrition: Value := Obj(map[
    "calories" := Num(320),
    "protein" := Str("12g"),
    "carbs" := Str("35g"),
    "fat" := Str("8g"),
    "fiber" := Str("5g")])

  /** The one recipe of `create_fallback_recipe(names)`. */
  function FallbackRecord(names: seq<string>): map<string, Value> {
    map[
      "name" := Str(FallbackName(names)),
      "ingredients" := StrList(names),
      "instructions" := StrList(FallbackInstructions),
      "cookingTime" := Str("25 minutes"),
      "difficulty" := Str("Easy"),
      "servings" := Num(4),
      "nutrition" := FallbackNutrition]
  }

  /** `create_fallback_recipe(names)`: a response-shaped dict holding one recipe. */
  function CreateFallbackRecipe(names: seq<string>): Value {
    Obj(map["recipes" := Arr([Obj(FallbackRecord(names))])])
  }

  // The strict reading of the `Recipe` and `NutritionInfo` models: every
  // required field present with the declared type, optional ones absent,
  // `null` or of the declared type. Extra keys are ignored.

  predicate HasStr(m: map<string, Value>, key: string) {
    key in m && m[key].Str?
  }

  predicate HasStrList(m: map<string, Value>, key: string) {
    key in m && m[key].Arr? && forall x :: x in m[key].items ==> x.Str?
  }

  predicate OptionalStr(m: map<string, Value>, key: string) {
    key !in m || m[key].Null? || m[key].Str?
  }

  predicate MatchesNutritionInfo(v: Value) {
    && v.Obj?
    && "calories" in v.fields && v.fields["calories"].Num?
    && HasStr(v.fields, "protein") && HasStr(v.fields, "carbs")
    && OptionalStr(v.fields, "fat") && OptionalStr(v.fields, "fiber")
  }

  predicate MatchesRecipe(m: map<string, Value>) {
    && HasStr(m, "name")
    && HasStrList(m, "ingredients")
    && HasStrList(m, "instructions")
    && HasStr(m, "cookingTime")
    && HasStr(m, "difficulty")
    && ("servings" !in m || m["servings"].Null? || m["servings"].Num?)
    && "nutrition" in m && MatchesNutritionInfo(m["nutrition"])
  }

  /**
   * `create_fallback_recipe(names)` holds exactly one recipe, which lists the
   * given ingredients, is named after the first two of them, has six steps,
   * and matches the `Recipe` model.
   */
  lemma FallbackRecipeShape(names: seq<string>)
    ensures RecipeEntries(CreateFallbackRecipe(names)) == Success([Obj(FallbackRecord(names))])
    ensures var r := FallbackRecord(names);
      && r["name"] == Str("Simple " + Join(" & ", FirstTwo(names)) + " Dish")
      && r["ingredients"] == StrList(names)
      && |r["instructions"].items| == 6
      && r["difficulty"] == Str("Easy")
      && r["servings"] == Num(4)
      && r["cookingTime"] == Str("25 minutes")
      && r["instructions"] == StrList(FallbackInstructions)
      && r["nutrition"] == FallbackNutrition
    ensures MatchesRecipe(FallbackRecord(names))
  {
    var r := FallbackRecord(names);
    assert r["ingredients"] == StrList(names);
    assert r["instructions"] == StrList(FallbackInstructions);
    assert r["nutrition"] == FallbackNutrition;
    assert MatchesNutritionInfo(FallbackNutrition);
  }

  /**
   * The entries `for recipe_dict in recipe_data.get("recipes", [])` visits,
   * or the text of the exception the loop header raises. Iterating a string
   * yields one-character strings and iterating a dict yields its keys; none
   * of those is a mapping, so each is skipped, and the empty sequence is
   * used for a dict.
   */
  function RecipeEntries(data: Value): Result<seq<Value>, string> {
    match data
    case Obj(m) =>
      if "recipes" !in m then Success([])
      else (
        match m["recipes"]
        case Arr(xs) => Success(xs)
        case Str(s) => Success(seq(|s|, i requires 0 <= i < |s| => Str([s[i]])))
        case Obj(_) => Success([])
        case Null => Failure("'NoneType' object is not iterable")
        case Num(_) => Failure("'int' object is not iterable")
        case Bool(_) => Failure("'bool' object is not iterable"))
    case Arr(_) => Failure("'list' object has no attribute 'get'")
    case Str(_) => Failure("'str' object has no attribute 'get'")
    case Num(_) => Failure("'int' object has no attribute 'get'")
    case Bool(_) => Failure("'bool' object has no attribute 'get'")
    case Null => Failure("'NoneType' object has no attribute 'get'")
  }

  /**
   * What the loop header meets under `recipes`: an array is iterated as it is;
   * a string, a dict or a missing key leaves nothing to keep; `None`, a number
   * or a boolean raises, as does a body that is not a dict; each of those ends
   * in the 500 answer.
   */
  lemma RecipeEntriesCases(data: Value, validate: map<string, Value> -> Validation)
    ensures RecipeEntries(data).Success? <==>
      data.Obj? && ("recipes" in data.fields ==>
        data.fields["recipes"].Arr? || data.fields["recipes"].Str? || data.fields["recipes"].Obj?)
    ensures data.Obj? && "recipes" in data.fields && data.fields["recipes"].Arr? ==>
      RecipeEntries(data) == Success(data.fields["recipes"].items)
    ensures RecipeEntries(data).Success? && !("recipes" in data.fields && data.fields["recipes"].Arr?) ==>
      Collect(RecipeEntries(data).value, validate) == []
    ensures RecipeEntries(data).Failure? ==>
      forall request, apiKeySet, llm :: RecipeData(request, apiKeySet, llm) == data && request.ingredients != [] ==>
        AnalyzeResult(request, apiKeySet, llm, validate) == Failure(HttpError(500, InternalErrorPrefix + RecipeEntries(data).error))
  {
    if RecipeEntries(data).Success? && !("recipes" in data.fields && data.fields["recipes"].Arr?) {
      CollectNoMappings(RecipeEntries(data).value, validate);
    }
  }

  /** `Recipe(**entry)` succeeds: the entry is a mapping that validation accepts. */
  predicate Keeps(validate: map<string, Value> -> Validation, entry: Value) {
    entry.Obj? && validate(entry.fields).Accepted?
  }

  /** The recipes the loop collects from `entries`. */
  function Collect(entries: seq<Value>, validate: map<string, Value> -> Validation): seq<Value> {
    if entries == [] then []
    else
      var last := entries[|entries| - 1];
      Collect(entries[..|entries| - 1], validate) + (if Keeps(validate, last) then [last] else [])
  }

  /** Collecting distributes over concatenation: the kept entries stay in their order. */
  lemma {:induction false} CollectAppend(a: seq<Value>, b: seq<Value>, validate: map<string, Value> -> Validation)
    ensures Collect(a + b, validate) == Collect(a, validate) + Collect(b, validate)
  {
    if b == [] {
      assert a + b == a;
    } else {
      var init := b[..|b| - 1];
      assert (a + b)[..|a + b| - 1] == a + init;
      CollectAppend(a, init, validate);
    }
  }

  /** The collected recipes are exactly the entries validation accepts. */
  lemma {:induction false} CollectMembers(entries: seq<Value>, validate: map<string, Value> -> Validation)
    ensures forall x :: x in Collect(entries, validate) <==> x in entries && Keeps(validate, x)
  {
    if entries != [] {
      var init := entries[..|entries| - 1];
      CollectMembers(init, validate);
      assert entries == init + [entries[|entries| - 1]];
    }
  }

  /** Entries none of which is a mapping leave nothing to keep. */
  lemma {:induction false} CollectNoMappings(entries: seq<Value>, validate: map<string, Value> -> Validation)
    requires forall i :: 0 <= i < |entries| ==> !entries[i].Obj?
    ensures Collect(entries, validate) == []
  {
    if entries != [] {
      CollectNoMappings(entries[..|entries| - 1], validate);
    }
  }

  /** The response message: the count, with `s` unless it is 1, and the ingredient names. */
  function ResponseMessage(names: seq<string>, count: nat): string {
    "Generated " + Counted(count, "recipe") + " using your ingredients: " + Join(", ", names) + "!"
  }

  /** `recipe_data`: the fallback without an API key or when the model step raised, its answer otherwise. */
  function RecipeData(request: RecipeRequest, apiKeySet: bool, llm: string -> LlmOutcome): Value {
    var names := Names(request.ingredients);
    if !apiKeySet then CreateFallbackRecipe(names)
    else
      match llm(Prompt(names, request.dietaryRestrictions, request.cuisinePreference))
      case Generated(data) => data
      case Raised => CreateFallbackRecipe(names)
  }

  /** What `analyze_recipes` answers. */
  function AnalyzeResult(request: RecipeRequest, apiKeySet: bool, llm: string -> LlmOutcome,
                         validate: map<string, Value> -> Validation): Result<RecipeResponse, HttpError>
  {
    var names := Names(request.ingredients);
    if names == [] then Failure(HttpError(400, NoIngredientsDetail))
    else
      match RecipeEntries(RecipeData(request, apiKeySet, llm))
      case Failure(e) => Failure(HttpError(500, InternalErrorPrefix + e))
      case Success(entries) =>
        var kept := Collect(entries, validate);
        if kept != [] then Success(RecipeResponse(kept, ResponseMessage(names, |kept|)))
        else
          match validate(FallbackRecord(names))
          case Accepted => Success(RecipeResponse([Obj(FallbackRecord(names))], ResponseMessage(names, 1)))
          case Rejected(reason) => Failure(HttpError(500, InternalErrorPrefix + reason))
  }

  /** The collection loop: every entry is tried, and the ones that validate are kept in order. */
  method CollectRecipes(entries: seq<Value>, validate: map<string, Value> -> Validation)
    returns (recipes: seq<Value>)
    ensures recipes == Collect(entries, validate)
  {
    recipes := [];
    for i := 0 to |entries|
      invariant recipes == Collect(entries[..i], validate)
    {
      var recipeDict := entries[i];
      assert entries[..i + 1][..i] == entries[..i];
      if recipeDict.Obj? && validate(recipeDict.fields).Accepted? {
        recipes := recipes + [recipeDict];
      }
    }
    assert entries[..|entries|] == entries;
  }

  /** The step that produces `recipe_data`. */
  method ObtainRecipeData(request: RecipeRequest, apiKeySet: bool, llm: string -> LlmOutcome)
    returns (recipeData: Value)
    ensures recipeData == RecipeData(request, apiKeySet, llm)
  {
    var names := Names(request.ingredients);
    if !apiKeySet {
      recipeData := CreateFallbackRecipe(names);
    } else {
      var prompt := CreateRecipePrompt(names, request.dietaryRestrictions, request.cuisinePreference);
      match llm(prompt) {
        case Generated(data) => recipeData := data;
        case Raised => recipeData := CreateFallbackRecipe(names);
      }
    }
  }

  /**
   * `analyze_recipes`: the request's ingredients go to the model (or straight
   * to the fallback), the loop keeps every entry that validates, and the
   * fallback stands in when none does.
   */
  method AnalyzeRecipes(request: RecipeRequest, apiKeySet: bool, llm: string -> LlmOutcome,
                        validate: map<string, Value> -> Validation)
    returns (result: Result<RecipeResponse, HttpError>)
    ensures result == AnalyzeResult(request, apiKeySet, llm, validate)
  {
    var names := Names(request.ingredients);
    if |request.ingredients| == 0 {
      return Failure(HttpError(400, NoIngredientsDetail));
    }
    var recipeData := ObtainRecipeData(request, apiKeySet, llm);
    var entries := RecipeEntries(recipeData);
    if entries.Failure? {
      return Failure(HttpError(500, InternalErrorPrefix + entries.error));
    }
    var recipes := CollectRecipes(entries.value, validate);
    if recipes == [] {
      var fallback := FallbackRecord(names);
      match validate(fallback) {
        case Accepted => recipes := [Obj(fallback)];
        case Rejected(reason) => return Failure(HttpError(500, InternalErrorPrefix + reason));
      }
    }
    result := Success(RecipeResponse(recipes, ResponseMessage(names, |recipes|)));
  }

  /** The request is refused with 400 exactly when it names no ingredient. */
  lemma RejectsOnlyEmptyRequests(request: RecipeRequest, apiKeySet: bool, llm: string -> LlmOutcome,
                                 validate: map<string, Value> -> Validation)
    ensures var r := AnalyzeResult(request, apiKeySet, llm, validate);
      (r.Failure? && r.error.status == 400) <==> request.ingredients == []
    ensures request.ingredients == [] ==>
      AnalyzeResult(request, apiKeySet, llm, validate) == Failure(HttpError(400, NoIngredientsDetail))
  {
  }

  /**
   * A successful answer is never empty. When some entry validates, the
   * recipes are exactly the validated entries in their order; when none
   * does, they are the fallback recipe alone. The message counts them.
   */
  lemma SuccessfulResponse(request: RecipeRequest, apiKeySet: bool, llm: string -> LlmOutcome,
                           validate: map<string, Value> -> Validation)
    requires AnalyzeResult(request, apiKeySet, llm, validate).Success?
    ensures var response := AnalyzeResult(request, apiKeySet, llm, validate).value;
      var entries := RecipeEntries(RecipeData(request, apiKeySet, llm)).value;
      && RecipeEntries(RecipeData(request, apiKeySet, llm)).Success?
      && |response.recipes| >= 1
      && response.message == ResponseMessage(Names(request.ingredients), |response.recipes|)
      && (Collect(entries, validate) != [] ==> response.recipes == Collect(entries, validate))
      && (Collect(entries, validate) == [] ==> response.recipes == [Obj(FallbackRecord(Names(request.ingredients)))])
      && forall x :: x in response.recipes ==> x.Obj? && validate(x.fields).Accepted?
  {
    var entries := RecipeEntries(RecipeData(request, apiKeySet, llm)).value;
    CollectMembers(entries, validate);
  }

  /**
   * An answer of the model without a `"recipes"` key is read as no recipes,
   * so the fallback recipe stands in, provided it validates.
   */
  lemma AnswerWithoutRecipesFallsBack(request: RecipeRequest, llm: string -> LlmOutcome,
                                      validate: map<string, Value> -> Validation)
    requires request.ingredients != []
    requires var names := Names(request.ingredients);
      && llm(Prompt(names, request.dietaryRestrictions, request.cuisinePreference)).Generated?
      && var answer := llm(Prompt(names, request.dietaryRestrictions, request.cuisinePreference)).data;
      && answer.Obj? && "recipes" !in answer.fields
    requires validate(FallbackRecord(Names(request.ingredients))).Accepted?
    ensures AnalyzeResult(request, true, llm, validate)
      == Success(RecipeResponse([Obj(FallbackRecord(Names(request.ingredients)))],
                                ResponseMessage(Names(request.ingredients), 1)))
  {
  }

  /**
   * Without an API key, and with a validator that accepts every record
   * matching the `Recipe` model, the answer is the fallback recipe alone.
   */
  lemma NoApiKeyGivesFallback(request: RecipeRequest, llm: string -> LlmOutcome,
                              validate: map<string, Value> -> Validation)
    requires request.ingredients != []
    requires forall m :: MatchesRecipe(m) ==> validate(m).Accepted?
    ensures AnalyzeResult(request, false, llm, validate)
      == Success(RecipeResponse([Obj(FallbackRecord(Names(request.ingredients)))],
                                ResponseMessage(Names(request.ingredients), 1)))
  {
    var names := Names(request.ingredients);
    FallbackRecipeShape(names);
    var entries := [Obj(FallbackRecord(names))];
    assert entries[..0] == [];
    assert Collect(entries, validate) == [Obj(FallbackRecord(names))];
  }
}
