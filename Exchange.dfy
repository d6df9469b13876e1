/**
 * The two ends together: the JSON body the service answers with, fed to the
 * page's normalisation.
 */
module RecipeExchange {
  import opened Wrappers
  import opened Json
  import opened Api
  import opened RecipeNormalizer
  import opened RecipePrompt
  import opened RecipeService
  import opened RecipeView

  /**
   * The body FastAPI writes: the response model, or `{"detail": ...}` for an
   * HTTP error. Each recipe is written as a JSON object.
   */
  function ResponseBody(result: Result<RecipeResponse, HttpError>): Value {
    match result
    case Success(r) => Obj(map["recipes" := Arr(r.recipes), "message" := Str(r.message)])
    case Failure(e) => Obj(map["detail" := Str(e.detail)])
  }

  /** A record with the `Recipe` model's shape normalises on the page, keeping its name. */
  lemma RecordNormalizes(record: Value, id: string)
    requires record.Obj? && MatchesRecipe(record.fields)
    ensures CleanRecipe(record, id).Success?
    ensures record.fields["name"].s != "" ==> CleanRecipe(record, id).value.name == record.fields["name"].s
  {
  }

  /** A record with the `Recipe` model's shape renders as a recipe card, never as the error card. */
  lemma RecordRenders(record: Value, id: string)
    requires record.Obj? && MatchesRecipe(record.fields)
    ensures CleanRecipe(record, id).Success?
    ensures RenderRecipe(CleanRecipe(record, id).value).Rendered?
  {
    RecordNormalizes(record, id);
    var r := CleanRecipe(record, id).value;
    assert r.instructions == record.fields["instructions"].items;
    assert forall i :: 0 <= i < |r.instructions| ==> r.instructions[i] in record.fields["instructions"].items;
    RenderRecipeShape(r);
  }

  /** A body listing records of the `Recipe` model's shape normalises, one page recipe per record. */
  lemma RecordsNormalize(records: seq<Value>, message: string, clock: nat -> nat)
    requires forall x :: x in records ==> x.Obj? && MatchesRecipe(x.fields)
    ensures var body := ResponseBody(Success(RecipeResponse(records, message)));
      && CleanRecipes(body, clock).Success?
      && |CleanRecipes(body, clock).value| == |records|
  {
    var body := ResponseBody(Success(RecipeResponse(records, message)));
    assert RecipesArray(body) == Some(records);
    forall i | 0 <= i < |records| ensures CleanAt(records, clock, i).Success? {
      assert records[i] in records;
      RecordNormalizes(records[i], RecipeId(clock(i), i));
    }
    CleanRecipesShape(body, clock);
  }

  /**
   * The body of a successful answer always normalises, one page recipe per
   * service recipe, at least one, when every record validation accepts has the
   * shape of the `Recipe` model (as the serialised model has).
   */
  lemma SuccessfulAnswerNormalizes(request: RecipeRequest, apiKeySet: bool, llm: string -> LlmOutcome,
                                   validate: map<string, Value> -> Validation, clock: nat -> nat)
    requires AnalyzeResult(request, apiKeySet, llm, validate).Success?
    requires forall m :: validate(m).Accepted? ==> MatchesRecipe(m)
    ensures var result := AnalyzeResult(request, apiKeySet, llm, validate);
      && CleanRecipes(ResponseBody(result), clock).Success?
      && |CleanRecipes(ResponseBody(result), clock).value| == |result.value.recipes| >= 1
  {
    var response := AnalyzeResult(request, apiKeySet, llm, validate).value;
    SuccessfulResponse(request, apiKeySet, llm, validate);
    RecordsNormalize(response.recipes, response.message, clock);
  }

  /**
   * An error answer has no `recipes`, so the page reports the TypeError of
   * `.map` on `undefined` rather than the service's `detail`.
   */
  lemma ErrorAnswerSurfacesAsTypeError(result: Result<RecipeResponse, HttpError>, clock: nat -> nat)
    requires result.Failure?
    ensures CleanRecipes(ResponseBody(result), clock) == Failure(UndefinedRecipesMessage)
  {
    assert Property(ResponseBody(result), "recipes") == None;
  }

  /**
   * The page's request, which has at least one ingredient, no restrictions and
   * no cuisine, is never refused with 400, and its prompt has no optional line.
   */
  lemma PageRequestAccepted(ingredients: seq<Ingredient>, apiKeySet: bool, llm: string -> LlmOutcome,
                            validate: map<string, Value> -> Validation)
    requires ingredients != []
    ensures var r := AnalyzeResult(RecipeRequest(ingredients, [], None), apiKeySet, llm, validate);
      !(r.Failure? && r.error.status == 400)
    ensures Prompt(Names(ingredients), [], None) == Intro(Names(ingredients)) + ResponseFormat
  {
    PromptWithoutExtras(Names(ingredients));
    RejectsOnlyEmptyRequests(RecipeRequest(ingredients, [], None), apiKeySet, llm, validate);
  }
}
