# Smart Recipe Analyzer, modelled in Dafny

The Smart Recipe Analyzer is a one-page React application plus a small FastAPI
service. On the page the user collects ingredient names and asks the service
for recipes. The service builds a prompt for a language model, falls back to a
fixed recipe when it has no API key, when the model step fails, or when no
suggested recipe validates, and answers with the recipes and a summary message.
The page normalises every received recipe before storing it, then renders
cards from the stored recipes.

This project models that core.

- **`RecipeApp.App`** (`App.dfy`) is a class. Its fields are the page's five
  `useState` values, and its methods are the handlers: typing, add (button and
  Enter key), remove, find recipes and clear all. `findRecipes` is split at
  its `await` into `BeginFindRecipes` and `FinishFindRecipes`, and
  `FindRecipes` runs the two in sequence. The ghost predicate `Valid()` holds
  in every state a handler can reach: ingredient names are non-empty, trimmed
  and distinct ignoring case.
- **`RecipeNormalizer`** (`Normalizer.dfy`) is the `data.recipes.map(...)`
  normalisation. `RecipeNormalizer.CleanRecipes` succeeds or fails with the
  TypeError message the page would show.
- **`RecipeView`** (`View.dfy`) holds the render decisions:
  - the difficulty badge colour;
  - when the instructions and the nutrition grid appear;
  - which nutrition cells appear;
  - the status line and the error card.
- **`RecipePrompt`** (`Prompt.dfy`) is `create_recipe_prompt`. It is a method
  that appends to the prompt, proved equal to a function of its inputs.
- **`RecipeService`** (`Service.dfy`) holds:
  - `create_fallback_recipe`;
  - the loop that collects validated recipes;
  - the whole decision procedure of the `/analyze-recipes` handler.
- **`RecipeExchange`** (`Exchange.dfy`) connects the two halves: the JSON
  body the service answers, as the page's normaliser receives it.
- **Supporting modules:**
  - `Json.dfy` holds JSON values with JavaScript truthiness, property access,
    `String()` and `Object.keys(...).length`.
  - `Text.dfy` holds `trim`, lower-casing, `join` and integer-to-decimal
    conversion, plus the pluralised count used by both status texts.
  - `Api.dfy` holds the request body.
  - `Wrappers.dfy` holds `Option` and `Result`.

Three things outside the program are parameters:

- **The clock.** `Date.now()` is a function `clock: nat -> nat` of the entry
  index, so every entry may see a different reading.
- **The network round trip.** The page's `fetch` is a function
  `exchange: RecipeRequest -> FetchOutcome`.
- **The service's collaborators:**
  - the language model is `llm: string -> LlmOutcome`;
  - whether `OPENAI_API_KEY` is set is `apiKeySet: bool`;
  - pydantic's `Recipe(**entry)` validation is
    `validate: map<string, Value> -> Validation`.

Where the code's behaviour is easy to misread, the model follows the code:

- A response without a `recipes` key makes `data.recipes.map` throw. So the
  page shows the TypeError text "Cannot read properties of undefined (reading
  'map')" and keeps its previous recipes. This also happens to every error
  answer of the service, because the page never checks the HTTP status.
- Entries are normalised in order, and the first one that throws aborts the
  whole batch with its TypeError. An entry throws when it is `null`, or when
  one of `name`, `cookingTime`, `difficulty` or `servings` is a truthy
  object with its own `toString` key (or an array holding one). `String()` and
  `Number()` cannot convert such a value to a primitive.
- `recipe.nutrition || {}` keeps any truthy value, including a string or a
  number. Only the object case can produce nutrition cells.
- `Number(recipe.servings || 4)` is not clamped: a negative number or a
  non-numeric value passes through.
- `findRecipes` has no guard against being re-entered while loading. The
  disabled button is the only protection, and it is a render attribute.
- The service's collection loop iterates whatever `recipe_data.get("recipes", [])`
  holds:
  - a string is iterated character by character;
  - a dict is iterated by its keys;
  - `None`, a number or a boolean raises, which becomes a 500 "Internal
    server error: ..." answer.

  A character or a key is then skipped, because `Recipe(**x)` raises a
  TypeError for an argument that is not a mapping, before any validation runs.

## Model

| member | source | states |
|---|---|---|
| Text.Trim | frontend/smart-recipe-analyzer/src/App.tsx:418 | The result has no leading or trailing JavaScript whitespace. It is empty exactly when the input is all whitespace. Only whitespace was cut from each end. |
| Text.NatStrInjective | frontend/smart-recipe-analyzer/src/App.tsx:461 | Two naturals with the same decimal text are equal, which is what makes recipe ids tell their indices apart. |
| Text.Counted | frontend/smart-recipe-analyzer/src/App.tsx:657 | "n noun" gets a trailing `s` exactly when n is not 1. |
| Json.Property | frontend/smart-recipe-analyzer/src/App.tsx:460-469 | Reading one of the data keys the page uses yields exactly `v.fields[key]` when v is an object holding that key, and `undefined` otherwise. |
| Json.ToJsString | frontend/smart-recipe-analyzer/src/App.tsx:462-464 | `String(v)` throws "Cannot convert object to primitive value" exactly when v is an object with its own `toString` key or an array holding such a value. A string converts to itself, an integer to its decimal text and any other object to "[object Object]". |
| RecipeApp.WithoutIndex | frontend/smart-recipe-analyzer/src/App.tsx:425-427 | `Without`, the index filter: filtering by index drops exactly the element at an in-range index and keeps the rest in order. An out-of-range index leaves the list unchanged. |
| RecipeApp.RemovePreservesInvariant | frontend/smart-recipe-analyzer/src/App.tsx:425-427 | Removing by index keeps the ingredient names non-empty, trimmed and distinct ignoring case. |
| RecipeApp.App.constructor | frontend/smart-recipe-analyzer/src/App.tsx:410-415 | The page starts with no ingredients, an empty input, no recipes, not loading and no error, and the invariant holds. |
| RecipeApp.App.SetCurrentIngredient | frontend/smart-recipe-analyzer/src/App.tsx:412 | The input text becomes the typed text, and nothing else changes. |
| RecipeApp.App.AddIngredient | frontend/smart-recipe-analyzer/src/App.tsx:417-423 | If the trimmed input is non-empty and no ingredient has the same name ignoring case, it is appended and the input is cleared. Otherwise the list and input are unchanged. The invariant is preserved. |
| RecipeApp.App.HandleKeyPress | frontend/smart-recipe-analyzer/src/App.tsx:429-433 | Enter behaves exactly as the add button. Any other key changes nothing. |
| RecipeApp.App.RemoveIngredient | frontend/smart-recipe-analyzer/src/App.tsx:425-427 | The list loses exactly the element at an in-range index and is unchanged otherwise. The invariant is preserved. |
| RecipeApp.App.BeginFindRecipes | frontend/smart-recipe-analyzer/src/App.tsx:435-443 | With no ingredients, the error becomes "Please add at least one ingredient", no request is issued and loading is untouched. Otherwise loading starts, the error is cleared and the request carries the ingredients with no restrictions and no cuisine. |
| RecipeApp.App.FinishFindRecipes | frontend/smart-recipe-analyzer/src/App.tsx:457-478 | Loading always ends. A normalised batch replaces the recipes. A rejected exchange or a normalisation TypeError sets the error to its message and keeps the recipes. |
| RecipeApp.App.FindRecipes | frontend/smart-recipe-analyzer/src/App.tsx:435-479 | The whole handler: the empty-list case as above. Otherwise its end state is a function of the exchange's answer: new recipes and an empty error, or the old recipes and the error message, and never loading. |
| RecipeApp.App.ClearAll | frontend/smart-recipe-analyzer/src/App.tsx:481-486 | Ingredients, recipes, input and error are emptied, loading is left as it was, and the invariant holds. |
| RecipeNormalizer.ToNumber | frontend/smart-recipe-analyzer/src/App.tsx:465 | `Number(v)` throws exactly when `String(v)` would. An integer converts to itself and a boolean to 0 or 1. |
| RecipeNormalizer.CleanRecipe | frontend/smart-recipe-analyzer/src/App.tsx:460-469 | An entry fails exactly when it is `null` (the TypeError about reading `name`) or when converting its name, cooking time, difficulty or servings throws. Otherwise each field has a default when falsy: name "Unnamed Recipe", cooking time and difficulty "Unknown", servings 4. A truthy field is `String()` or `Number()` of the received value. A non-array list becomes empty. Nutrition is kept when truthy and `{}` otherwise, so it is always truthy. |
| RecipeNormalizer.MapInOrderShape | frontend/smart-recipe-analyzer/src/App.tsx:460 | A map that stops at the first throwing step succeeds exactly when every step does, and then yields their results in order. Otherwise it fails with the error of the first failing step, all earlier steps having succeeded. |
| RecipeNormalizer.CleanEntriesShape | frontend/smart-recipe-analyzer/src/App.tsx:460-469 | Mapping the array succeeds exactly when every entry normalises with id `recipe-<clock>-i`, and then gives one recipe per entry, in order. Otherwise it carries the error of the first entry that fails. |
| RecipeNormalizer.CleanRecipesShape | frontend/smart-recipe-analyzer/src/App.tsx:457-469 | `CleanRecipes` succeeds exactly when `data.recipes` is an array whose every entry normalises. The output then has the same length and the i-th recipe is the i-th entry normalised. A missing `recipes` key fails. |
| RecipeNormalizer.CleanRecipesErrors | frontend/smart-recipe-analyzer/src/App.tsx:457-475 | The TypeError texts the page shows:<br>• a `null` body: reading `recipes` of null;<br>• a missing key: reading `map` of undefined;<br>• a `null` list: reading `map` of null;<br>• a value that is not an array: `data.recipes.map is not a function`;<br>• a failing array: the first failing entry's error, which is reading `name` of null for a `null` entry and "Cannot convert object to primitive value" otherwise. |
| RecipeNormalizer.SplitAtDash | frontend/smart-recipe-analyzer/src/App.tsx:461 | Two digit strings followed by a dash are recovered from the concatenation. |
| RecipeNormalizer.RecipeIdInjective | frontend/smart-recipe-analyzer/src/App.tsx:461 | An id determines its timestamp and its index. |
| RecipeNormalizer.IdsDistinct | frontend/smart-recipe-analyzer/src/App.tsx:460-469 | The ids within one batch are pairwise distinct, whatever the clock reads at each entry. |
| RecipeNormalizer.EmptyEntryGetsDefaults | frontend/smart-recipe-analyzer/src/App.tsx:460-469 | `{ recipes: [{}] }` gives one recipe with every default filled in. |
| RecipeView.BadgeBackgrounds | frontend/smart-recipe-analyzer/src/App.tsx:319-326 | `BadgeBackground`: Easy, Medium and Hard get three different gradients. Any other difficulty gets the default gradient, and only such a difficulty gets it. |
| RecipeView.InstructionsShownIff | frontend/smart-recipe-analyzer/src/App.tsx:514 | A recipe that normalises shows the instruction list exactly when the received `instructions` was a non-empty array. |
| RecipeView.RenderRecipeShape | frontend/smart-recipe-analyzer/src/App.tsx:488-576 | `RenderRecipe`: a recipe card fails exactly when its instructions are shown and one of them cannot be converted by `String()`. The catch then shows "Error rendering recipe: Cannot convert object to primitive value" in place of that card. Otherwise the card lists every instruction's `String()` text, in order. |
| RecipeView.TruthyKeyShowsGrid | frontend/smart-recipe-analyzer/src/App.tsx:529 | If any of the five nutrition keys is truthy, the nutrition section is shown. |
| RecipeView.NutritionCellShownIff | frontend/smart-recipe-analyzer/src/App.tsx:529-564 | A cell captioned Calories, Protein, Carbs, Fat or Fiber appears exactly when the grid is shown and the corresponding key is truthy. The cell holds that key's value. |
| RecipeView.StatusCards | frontend/smart-recipe-analyzer/src/App.tsx:649-659 | `StatusLine` and `ErrorCard`: the status line shows exactly when there is no error and no load. The error card and the status line never show together. Neither shows exactly while loading without an error. |
| RecipePrompt.ExtraRequirementsIff | backend/main.py:83-87 | The dietary line is present exactly when restrictions are given, the cuisine line exactly when a non-empty cuisine is given, and the dietary line comes first. |
| RecipePrompt.ConcatSnoc | backend/main.py:83-87 | Appending a line to the prompt appends it to the concatenation. |
| RecipePrompt.PromptNamesIngredients | backend/main.py:72-74 | The prompt contains the ingredient names joined with ", " right after the fixed opening sentence. |
| RecipePrompt.PromptFromPieces | backend/main.py:72-116 | A step of the proof of `CreateRecipePrompt`, not a property of the program: the opening, with the optional requirement lines appended, followed by the JSON-format instructions, is the prompt. |
| RecipePrompt.PromptWithoutExtras | backend/main.py:83-89 | A step of the proof of `PageRequestAccepted`: with no restrictions and no cuisine, the prompt is the opening followed directly by the JSON-format instructions. |
| RecipePrompt.CreateRecipePrompt | backend/main.py:69-116 | The appending method builds exactly the specified prompt. |
| RecipeService.FirstTwo | backend/main.py:163 | `ingredients[:2]` keeps at most two names and is a prefix. |
| RecipeService.FallbackRecipeShape | backend/main.py:158-185 | The fallback is one recipe that matches the `Recipe` model. Its name is "Simple <first two joined by ' & '> Dish" and it lists all ingredients. It is Easy, takes 25 minutes and serves 4. It has exactly the six fixed instruction texts and the fixed nutrition object (320 calories, 12g protein, 35g carbs, 8g fat, 5g fiber). |
| RecipeService.RecipeEntriesCases | backend/main.py:223-249 | What `recipe_data.get("recipes", [])` gives the loop. An array is iterated as is. A string, a dict or a missing key leaves nothing to keep. `None`, a number, a boolean or a body that is not a dict raises, and a non-empty request then gets a 500 "Internal server error: ..." with Python's message. |
| RecipeService.CollectNoMappings | backend/main.py:224-230 | Entries none of which is a mapping leave nothing collected. |
| RecipeService.CollectAppend | backend/main.py:223-230 | Collecting over a concatenation is the concatenation of the collected parts, so the kept recipes keep their order. |
| RecipeService.CollectMembers | backend/main.py:223-230 | A value is collected exactly when it is an entry that is a mapping accepted by validation. |
| RecipeService.CollectRecipes | backend/main.py:223-230 | The loop keeps every validating entry in order and skips the others. |
| RecipeService.ObtainRecipeData | backend/main.py:206-221 | The data is the fallback without an API key or when the model step raised, and the model's answer otherwise. |
| RecipeService.AnalyzeRecipes | backend/main.py:196-249 | The handler computes exactly `AnalyzeResult`, the specified answer or HTTP error, whose properties the lemmas below state. |
| RecipeService.RejectsOnlyEmptyRequests | backend/main.py:203-204 | The answer is a 400 "No ingredients provided" exactly when the request has no ingredients. |
| RecipeService.SuccessfulResponse | backend/main.py:223-239 | A successful answer is never empty. It holds the validated entries in order, or the fallback alone when none validates. Every returned recipe is a mapping that validation accepted. Its message counts them with the right plural. |
| RecipeService.AnswerWithoutRecipesFallsBack | backend/main.py:224 | A model answer without a `recipes` key gives the fallback recipe alone. |
| RecipeService.NoApiKeyGivesFallback | backend/main.py:207-209 | Without an API key, the answer is the fallback recipe alone with the message "Generated 1 recipe ...". |
| RecipeExchange.RecordNormalizes | frontend/smart-recipe-analyzer/src/App.tsx:460-469 | A record with the `Recipe` model's shape normalises on the page without a TypeError. A non-empty name is kept as is. |
| RecipeExchange.RecordRenders | frontend/smart-recipe-analyzer/src/App.tsx:514-525 | A record with the `Recipe` model's shape normalises and renders as a recipe card, never as the error card, because its instructions are strings. |
| RecipeExchange.RecordsNormalize | frontend/smart-recipe-analyzer/src/App.tsx:457-469 | A body listing records of the `Recipe` model's shape normalises without a TypeError into one page recipe per record. |
| RecipeExchange.SuccessfulAnswerNormalizes | backend/main.py:236-243 | A successful answer, as the page receives it, normalises without error into as many recipes, one per returned recipe. This holds provided accepted records have the `Recipe` model's shape. |
| RecipeExchange.ErrorAnswerSurfacesAsTypeError | frontend/smart-recipe-analyzer/src/App.tsx:457-460 | An error answer `{detail}` makes the page's normalisation fail with the TypeError about reading `map` of undefined. |
| RecipeExchange.PageRequestAccepted | frontend/smart-recipe-analyzer/src/App.tsx:445-456 | A request from the page, with at least one ingredient, is never refused with 400. Its prompt is the opening naming the ingredients followed directly by the JSON-format instructions, with no requirement lines. |

## Left out

- Styling, layout, the spinner, the "Using:" line, the React keys, and the disabled state of the add and find buttons (App.tsx lines 604 and 632): these are presentation.
- React's own rejection of an object rendered as a child, such as a nutrition value that is an object: React raises it after `renderRecipe` has returned, outside the `try` at App.tsx:489-576, so it is not modelled. Inside that `try` only `String(instruction)` can throw, and `RecipeView.RenderRecipe` models that case and its error card.
- `console.log` and `console.error` on the page, and `logger` in the service: logging has no effect on state.
- The HTTP transport, CORS, uvicorn, the `/` and `/health` endpoints, and FastAPI's serialisation of pydantic models: the page's exchange is a function parameter, and the response body is built directly from the accepted records.
- `generate_recipes_with_llm`: the model call and its JSON parsing are the `llm` parameter, and any exception in them is `Raised`.
- Pydantic coercion: what `Recipe(**entry)` accepts is the `validate` parameter, and an accepted record is kept as it was received. `RecipeService.MatchesRecipe` states the strict shape of the `Recipe` model, which the fallback is proved to meet.
- The optional `quantity` field of an ingredient: neither side reads it.
- RecipeNormalizer.CleanRecipe: JSON numbers are integers, so floats and `NaN` are not modelled. Neither is `Number()` on a string or an array that does not throw, which needs string parsing. Such a `servings` is `None`.
- RecipeExchange.SuccessfulAnswerNormalizes: it assumes that every record validation accepts has the `Recipe` model's shape. FastAPI writes the validated model, not the raw record this model keeps.
- Json.ToJsString: it renders integers in decimal and does not reproduce JavaScript's exponent form for magnitudes of 10^21 and above.
- Text.ToLower: it lower-cases ASCII letters only, not the full Unicode case mapping of `toLowerCase`.
- The TypeError texts use V8's wording. Other engines word them differently.
- React's batching of state updates and stale closures across the `await`: each handler reads and writes the fields directly. `FindRecipes` runs with no other handler between its two halves.
- Iteration order of a dict: the service's loop treats a dict under `recipes` as yielding nothing. Every key it would yield is a string, and `Recipe(**key)` raises a TypeError on it before validating anything, so the key is skipped either way.
