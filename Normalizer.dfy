/**
 * The front end's normalisation of a service response: the `map` over
 * `data.recipes` that gives every recipe an id and a value for every field.
 */
module RecipeNormalizer {
  import opened Wrappers
  import opened Text
  import opened Json

  /** A recipe as the page keeps and renders it. */
  datatype Recipe = Recipe(
    id: string,
    name: string,
    cookingTime: string,
    difficulty: string,
    servings: Option<int>,      // `Number(...)`; None where that would need string parsing
    ingredients: seq<Value>,
    instructions: seq<Value>,
    nutrition: Value)

  const UnnamedRecipe: string := "Unnamed Recipe"
  const Unknown: string := "Unknown"
  const DefaultServings: int := 4

  // The TypeError messages the JavaScript engine (V8) raises on the failure paths.
  const NullDataMessage: string := "Cannot read properties of null (reading 'recipes')"
  const UndefinedRecipesMessage: string := "Cannot read properties of undefined (reading 'map')"
  const NullRecipesMessage: string := "Cannot read properties of null (reading 'map')"
  const NotAnArrayMessage: string := "data.recipes.map is not a function"
  const NullEntryMessage: string := "Cannot read properties of null (reading 'name')"

  /** `recipe-<timestamp>-<index>`. */
  function RecipeId(timestamp: nat, index: nat): string {
    "recipe-" + NatStr(timestamp) + "-" + NatStr(index)
  }

  /**
   * `Number(v)` for the values it maps to an integer without parsing a string;
   * `None` for the rest, and a failure where the conversion throws.
   */
  function ToNumber(v: Value): (r: Result<Option<int>, string>)
    ensures r.Failure? <==> ConversionThrows(v)
    ensures r.Failure? ==> r.error == NoPrimitiveMessage
    ensures v.Num? ==> r == Success(Some(v.n))
    ensures v.Bool? ==> r == Success(Some(if v.b then 1 else 0))
  {
    match v
    case Null => Success(Some(0))
    case Num(n) => Success(Some(n))
    case Bool(b) => Success(Some(if b then 1 else 0))
    case _ => if ConversionThrows(v) then Failure(NoPrimitiveMessage) else Success(None)
  }

  /** `Array.isArray(v) ? v : []`. */
  function ArrayOrEmpty(v: Option<Value>): seq<Value> {
    if v.Some? && v.value.Arr? then v.value.items else []
  }

  /** `String(raw.key || fallback)`. */
  function StringField(raw: Value, key: string, fallback: string): Result<string, string> {
    ToJsString(Or(Property(raw, key), Str(fallback)))
  }

  /** The field `key` is truthy and converting it to a string or a number throws. */
  predicate ConversionFails(raw: Value, key: string) {
    Truthy(Property(raw, key)) && ConversionThrows(Property(raw, key).value)
  }

  /**
   * One step of the `map`: the normalised form of a raw entry, or the message
   * of the TypeError raised while building it.
   */
  function CleanRecipe(raw: Value, id: string): (r: Result<Recipe, string>)
    ensures r.Failure? <==>
      || raw.Null?
      || ConversionFails(raw, "name") || ConversionFails(raw, "cookingTime")
      || ConversionFails(raw, "difficulty") || ConversionFails(raw, "servings")
    ensures r.Failure? ==> r.error == if raw.Null? then NullEntryMessage else NoPrimitiveMessage
    ensures r.Success? ==> r.value.id == id
    ensures r.Success? && !Truthy(Property(raw, "name")) ==> r.value.name == UnnamedRecipe
    ensures r.Success? && Truthy(Property(raw, "name")) ==>
      Success(r.value.name) == ToJsString(Property(raw, "name").value)
    ensures r.Success? && !Truthy(Property(raw, "cookingTime")) ==> r.value.cookingTime == Unknown
    ensures r.Success? && Truthy(Property(raw, "cookingTime")) ==>
      Success(r.value.cookingTime) == ToJsString(Property(raw, "cookingTime").value)
    ensures r.Success? && !Truthy(Property(raw, "difficulty")) ==> r.value.difficulty == Unknown
    ensures r.Success? && Truthy(Property(raw, "difficulty")) ==>
      Success(r.value.difficulty) == ToJsString(Property(raw, "difficulty").value)
    ensures r.Success? && !Truthy(Property(raw, "servings")) ==> r.value.servings == Some(DefaultServings)
    ensures r.Success? && Truthy(Property(raw, "servings")) ==>
      Success(r.value.servings) == ToNumber(Property(raw, "servings").value)
    ensures r.Success? ==>
      && (forall xs :: Property(raw, "ingredients") == Some(Arr(xs)) ==> r.value.ingredients == xs)
      && ((Property(raw, "ingredients").None? || !Property(raw, "ingredients").value.Arr?) ==> r.value.ingredients == [])
      && (forall xs :: Property(raw, "instructions") == Some(Arr(xs)) ==> r.value.instructions == xs)
      && ((Property(raw, "instructions").None? || !Property(raw, "instructions").value.Arr?) ==> r.value.instructions == [])
    ensures r.Success? && !Truthy(Property(raw, "nutrition")) ==> r.value.nutrition == Obj(map[])
    ensures r.Success? && Truthy(Property(raw, "nutrition")) ==> Some(r.value.nutrition) == Property(raw, "nutrition")
    ensures r.Success? ==> Truthy(Some(r.value.nutrition))
  {
    if raw.Null? then Failure(NullEntryMessage)
    else
      var name := StringField(raw, "name", UnnamedRecipe);
      var cookingTime := StringField(raw, "cookingTime", Unknown);
      var difficulty := StringField(raw, "difficulty", Unknown);
      var servings := ToNumber(Or(Property(raw, "servings"), Num(DefaultServings)));
      if name.Failure? then Failure(name.error)
      else if cookingTime.Failure? then Failure(cookingTime.error)
      else if difficulty.Failure? then Failure(difficulty.error)
      else if servings.Failure? then Failure(servings.error)
      else
        Success(Recipe(
          id,
          name.value,
          cookingTime.value,
          difficulty.value,
          servings.value,
          ArrayOrEmpty(Property(raw, "ingredients")),
          ArrayOrEmpty(Property(raw, "instructions")),
          Or(Property(raw, "nutrition"), Obj(map[]))))
  }

  /** The normalised form of entry `i` of a batch. */
  function CleanAt(entries: seq<Value>, clock: nat -> nat, i: nat): Result<Recipe, string>
    requires i < |entries|
  {
    CleanRecipe(entries[i], RecipeId(clock(i), i))
  }

  /** `data.recipes` when it is an array. */
  function RecipesArray(data: Value): Option<seq<Value>> {
    match Property(data, "recipes")
    case Some(Arr(entries)) => Some(entries)
    case _ => None
  }

  /** Steps `0 .. n-1` run in order; the first one that fails ends the run with its error. */
  function MapInOrder<T>(step: nat -> Result<T, string>, n: nat): Result<seq<T>, string> {
    if n == 0 then Success([])
    else
      match MapInOrder(step, n - 1)
      case Failure(e) => Failure(e)
      case Success(rs) =>
        match step(n - 1)
        case Failure(e) => Failure(e)
        case Success(r) => Success(rs + [r])
  }

  /**
   * The run succeeds exactly when every step does, and then holds their
   * results in order; otherwise it fails with the error of the first step
   * that fails.
   */
  lemma {:induction false} MapInOrderShape<T>(step: nat -> Result<T, string>, n: nat)
    ensures MapInOrder(step, n).Success? <==> forall i :: 0 <= i < n ==> step(i).Success?
    ensures MapInOrder(step, n).Success? ==>
      && |MapInOrder(step, n).value| == n
      && forall i :: 0 <= i < n ==> MapInOrder(step, n).value[i] == step(i).value
    ensures MapInOrder(step, n).Failure? ==>
      exists i :: 0 <= i < n && step(i).Failure? && MapInOrder(step, n).error == step(i).error
        && forall j :: 0 <= j < i ==> step(j).Success?
  {
    if n > 0 {
      MapInOrderShape(step, n - 1);
    }
  }

  /**
   * Entry `i` of the array mapped with the id it gets. The run never asks for
   * an index past the end, so the value there is a placeholder.
   */
  function EntryStep(entries: seq<Value>, clock: nat -> nat): nat -> Result<Recipe, string> {
    (i: nat) => if i < |entries| then CleanAt(entries, clock, i) else Failure("")
  }

  /** The `map` over an array, entry by entry in order: the first entry that throws ends it. */
  function CleanEntries(entries: seq<Value>, clock: nat -> nat): Result<seq<Recipe>, string> {
    MapInOrder(EntryStep(entries, clock), |entries|)
  }

  /**
   * Mapping an array succeeds exactly when every entry normalises, and then
   * gives them one for one, in order; otherwise it fails with the error of the
   * first entry that does not.
   */
  lemma CleanEntriesShape(entries: seq<Value>, clock: nat -> nat)
    ensures CleanEntries(entries, clock).Success? <==>
      forall i :: 0 <= i < |entries| ==> CleanAt(entries, clock, i).Success?
    ensures CleanEntries(entries, clock).Success? ==>
      var rs := CleanEntries(entries, clock).value;
      && |rs| == |entries|
      && forall i :: 0 <= i < |rs| ==> rs[i] == CleanAt(entries, clock, i).value
    ensures CleanEntries(entries, clock).Failure? ==>
      exists i :: 0 <= i < |entries| && CleanAt(entries, clock, i).Failure?
        && CleanEntries(entries, clock).error == CleanAt(entries, clock, i).error
        && forall j :: 0 <= j < i ==> CleanAt(entries, clock, j).Success?
  {
    var step := EntryStep(entries, clock);
    MapInOrderShape(step, |entries|);
    assert forall i :: 0 <= i < |entries| ==> step(i) == CleanAt(entries, clock, i);
  }

  /**
   * `data.recipes.map(...)`, where `clock(i)` is what `Date.now()` reads while
   * entry `i` is mapped. A failure carries the message of the TypeError raised.
   */
  function CleanRecipes(data: Value, clock: nat -> nat): Result<seq<Recipe>, string> {
    if data.Null? then Failure(NullDataMessage)
    else
      match Property(data, "recipes")
      case None => Failure(UndefinedRecipesMessage)
      case Some(Null) => Failure(NullRecipesMessage)
      case Some(Arr(entries)) => CleanEntries(entries, clock)
      case Some(_) => Failure(NotAnArrayMessage)
  }

  /**
   * Normalisation succeeds exactly on an array whose every entry normalises,
   * and then maps them one for one, in order.
   */
  lemma CleanRecipesShape(data: Value, clock: nat -> nat)
    ensures CleanRecipes(data, clock).Success? <==>
      RecipesArray(data).Some? &&
      forall i :: 0 <= i < |RecipesArray(data).value| ==> CleanAt(RecipesArray(data).value, clock, i).Success?
    ensures CleanRecipes(data, clock).Success? ==>
      var entries, rs := RecipesArray(data).value, CleanRecipes(data, clock).value;
      && |rs| == |entries|
      && forall i :: 0 <= i < |rs| ==> rs[i] == CleanAt(entries, clock, i).value
    ensures Property(data, "recipes").None? ==> CleanRecipes(data, clock).Failure?
  {
    if RecipesArray(data).Some? {
      CleanEntriesShape(RecipesArray(data).value, clock);
    }
  }

  /**
   * The TypeError the page reports for each way the body can be unusable; for
   * an array, the message of the first entry that is `null` or whose fields
   * cannot be converted.
   */
  lemma CleanRecipesErrors(data: Value, clock: nat -> nat)
    ensures data.Null? ==> CleanRecipes(data, clock) == Failure(NullDataMessage)
    ensures !data.Null? && Property(data, "recipes").None? ==> CleanRecipes(data, clock) == Failure(UndefinedRecipesMessage)
    ensures Property(data, "recipes") == Some(Null) ==> CleanRecipes(data, clock) == Failure(NullRecipesMessage)
    ensures Property(data, "recipes").Some? && !Property(data, "recipes").value.Null? && RecipesArray(data).None? ==>
      CleanRecipes(data, clock) == Failure(NotAnArrayMessage)
    ensures RecipesArray(data).Some? && CleanRecipes(data, clock).Failure? ==>
      var entries := RecipesArray(data).value;
      exists i :: 0 <= i < |entries| && (forall j :: 0 <= j < i ==> CleanAt(entries, clock, j).Success?)
        && CleanAt(entries, clock, i).Failure?
        && CleanRecipes(data, clock).error == CleanAt(entries, clock, i).error
        && CleanRecipes(data, clock).error == (if entries[i].Null? then NullEntryMessage else NoPrimitiveMessage)
  {
    if RecipesArray(data).Some? {
      CleanEntriesShape(RecipesArray(data).value, clock);
    }
  }

  /** Two digit strings each followed by a dash can be told apart from what follows. */
  lemma {:induction false} SplitAtDash(a: string, b: string, c: string, d: string)
    requires IsDigits(a) && IsDigits(c)
    requires a + "-" + b == c + "-" + d
    ensures a == c && b == d
  {
    var s := a + "-" + b;
    assert s[|a|] == '-' && forall k :: 0 <= k < |a| ==> s[k] == a[k] != '-';
    assert s[|c|] == '-' && forall k :: 0 <= k < |c| ==> s[k] == c[k] != '-';
    assert a == s[..|a|] == c;
    assert b == s[|a| + 1..] == d;
  }

  /** An id determines the timestamp and the index it was made from. */
  lemma RecipeIdInjective(t1: nat, i1: nat, t2: nat, i2: nat)
    requires RecipeId(t1, i1) == RecipeId(t2, i2)
    ensures t1 == t2 && i1 == i2
  {
    var prefix := "recipe-";
    var s1, s2 := RecipeId(t1, i1), RecipeId(t2, i2);
    assert s1[|prefix|..] == NatStr(t1) + "-" + NatStr(i1);
    assert s2[|prefix|..] == NatStr(t2) + "-" + NatStr(i2);
    SplitAtDash(NatStr(t1), NatStr(i1), NatStr(t2), NatStr(i2));
    NatStrInjective(t1, t2);
    NatStrInjective(i1, i2);
  }

  /** The ids of one batch are pairwise distinct, whatever the clock reads. */
  lemma IdsDistinct(data: Value, clock: nat -> nat)
    requires CleanRecipes(data, clock).Success?
    ensures var rs := CleanRecipes(data, clock).value;
      forall i, j :: 0 <= i < j < |rs| ==> rs[i].id != rs[j].id
  {
    var rs := CleanRecipes(data, clock).value;
    CleanRecipesShape(data, clock);
    forall i, j | 0 <= i < j < |rs| ensures rs[i].id != rs[j].id {
      if rs[i].id == rs[j].id {
        RecipeIdInjective(clock(i), i, clock(j), j);
      }
    }
  }

  /** `{ recipes: [{}] }` gives one recipe with every field defaulted. */
  lemma EmptyEntryGetsDefaults(clock: nat -> nat)
    ensures CleanRecipes(Obj(map["recipes" := Arr([Obj(map[])])]), clock)
      == Success([Recipe(RecipeId(clock(0), 0), "Unnamed Recipe", "Unknown", "Unknown", Some(4), [], [], Obj(map[]))])
  {
    var entry := Obj(map[]);
    var data := Obj(map["recipes" := Arr([entry])]);
    assert Property(data, "recipes") == Some(Arr([entry]));
    var r := CleanRecipe(entry, RecipeId(clock(0), 0));
    assert r == Success(Recipe(RecipeId(clock(0), 0), "Unnamed Recipe", "Unknown", "Unknown", Some(4), [], [], Obj(map[])));
    assert EntryStep([entry], clock)(0) == r;
    assert MapInOrder(EntryStep([entry], clock), 0) == Success([]);
    assert CleanEntries([entry], clock) == Success([] + [r.value]);
    assert [] + [r.value] == [r.value];
    assert CleanRecipes(data, clock) == CleanEntries([entry], clock);
  }
}
