/** The meal-logging screen: a food-name search whose state cells `isLoading`,
    `error` and `nutritionInfo` are reset, then set from the lookup's outcome,
    and a log button that hands the found meal to the `onLogMeal` callback.
    The nutrition lookup and the API-key check are outcomes the caller supplies. */
module LogMealScreen {
  import opened Types
  import EcmaScript

  const BlankNameError := "Please enter a food name."
  const NoApiKeyError := "API key not configured."
  const FetchFallbackError := "Failed to fetch data."

  /** What the awaited nutrition lookup did: answered, or threw. */
  datatype Lookup = Found(data: Nutrition) | Failed(thrown: Thrown)

  datatype SearchState = SearchState(
    foodName: string, isLoading: bool, error: Option<string>, nutritionInfo: Option<LoggedMeal>)

  /** The first render: an empty input, nothing loading, no error, no result. */
  const Initial := SearchState("", false, None, None)

  /** `!foodName.trim()`: the name is empty once trimmed, that is, it is
      white space only (`BlankNameIsWhiteSpace` proves the two agree). */
  predicate IsBlankName(name: string)
  {
    EcmaScript.IsBlank(name)
  }

  /** `handleSearch` up to the await. A blank name only sets the error.
      Otherwise loading starts and the error and result are cleared; then
      the API-key check, which runs before the await, throws at once without
      a key, and its `catch` and `finally` set the key error and end loading
      in the same step. */
  function Begin(s: SearchState, apiKeyConfigured: bool): SearchState
  {
    if IsBlankName(s.foodName) then s.(error := Some(BlankNameError))
    else
      var started := s.(isLoading := true, error := None, nutritionInfo := None);
      if apiKeyConfigured then started
      else started.(error := Some(NoApiKeyError), isLoading := false)
  }

  /** Whether `handleSearch` reaches the await and calls the lookup. */
  predicate Proceeds(s: SearchState, apiKeyConfigured: bool)
  {
    !IsBlankName(s.foodName) && apiKeyConfigured
  }

  /** `{ name: foodName, ...data }`: the spread comes after `name`, so a
      `name` in the answer replaces the typed one. */
  function Spread(foodName: string, d: Nutrition): (m: LoggedMeal)
    ensures m.name == (if d.name.Some? then d.name.value else foodName)
    ensures m.calories == d.calories && m.protein == d.protein && m.carbs == d.carbs && m.fat == d.fat
  {
    LoggedMeal(if d.name.Some? then d.name.value else foodName, d.calories, d.protein, d.carbs, d.fat)
  }

  /** `handleSearch` from the await on, for the food name captured when the
      search started: storing the result, or the `catch`, and the `finally`
      that ends loading. */
  function Complete(s: SearchState, name: string, lookup: Lookup): SearchState
  {
    var settled :=
      match lookup
      case Found(d) => s.(nutritionInfo := Some(Spread(name, d)))
      case Failed(e) => s.(error := Some(ErrorText(e, FetchFallbackError)));
    settled.(isLoading := false)
  }

  /** One whole `handleSearch`, when nothing else happens during the await. */
  function Search(s: SearchState, apiKeyConfigured: bool, lookup: Lookup): SearchState
  {
    if Proceeds(s, apiKeyConfigured) then Complete(Begin(s, true), s.foodName, lookup)
    else Begin(s, apiKeyConfigured)
  }

  /** The calls `handleLog` makes to `onLogMeal`. */
  function Forwarded(s: SearchState): seq<LoggedMeal>
  {
    match s.nutritionInfo
    case Some(m) => [m]
    case None => []
  }

  /** The name counts as blank exactly when trimming it leaves the empty
      string, the empty name included. */
  lemma BlankNameIsWhiteSpace(name: string)
    ensures IsBlankName(name) <==> EcmaScript.Trim(name) == ""
    ensures IsBlankName("")
  {
  }

  /** A blank name sets "Please enter a food name." and does nothing else:
      no lookup, and loading and the previous result are left as they were. */
  lemma BlankSearch(s: SearchState, apiKeyConfigured: bool, lookup: Lookup)
    requires EcmaScript.IsBlank(s.foodName)
    ensures var t := Search(s, apiKeyConfigured, lookup);
      t.error == Some(BlankNameError)
      && t.isLoading == s.isLoading && t.nutritionInfo == s.nutritionInfo && t.foodName == s.foodName
  {
  }

  /** A search for a real name first shows loading with no error and no result. */
  lemma SearchStarts(s: SearchState)
    requires !EcmaScript.IsBlank(s.foodName)
    ensures var t := Begin(s, true);
      t.isLoading && t.error.None? && t.nutritionInfo.None? && t.foodName == s.foodName
  {
  }

  /** A missing API key ends with "API key not configured." and no result,
      whatever the lookup would have answered, and it ends before the await:
      loading is never rendered. */
  lemma SearchWithoutKey(s: SearchState, lookup: Lookup)
    requires !EcmaScript.IsBlank(s.foodName)
    ensures var t := Search(s, false, lookup);
      t.error == Some(NoApiKeyError) && t.nutritionInfo.None? && !t.isLoading && t.foodName == s.foodName
    ensures !Proceeds(s, false) && Search(s, false, lookup) == Begin(s, false)
  {
  }

  /** A successful lookup yields a result with the lookup's values and no
      error. It is named as typed unless the answer carries its own name,
      which then wins. */
  lemma SearchFound(s: SearchState, d: Nutrition)
    requires !EcmaScript.IsBlank(s.foodName)
    ensures var t := Search(s, true, Found(d));
      t.nutritionInfo.Some? && t.error.None? && !t.isLoading
      && var m := t.nutritionInfo.value;
      m.calories == d.calories && m.protein == d.protein && m.carbs == d.carbs && m.fat == d.fat
      && (d.name.None? ==> m.name == s.foodName)
      && (d.name.Some? ==> m.name == d.name.value)
  {
  }

  /** A failed lookup shows the thrown error's message, or "Failed to fetch
      data." for a thrown value that is not an Error, and no result. */
  lemma SearchFailed(s: SearchState, e: Thrown)
    requires !EcmaScript.IsBlank(s.foodName)
    ensures var t := Search(s, true, Failed(e));
      t.error == Some(if e.ErrorObject? then e.message else FetchFallbackError)
      && t.nutritionInfo.None? && !t.isLoading
  {
  }

  /** Whatever the outcome, a search for a real name ends not loading, with
      exactly one of an error and a result. */
  lemma SearchSettles(s: SearchState, apiKeyConfigured: bool, lookup: Lookup)
    requires !EcmaScript.IsBlank(s.foodName)
    ensures var t := Search(s, apiKeyConfigured, lookup);
      !t.isLoading && (t.error.Some? <==> t.nutritionInfo.None?) && t.foodName == s.foodName
  {
  }

  /** Repeating a search with the same outcome changes nothing more. */
  lemma SearchIdempotent(s: SearchState, apiKeyConfigured: bool, lookup: Lookup)
    ensures Search(Search(s, apiKeyConfigured, lookup), apiKeyConfigured, lookup)
         == Search(s, apiKeyConfigured, lookup)
  {
  }

  /** The blank-name guard does not clear an earlier result, so after it an
      error and a result are shown together. */
  lemma BlankAfterFound(d: Nutrition)
    ensures var found := Search(Initial.(foodName := "apple"), true, Found(d));
      var t := Search(found.(foodName := " "), true, Found(d));
      t.error == Some(BlankNameError) && t.nutritionInfo.Some?
      && t.nutritionInfo.value.name == (if d.name.Some? then d.name.value else "apple")
  {
    assert !IsBlankName("apple") by {
      assert !EcmaScript.IsBlank("apple") by { assert !EcmaScript.IsWhiteSpace("apple"[0]); }
    }
    assert IsBlankName(" ");
  }

  /** `handleLog` hands the current result to `onLogMeal` exactly once when
      there is one, and makes no call otherwise. */
  lemma LogForwardsResult(s: SearchState)
    ensures |Forwarded(s)| == if s.nutritionInfo.Some? then 1 else 0
    ensures s.nutritionInfo.Some? ==> Forwarded(s)[0] == s.nutritionInfo.value
  {
  }

  /** The screen's state cells, and the meals `onLogMeal` has received. */
  class MealSearch {
    var foodName: string
    var isLoading: bool
    var error: Option<string>
    var nutritionInfo: Option<LoggedMeal>
    var logged: seq<LoggedMeal>

    function State(): SearchState
      reads this
    {
      SearchState(foodName, isLoading, error, nutritionInfo)
    }

    constructor ()
      ensures State() == Initial && logged == []
    {
      foodName, isLoading, error, nutritionInfo := "", false, None, None;
      logged := [];
    }

    /** The input's `onChange`. */
    method SetFoodName(text: string)
      modifies this`foodName
      ensures State() == old(State()).(foodName := text)
    {
      foodName := text;
    }

    /** `handleSearch` up to the await, with the key check that precedes
        it; `proceed` says whether the lookup is called, and `name` is the
        food name it is called with. */
    method BeginSearch(apiKeyConfigured: bool) returns (proceed: bool, name: string)
      modifies this`isLoading, this`error, this`nutritionInfo
      ensures State() == Begin(old(State()), apiKeyConfigured)
      ensures proceed == Proceeds(old(State()), apiKeyConfigured) && name == old(foodName)
    {
      name := foodName;
      var blank := IsBlankName(foodName);
      if blank {
        error := Some(BlankNameError);
        proceed := false;
        return;
      }
      isLoading := true;
      error := None;
      nutritionInfo := None;
      proceed := apiKeyConfigured;
      if !apiKeyConfigured {
        error := Some(NoApiKeyError);
        isLoading := false;
      }
    }

    /** `handleSearch` from the await on, given what the lookup did. */
    method CompleteSearch(name: string, lookup: Lookup)
      modifies this`isLoading, this`error, this`nutritionInfo
      ensures State() == Complete(old(State()), name, lookup)
    {
      match lookup {
        case Found(d) =>
          nutritionInfo := Some(Spread(name, d));
        case Failed(e) =>
          error := Some(ErrorText(e, FetchFallbackError));
      }
      isLoading := false;
    }

    method HandleSearch(apiKeyConfigured: bool, lookup: Lookup)
      modifies this`isLoading, this`error, this`nutritionInfo
      ensures State() == Search(old(State()), apiKeyConfigured, lookup)
    {
      var proceed, name := BeginSearch(apiKeyConfigured);
      if proceed {
        CompleteSearch(name, lookup);
      }
    }

    method HandleLog()
      modifies this`logged
      ensures logged == old(logged) + Forwarded(State())
    {
      if nutritionInfo.Some? {
        logged := logged + [nutritionInfo.value];
      }
    }
  }
}
