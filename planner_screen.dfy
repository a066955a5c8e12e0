/** The plan generator screen: an editable profile, a submit that asks the
    plan generator for a plan, and the rules that decide which of the form,
    the spinner, the error card and the plan are shown. The generator and the
    API-key check are outcomes the caller supplies. */
module PlannerScreen {
  import opened Types

  const NoApiKeyError := "API_KEY environment variable not set."
  const UnknownError := "An unknown error occurred."

  /** The profile the screen starts from. It sets no `dietaryPreference`. */
  const InitialProfile := UserProfile(Num(30), Num(70), Num(175), Str("male"), Str("moderate"),
                                      Str("gain_muscle"), Undefined)

  /** What the awaited plan generator did: returned a plan, or threw. */
  datatype Generation = Generated(plan: FitnessPlan) | Failed(thrown: Thrown)

  datatype PlannerState = PlannerState(
    profile: UserProfile, plan: Option<FitnessPlan>, isLoading: bool, error: Option<string>)

  /** The first render: the initial profile, no plan, not loading, no error. */
  const Initial := PlannerState(InitialProfile, None, false, None)

  /** `{ ...prev, [field]: value }`: the profile with one field replaced. */
  function ChangeField(p: UserProfile, f: ProfileField, v: JsValue): (q: UserProfile)
    ensures FieldOf(q, f) == v
    ensures forall g :: g != f ==> FieldOf(q, g) == FieldOf(p, g)
  {
    match f
    case Age => p.(age := v)
    case Weight => p.(weight := v)
    case Height => p.(height := v)
    case Gender => p.(gender := v)
    case ActivityLevel => p.(activityLevel := v)
    case Goal => p.(goal := v)
    case DietaryPreference => p.(dietaryPreference := v)
  }

  /** Two profiles that agree on every field are the same profile. */
  lemma ProfileEquality(p: UserProfile, q: UserProfile)
    requires forall f :: FieldOf(p, f) == FieldOf(q, f)
    ensures p == q
  {
    assert FieldOf(p, Age) == FieldOf(q, Age);
    assert FieldOf(p, Weight) == FieldOf(q, Weight);
    assert FieldOf(p, Height) == FieldOf(q, Height);
    assert FieldOf(p, Gender) == FieldOf(q, Gender);
    assert FieldOf(p, ActivityLevel) == FieldOf(q, ActivityLevel);
    assert FieldOf(p, Goal) == FieldOf(q, Goal);
    assert FieldOf(p, DietaryPreference) == FieldOf(q, DietaryPreference);
  }

  /** Writing a field twice keeps the second value; writing back the value a
      field already has changes nothing; writes to different fields commute. */
  lemma ChangeFieldAlgebra(p: UserProfile, f: ProfileField, g: ProfileField, v: JsValue, w: JsValue)
    ensures ChangeField(ChangeField(p, f, v), f, w) == ChangeField(p, f, w)
    ensures ChangeField(p, f, FieldOf(p, f)) == p
    ensures f != g ==> ChangeField(ChangeField(p, f, v), g, w) == ChangeField(ChangeField(p, g, w), f, v)
  {
    ProfileEquality(ChangeField(ChangeField(p, f, v), f, w), ChangeField(p, f, w));
    ProfileEquality(ChangeField(p, f, FieldOf(p, f)), p);
    if f != g {
      ProfileEquality(ChangeField(ChangeField(p, f, v), g, w), ChangeField(ChangeField(p, g, w), f, v));
    }
  }

  /** `handleProfileChange`. */
  function ProfileChange(s: PlannerState, f: ProfileField, v: JsValue): PlannerState
  {
    s.(profile := ChangeField(s.profile, f, v))
  }

  /** `handleSubmit` up to the await: loading starts and the error and plan
      are cleared; then the API-key check, which runs before the await, throws
      at once without a key, and its `catch` and `finally` set the key error
      and end loading in the same step. */
  function Begin(s: PlannerState, apiKeyConfigured: bool): PlannerState
  {
    var started := s.(isLoading := true, error := None, plan := None);
    if apiKeyConfigured then started
    else started.(error := Some(NoApiKeyError), isLoading := false)
  }

  /** `handleSubmit` from the await on: storing the generated plan, or the
      `catch`, and the `finally` that ends loading. */
  function Complete(s: PlannerState, generation: Generation): PlannerState
  {
    var settled :=
      match generation
      case Generated(p) => s.(plan := Some(p))
      case Failed(e) => s.(error := Some(ErrorText(e, UnknownError)));
    settled.(isLoading := false)
  }

  /** One whole `handleSubmit`; the generator is called only with a key. */
  function Submit(s: PlannerState, apiKeyConfigured: bool, generation: Generation): PlannerState
  {
    if apiKeyConfigured then Complete(Begin(s, true), generation) else Begin(s, false)
  }

  /** The "Generate a New Plan" button: `setPlan(null)`. */
  function NewPlan(s: PlannerState): PlannerState
  {
    s.(plan := None)
  }

  /** `!plan && !isLoading`. */
  predicate ShowsForm(s: PlannerState) { s.plan.None? && !s.isLoading }

  /** `isLoading`. */
  predicate ShowsSpinner(s: PlannerState) { s.isLoading }

  /** `error`: a null or empty message is falsy and shows no card. */
  predicate ShowsErrorCard(s: PlannerState) { Truthy(s.error) }

  /** `plan`. */
  predicate ShowsPlan(s: PlannerState) { s.plan.Some? }

  /** What every reachable state satisfies: while loading there is neither a
      plan nor an error, and a plan and an error never coexist. */
  predicate Consistent(s: PlannerState)
  {
    (s.isLoading ==> s.plan.None? && s.error.None?) && !(s.plan.Some? && s.error.Some?)
  }

  /** The screen starts consistent, showing the form and nothing else. */
  lemma InitialShowsForm()
    ensures Consistent(Initial) && ShowsForm(Initial)
    ensures !ShowsSpinner(Initial) && !ShowsErrorCard(Initial) && !ShowsPlan(Initial)
  {
  }

  /** `handleProfileChange(field, v)` sets `field` to `v`, keeps every other
      field, and touches neither the plan nor the request state. */
  lemma ProfileChangeSetsOneField(s: PlannerState, f: ProfileField, v: JsValue)
    ensures var t := ProfileChange(s, f, v);
      FieldOf(t.profile, f) == v
      && (forall g :: g != f ==> FieldOf(t.profile, g) == FieldOf(s.profile, g))
      && t.plan == s.plan && t.isLoading == s.isLoading && t.error == s.error
  {
  }

  /** A submit first shows the spinner alone: loading, no error, no plan. */
  lemma SubmitStarts(s: PlannerState)
    ensures var t := Begin(s, true);
      t.isLoading && t.error.None? && t.plan.None? && t.profile == s.profile
      && ShowsSpinner(t) && !ShowsForm(t) && !ShowsPlan(t) && !ShowsErrorCard(t)
  {
  }

  /** Without an API key the submit ends with "API_KEY environment variable
      not set." and no plan, whatever the generator would have returned, and
      it ends before the await: the spinner is never rendered. */
  lemma SubmitWithoutKey(s: PlannerState, generation: Generation)
    ensures var t := Submit(s, false, generation);
      t.error == Some(NoApiKeyError) && t.plan.None? && !t.isLoading && t.profile == s.profile
    ensures Begin(s, false) == Submit(s, false, generation)
  {
  }

  /** With a key: a generated plan is stored and no error is set; a failure
      stores no plan and sets the thrown error's message (or "An unknown error
      occurred."). Either way loading ends and the profile is kept. */
  lemma SubmitOutcome(s: PlannerState, generation: Generation)
    ensures var t := Submit(s, true, generation);
      !t.isLoading && t.profile == s.profile
      && (generation.Generated? ==> t.plan == Some(generation.plan) && t.error.None?)
      && (generation.Failed? ==>
            t.plan.None? && t.error == Some(ErrorText(generation.thrown, UnknownError)))
  {
  }

  /** Every transition keeps the state consistent; a submit makes any state
      consistent. */
  lemma TransitionsKeepConsistent(s: PlannerState, f: ProfileField, v: JsValue,
                                  apiKeyConfigured: bool, generation: Generation)
    ensures Consistent(Submit(s, apiKeyConfigured, generation))
    ensures Consistent(Begin(s, apiKeyConfigured))
    ensures Consistent(s) ==> Consistent(ProfileChange(s, f, v)) && Consistent(NewPlan(s))
  {
  }

  /** In a consistent state exactly one of the form, the spinner and the plan
      is shown, and the error card never appears beside the spinner or the plan. */
  lemma OneSectionShown(s: PlannerState)
    requires Consistent(s)
    ensures (ShowsForm(s) && !ShowsSpinner(s) && !ShowsPlan(s))
         || (!ShowsForm(s) && ShowsSpinner(s) && !ShowsPlan(s))
         || (!ShowsForm(s) && !ShowsSpinner(s) && ShowsPlan(s))
    ensures ShowsErrorCard(s) ==> ShowsForm(s)
  {
  }

  /** "Generate a New Plan" clears the plan and keeps the profile, and from a
      shown plan it brings back the form with no error card. */
  lemma NewPlanShowsForm(s: PlannerState)
    requires Consistent(s) && ShowsPlan(s)
    ensures var t := NewPlan(s);
      t.plan.None? && t.profile == s.profile && ShowsForm(t) && !ShowsErrorCard(t)
  {
  }

  /** The screen's state cells. */
  class Planner {
    var userProfile: UserProfile
    var plan: Option<FitnessPlan>
    var isLoading: bool
    var error: Option<string>

    function State(): PlannerState
      reads this
    {
      PlannerState(userProfile, plan, isLoading, error)
    }

    constructor ()
      ensures State() == Initial
    {
      userProfile := InitialProfile;
      plan, isLoading, error := None, false, None;
    }

    method HandleProfileChange(f: ProfileField, v: JsValue)
      modifies this`userProfile
      ensures State() == ProfileChange(old(State()), f, v)
    {
      userProfile := ChangeField(userProfile, f, v);
    }

    /** `handleSubmit` up to the await, with the key check that precedes
        it; `proceed` says whether the generator is called. */
    method BeginSubmit(apiKeyConfigured: bool) returns (proceed: bool)
      modifies this`isLoading, this`error, this`plan
      ensures State() == Begin(old(State()), apiKeyConfigured)
      ensures proceed == apiKeyConfigured
    {
      isLoading := true;
      error := None;
      plan := None;
      proceed := apiKeyConfigured;
      if !apiKeyConfigured {
        error := Some(NoApiKeyError);
        isLoading := false;
      }
    }

    /** `handleSubmit` from the await on, given what the generator did. */
    method CompleteSubmit(generation: Generation)
      modifies this`isLoading, this`error, this`plan
      ensures State() == Complete(old(State()), generation)
    {
      match generation {
        case Generated(p) =>
          plan := Some(p);
        case Failed(e) =>
          error := Some(ErrorText(e, UnknownError));
      }
      isLoading := false;
    }

    /** The submit button, and the error card's "Try Again". */
    method HandleSubmit(apiKeyConfigured: bool, generation: Generation)
      modifies this`isLoading, this`error, this`plan
      ensures State() == Submit(old(State()), apiKeyConfigured, generation)
    {
      var proceed := BeginSubmit(apiKeyConfigured);
      if proceed {
        CompleteSubmit(generation);
      }
    }

    method HandleNewPlan()
      modifies this`plan
      ensures State() == NewPlan(old(State()))
    {
      plan := None;
    }
  }
}
