/** The plan viewer: a workout/meal tab and one day index shared by both
    tabs, a day selector per tab, and the detail panel of the chosen day. */
module PlanDisplay {
  import opened Types

  datatype PlanTab = WorkoutTab | MealTab

  /** The state cells `activeTab` and `activeDay`. */
  datatype ViewState = ViewState(activeTab: PlanTab, activeDay: int)

  /** The first render: the workout tab, day 0. */
  const Initial := ViewState(WorkoutTab, 0)

  /** How many days the list behind a tab has. */
  function DayCount(plan: FitnessPlan, tab: PlanTab): nat
  {
    match tab
    case WorkoutTab => |plan.workoutPlan|
    case MealTab => |plan.mealPlan|
  }

  /** `plan.workoutPlan.map(p => p.day)` or `plan.mealPlan.map(p => p.day)`. */
  function DayLabels(plan: FitnessPlan, tab: PlanTab): (labels: seq<string>)
    ensures |labels| == DayCount(plan, tab)
    ensures forall i :: 0 <= i < |labels| ==>
      labels[i] == (if tab == WorkoutTab then plan.workoutPlan[i].day else plan.mealPlan[i].day)
  {
    match tab
    case WorkoutTab => seq(|plan.workoutPlan|, i requires 0 <= i < |plan.workoutPlan| => plan.workoutPlan[i].day)
    case MealTab => seq(|plan.mealPlan|, i requires 0 <= i < |plan.mealPlan| => plan.mealPlan[i].day)
  }

  /** A rendered button of the day selector. */
  datatype DayButton = DayButton(day: string, highlighted: bool)

  /** `DaySelector`: a button per day, highlighted when `currentDay === index`. */
  function DaySelector(planDays: seq<string>, currentDay: int): (buttons: seq<DayButton>)
    ensures |buttons| == |planDays|
  {
    seq(|planDays|, i requires 0 <= i < |planDays| => DayButton(planDays[i], currentDay == i))
  }

  /** The selector lists the days in order, and highlights exactly the
      button of `currentDay` (none at all when it is out of range). */
  lemma DaySelectorHighlightsCurrent(planDays: seq<string>, currentDay: int)
    ensures var buttons := DaySelector(planDays, currentDay);
      (forall i :: 0 <= i < |buttons| ==> buttons[i].day == planDays[i])
      && (0 <= currentDay < |buttons| ==> buttons[currentDay].highlighted)
      && (forall i :: 0 <= i < |buttons| && buttons[i].highlighted ==> i == currentDay)
  {
  }

  /** The workout panel: a rest-day note, or the exercises in order. */
  datatype WorkoutView = RestDay(focus: string) | ExerciseList(focus: string, exercises: seq<Exercise>)

  /** `WorkoutDetails`: `!dayPlan.exercises || dayPlan.exercises.length === 0`
      renders a rest day. */
  function WorkoutDetails(w: DailyWorkout): (v: WorkoutView)
    ensures v.focus == w.focus
    ensures v.RestDay? <==> w.exercises.None? || |w.exercises.value| == 0
    ensures v.ExerciseList? ==> w.exercises == Some(v.exercises)
  {
    match w.exercises
    case None => RestDay(w.focus)
    case Some(ex) => if |ex| == 0 then RestDay(w.focus) else ExerciseList(w.focus, ex)
  }

  /** The detail panel below the selector. */
  datatype DetailsView = WorkoutDay(workout: WorkoutView) | MealDay(meals: DailyMealPlan)

  /** The panel for the active tab and day. `None` when `activeDay` is past
      the end of that tab's list: the lookup yields `undefined`, and reading
      its fields while rendering throws. */
  function Details(plan: FitnessPlan, v: ViewState): (d: Option<DetailsView>)
    ensures d.Some? <==> 0 <= v.activeDay < DayCount(plan, v.activeTab)
    ensures d.Some? && v.activeTab == WorkoutTab ==>
      d.value == WorkoutDay(WorkoutDetails(plan.workoutPlan[v.activeDay]))
    ensures d.Some? && v.activeTab == MealTab ==> d.value == MealDay(plan.mealPlan[v.activeDay])
  {
    if !(0 <= v.activeDay < DayCount(plan, v.activeTab)) then None
    else
      match v.activeTab
      case WorkoutTab => Some(WorkoutDay(WorkoutDetails(plan.workoutPlan[v.activeDay])))
      case MealTab => Some(MealDay(plan.mealPlan[v.activeDay]))
  }

  /** The selector shown for the active tab: a button per day of that tab's
      list, in order, with exactly the active day's button highlighted. */
  function Selector(plan: FitnessPlan, v: ViewState): (buttons: seq<DayButton>)
    ensures |buttons| == DayCount(plan, v.activeTab)
    ensures forall i :: 0 <= i < |buttons| ==> buttons[i].day == DayLabels(plan, v.activeTab)[i]
    ensures forall i :: 0 <= i < |buttons| ==> (buttons[i].highlighted <==> i == v.activeDay)
  {
    DaySelector(DayLabels(plan, v.activeTab), v.activeDay)
  }

  /** A click on day button `i` (`onSelect(index)`). */
  function ClickDay(v: ViewState, i: int): ViewState
  {
    v.(activeDay := i)
  }

  /** A click on a tab button. */
  function ClickTab(v: ViewState, t: PlanTab): ViewState
  {
    v.(activeTab := t)
  }

  /** The first render shows day 0 of the workouts; it has a panel exactly
      when the plan has a workout day. */
  lemma InitialView(plan: FitnessPlan)
    ensures Initial.activeTab == WorkoutTab && Initial.activeDay == 0
    ensures Details(plan, Initial).Some? <==> |plan.workoutPlan| > 0
  {
  }

  /** Clicking day `i` of the shown selector makes it the active day, keeps
      the tab, highlights that button and has a panel to show. */
  lemma ClickDayShowsIt(plan: FitnessPlan, v: ViewState, i: int)
    requires 0 <= i < DayCount(plan, v.activeTab)
    ensures var w := ClickDay(v, i);
      w.activeDay == i && w.activeTab == v.activeTab
      && Selector(plan, w)[i].highlighted
      && Details(plan, w).Some?
  {
  }

  /** Switching tabs keeps the active day; the other tab then has a panel
      exactly when its list reaches that day. */
  lemma SwitchTabKeepsDay(plan: FitnessPlan, v: ViewState, t: PlanTab)
    ensures ClickTab(v, t).activeDay == v.activeDay
    ensures Details(plan, ClickTab(v, t)).Some? <==> 0 <= v.activeDay < DayCount(plan, t)
  {
  }

  /** A day chosen on one tab stays in range after a switch whenever the
      other list is at least as long. */
  lemma SwitchWithinLongerList(plan: FitnessPlan, v: ViewState, i: int, t: PlanTab)
    requires 0 <= i < DayCount(plan, v.activeTab)
    requires DayCount(plan, t) >= DayCount(plan, v.activeTab)
    ensures Details(plan, ClickTab(ClickDay(v, i), t)).Some?
  {
  }

  /** With a shorter meal list, day 3 of the workouts has no meal panel. */
  lemma SwitchToShorterList(w: DailyWorkout, m: DailyMealPlan)
    ensures var plan := FitnessPlan([w, w, w, w, w, w, w], [m]);
      Details(plan, ClickDay(Initial, 3)).Some?
      && Details(plan, ClickTab(ClickDay(Initial, 3), MealTab)).None?
  {
  }

  /** The viewer's state cells over the `plan` prop. */
  class Viewer {
    const plan: FitnessPlan
    var activeTab: PlanTab
    var activeDay: int

    function State(): ViewState
      reads this
    {
      ViewState(activeTab, activeDay)
    }

    /** The panel the current state renders (`None`: rendering throws). */
    function Panel(): (d: Option<DetailsView>)
      reads this
      ensures d.Some? <==> 0 <= activeDay < DayCount(plan, activeTab)
    {
      Details(plan, State())
    }

    constructor (plan: FitnessPlan)
      ensures this.plan == plan && State() == Initial
    {
      this.plan := plan;
      activeTab := WorkoutTab;
      activeDay := 0;
    }

    method SelectTab(t: PlanTab)
      modifies this`activeTab
      ensures State() == ClickTab(old(State()), t)
    {
      activeTab := t;
    }

    /** A click on one of the shown day buttons. */
    method SelectDay(i: int)
      requires 0 <= i < DayCount(plan, activeTab)
      modifies this`activeDay
      ensures State() == ClickDay(old(State()), i)
      ensures Panel().Some?
    {
      activeDay := i;
    }
  }
}
