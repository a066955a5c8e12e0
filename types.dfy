/** The records of types.ts, and the two pieces of JavaScript value semantics the
    screens rely on: optional fields and values thrown by a failing call. */
module Types {

  /** An optional field or a nullable state cell (`T | null`, `field?: T`). */
  datatype Option<T> = None | Some(value: T)

  /** A value stored in a UserProfile field. The screens write these fields
      with `{ ...prev, [field]: value }`, which stores whatever value it is
      given, so a field holds a number, a string, or nothing at all. */
  datatype JsValue = Num(n: int) | Str(s: string) | Undefined

  /** The keys of UserProfile (`keyof UserProfile`). */
  datatype ProfileField = Age | Weight | Height | Gender | ActivityLevel | Goal | DietaryPreference

  datatype UserProfile = UserProfile(
    age: JsValue, weight: JsValue, height: JsValue,
    gender: JsValue, activityLevel: JsValue, goal: JsValue,
    dietaryPreference: JsValue)

  /** `profile[field]`. */
  function FieldOf(p: UserProfile, f: ProfileField): JsValue
  {
    match f
    case Age => p.age
    case Weight => p.weight
    case Height => p.height
    case Gender => p.gender
    case ActivityLevel => p.activityLevel
    case Goal => p.goal
    case DietaryPreference => p.dietaryPreference
  }

  /** The string literals the UserProfile type admits for its enumerated fields. */
  const GenderValues: seq<string> := ["male", "female"]
  const ActivityLevelValues: seq<string> := ["sedentary", "light", "moderate", "active", "very_active"]
  const GoalValues: seq<string> := ["lose_weight", "maintain_weight", "gain_muscle", "gain_strength"]

  datatype Exercise = Exercise(name: string, sets: string, reps: string, rest: string, tips: string)

  /** `exercises` is required by the type, but the plan is parsed JSON and the
      workout view also copes with it being absent. */
  datatype DailyWorkout = DailyWorkout(day: string, focus: string, exercises: Option<seq<Exercise>>)

  datatype MealMacros = MealMacros(protein: string, carbs: string, fat: string)
  datatype Meal = Meal(name: string, description: string, calories: string, macros: MealMacros)
  datatype DailyTotals = DailyTotals(calories: string, protein: string, carbs: string, fat: string)
  datatype DailyMealPlan = DailyMealPlan(day: string, meals: seq<Meal>, dailyTotals: DailyTotals)

  datatype FitnessPlan = FitnessPlan(workoutPlan: seq<DailyWorkout>, mealPlan: seq<DailyMealPlan>)

  datatype Song = Song(title: string, artist: string, duration: Option<string>)

  /** The food lookup's answer: the four nutritional values, and the `name`
      key when the answer carries one. */
  datatype Nutrition = Nutrition(name: Option<string>, calories: real, protein: real, carbs: real, fat: real)

  datatype LoggedMeal = LoggedMeal(name: string, calories: real, protein: real, carbs: real, fat: real)

  datatype DailyLog = DailyLog(
    calories: real, protein: real, steps: int, weight: real, sleep: string,
    meals: seq<LoggedMeal>,
    caloriesGoal: Option<real>, proteinGoal: Option<real>, maintenanceCalories: Option<real>,
    caloriesBurned: real,
    workoutsCompleted: seq<string>,
    isTrackingSteps: bool, isTrackingSleep: bool,
    sleepStartTime: Option<int>)

  /** What a failing `try` block threw: an `Error` object, or any other value. */
  datatype Thrown = ErrorObject(message: string) | OtherValue

  /** `err instanceof Error ? err.message : fallback`. */
  function ErrorText(t: Thrown, fallback: string): string
  {
    match t
    case ErrorObject(m) => m
    case OtherValue => fallback
  }

  /** JavaScript truthiness of a nullable string cell, as in `{error && ...}`:
      null and the empty string are both falsy. */
  predicate Truthy(o: Option<string>)
  {
    o.Some? && o.value != ""
  }
}
