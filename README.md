# LevelUp fitness app: screen state and arithmetic, in Dafny

LevelUp is a client-side fitness app written in React/TypeScript. Nearly all of
it is markup. The logic it does have lives in the state cells and derived
values of six components, and this project models that logic and proves what
those components promise:

- **Music screen** (`screens/MusicScreen.tsx`): a cursor over a non-empty
  playlist. Next and previous wrap around, a row click selects an entry, and
  play/pause flips a flag. Modelled as the class `MusicScreen.Player`.
  `NextIndex`/`PrevIndex` specify it, and lemmas prove that each undoes the
  other and that a full cycle of next presses returns to the start.
- **Calorie card** (`components/home/CaloriesTracker.tsx`): the net balance
  `goal - intake + burned`, a guarded percentage (with exact `real`s), the
  over-goal flag, and the colour and message chosen from them. Absent goal
  figures count as 0.
- **Meal search** (`screens/LogMealScreen.tsx`): `handleSearch` has a
  blank-name guard, resets loading/error/result, then sets them from the
  lookup's outcome, and its `finally` ends loading. `handleLog` forwards the
  result to `onLogMeal`. The nutrition lookup and the API-key check are
  parameters: the caller supplies a `Lookup` outcome and a
  `apiKeyConfigured` flag.
- **Plan generator screen** (`screens/PlannerScreen.tsx`): a one-field
  profile update, the submit sequence, the rules for showing the form,
  spinner, error card and plan, and "Generate a New Plan". The generator is
  a caller-supplied `Generation` outcome.
- **Planner form** (`components/planner/PlannerForm.tsx`): the number fields
  pass `parseInt(text, 10) || 0`. The select fields pass their option
  unchanged. `parseInt` and `trim` follow ECMA-262 (section 19.2.5 and
  section 22.1.3.32) in the module `EcmaScript`.
- **Plan viewer** (`components/planner/PlanDisplay.tsx`): a tab and one day
  index shared by both tabs, the day selector and its highlight, the
  rest-day rule, and when the chosen day's panel exists.

Each stateful screen splits into two parts:

- A value-level state datatype with pure transition functions (`Begin`,
  `Complete`, `Search`, `Submit`, `ClickDay`, ...). The lemmas are proved
  about these functions.
- A class holding the component's state cells. Each method performs the
  setter calls in the source's order, and its postcondition ties the new
  state to the transition function of the old state. Frames name only the
  cells a handler sets.

An `async` handler is split into a start method and a completion method.
The start method runs everything before the `await`, including the API-key
check, which throws synchronously. Without a key, the `catch` and `finally`
run in that same step, so the whole handler ends there and loading is never
shown. The completion method takes what the awaited call did.

Observations from the source that the model makes explicit:

- The initial profile (`screens/PlannerScreen.tsx:12-19`) has no
  `dietaryPreference`, although `types.ts` requires one. The model stores
  `Undefined` there.
- The gender select offers `"other"`, which the `UserProfile` type does not
  admit. The goal select does not offer `"gain_strength"`, which the type
  does admit (`PlannerForm.SelectOptions`).
- The blank-name guard of the meal search sets an error but keeps an
  earlier result. After it, an error and a result show together
  (`LogMealScreen.BlankAfterFound`). They exclude each other only after a
  search that ran (`LogMealScreen.SearchSettles`).
- `{error && ...}` treats an empty message as no error. An `Error` thrown
  with an empty message therefore shows no error card (`Types.Truthy`).
- The plan viewer indexes the other tab's list with the day chosen on the
  first tab. When that list is shorter, the entry is `undefined` and
  rendering throws (`PlanDisplay.SwitchToShorterList`).
- `getNutritionalInfoForFood`, imported by the meal screen, is not defined
  in `services/geminiService.ts`. It is modelled only through its outcome.

## Model

| member | source | states |
|---|---|---|
| `EcmaScript.Trim` | screens/LogMealScreen.tsx:19 | `trim` removes white space from both ends. The result is the slice of the input between a white-space-only prefix and a white-space-only suffix, and it neither starts nor ends with white space. It is empty exactly when the input is white space only. |
| `EcmaScript.TrimStart` | components/planner/PlannerForm.tsx:46 | The result is the longest suffix that does not start with white space. Everything dropped is white space. |
| `EcmaScript.TrimEnd` | screens/LogMealScreen.tsx:19 | The result is the longest prefix that does not end with white space. Everything dropped is white space. |
| `EcmaScript.LeadingDigits` | components/planner/PlannerForm.tsx:46 | The digits `parseInt` reads: the longest all-digit prefix. The character after it, if any, is not a digit. |
| `EcmaScript.NatDigits` | components/planner/PlannerForm.tsx:46 | The decimal digits of a natural number. They are all digits, non-empty, with no leading zero, and reading them back gives the number. |
| `EcmaScript.ReadDigits` | components/planner/PlannerForm.tsx:46 | After the sign, `parseInt` gives NaN exactly when the text does not start with a digit. A value read there is never negative. |
| `EcmaScript.ParseInt` | components/planner/PlannerForm.tsx:46 | `parseInt(text, 10)`. Text made only of white space gives NaN. A negative result needs a minus sign right after the skipped white space. |
| `EcmaScript.ParseSigned` | components/planner/PlannerForm.tsx:46 | After the white space, the result is NaN exactly when no digit follows the optional sign. It is negative only after a minus sign. |
| `EcmaScript.Negate` | components/planner/PlannerForm.tsx:46 | A minus sign keeps NaN as NaN and turns a value into its opposite. |
| `EcmaScript.DigitsValue` | components/planner/PlannerForm.tsx:46 | The base-10 value of a digit string, most significant digit first. Its contract is stated by `DigitsValueBounds`, `NatDigits` and `ParseIntOfDigits`. |
| `EcmaScript.DigitsValueBounds` | components/planner/PlannerForm.tsx:46 | A digit string of length `k` has a value below 10^k. Without a leading zero the value is at least 10^(k-1). |
| `EcmaScript.Decimal` | components/planner/PlannerForm.tsx:45 | `String(n)`, the text a number field shows: a minus sign for negatives, then the digits. Its contract is the round trip `ParseIntOfDecimal`. |
| `EcmaScript.LeadingDigitsOfDigits` | components/planner/PlannerForm.tsx:46 | Digits followed by text that does not start with a digit: the leading run is exactly those digits. |
| `EcmaScript.ParseIntOfDecimal` | components/planner/PlannerForm.tsx:46 | `parseInt(String(n) + rest, 10) == n` for every integer `n`, including negatives, whenever `rest` does not start with a digit. |
| `EcmaScript.ParseIntOfDigits` | components/planner/PlannerForm.tsx:46 | Any run of digits, leading zeros included, followed by text that does not start with a digit, parses to the run's base-10 value. |
| `EcmaScript.ParseIntOfNegativeDigits` | components/planner/PlannerForm.tsx:46 | The same run after a minus sign parses to the negated value. |
| `EcmaScript.ParseIntOfPlusDigits` | components/planner/PlannerForm.tsx:46 | The same run after a plus sign parses to the value of the run. |
| `EcmaScript.ParseIntSkipsWhiteSpace` | components/planner/PlannerForm.tsx:46 | Leading white space does not change what `parseInt` returns. |
| `EcmaScript.TrimStartSkipsBlank` | components/planner/PlannerForm.tsx:46 | Skipping white space is unaffected by a white-space prefix. |
| `EcmaScript.ParseIntWithoutDigits` | components/planner/PlannerForm.tsx:46 | A string without any digit parses to NaN. |
| `MusicScreen.NextIndex` | screens/MusicScreen.tsx:16 | `(i + 1) % n` stays in `[0, n)`. It moves to `i + 1`, and from the last entry wraps to 0. |
| `MusicScreen.PrevIndex` | screens/MusicScreen.tsx:20 | `(i - 1 + n) % n` stays in `[0, n)`. It moves to `i - 1`, and from 0 wraps to `n - 1`. |
| `MusicScreen.PrevNextInverse` | screens/MusicScreen.tsx:15-21 | Previous after next restores the index, and so does next after previous. |
| `MusicScreen.NextTimes` | screens/MusicScreen.tsx:16 | Any number of next presses keeps the index in range. |
| `MusicScreen.NextTimesWithoutWrap` | screens/MusicScreen.tsx:16 | `k` presses from `i` reach `i + k` while that is in range. |
| `MusicScreen.NextTimesAdd` | screens/MusicScreen.tsx:16 | `a + b` presses are `a` presses followed by `b` presses. |
| `MusicScreen.NextTimesFullCycle` | screens/MusicScreen.tsx:16 | `playlist.length` presses of next return to the starting entry. |
| `MusicScreen.Rows` | screens/MusicScreen.tsx:70-80 | The playlist card has one row per entry. |
| `MusicScreen.RowsHighlightCurrent` | screens/MusicScreen.tsx:71-76 | The rows list the songs in order. Exactly the current entry is highlighted. The playing indicator appears on that row alone, and only while playing. |
| `MusicScreen.Player.constructor` | screens/MusicScreen.tsx:10-11 | The initial state is index 0 and not playing. The playlist must be non-empty. |
| `MusicScreen.Player.CurrentTrack` | screens/MusicScreen.tsx:13 | `playlist[currentTrackIndex]` is defined for a valid cursor and is an entry of the playlist. |
| `MusicScreen.Player.PlaylistView` | screens/MusicScreen.tsx:70-80 | The playlist card of the current state: one row per entry in playlist order, with exactly the current entry highlighted. |
| `MusicScreen.Player.HandleNext` | screens/MusicScreen.tsx:15-17 | The index becomes `NextIndex` of the old one and stays valid. `isPlaying` is unchanged. |
| `MusicScreen.Player.HandlePrev` | screens/MusicScreen.tsx:19-21 | The index becomes `PrevIndex` of the old one and stays valid. `isPlaying` is unchanged. |
| `MusicScreen.Player.HandlePlayPause` | screens/MusicScreen.tsx:23-25 | `isPlaying` flips. The index is unchanged and stays valid. |
| `MusicScreen.Player.SelectTrack` | screens/MusicScreen.tsx:71 | Clicking entry `i` sets the index to `i`. `isPlaying` is unchanged. |
| `MusicScreen.RoundTrips` | screens/MusicScreen.tsx:15-25 | On a player, toggling twice and then next followed by previous leave the whole state as it was. |
| `CaloriesTracker.OrZero` | components/home/CaloriesTracker.tsx:47 | The `= 0` destructuring default: an absent field reads 0, and a present one reads its value. |
| `CaloriesTracker.Goal` | components/home/CaloriesTracker.tsx:47 | `caloriesGoal = 0`: the log's goal, or 0 when it has none. |
| `CaloriesTracker.Maintenance` | components/home/CaloriesTracker.tsx:47 | `maintenanceCalories = 0`: the log's figure, or 0 when it has none. |
| `CaloriesTracker.Remaining` | components/home/CaloriesTracker.tsx:48 | `remaining` plus the intake equals the goal plus the calories burned. |
| `CaloriesTracker.IsOver` | components/home/CaloriesTracker.tsx:51 | The intake is above the defaulted goal, whatever was burned. Its contract is stated by `ProgressRedIffOver`, `PercentageAgainstGoal` and `OverAndStatus`. |
| `CaloriesTracker.StatusColor` | components/home/CaloriesTracker.tsx:52 | The status colour is red or green. It is red exactly when `remaining < 0`. |
| `CaloriesTracker.ProgressColor` | components/home/CaloriesTracker.tsx:53 | The ring colour is red or the primary colour. It is red exactly when `isOver`. |
| `CaloriesTracker.StatusMessage` | components/home/CaloriesTracker.tsx:55-57 | The message is the over-goal one or the on-track one. It is the over-goal one exactly when `remaining < 0`. |
| `CaloriesTracker.AbsentFiguresReadAsZero` | components/home/CaloriesTracker.tsx:47-51 | With no goal or maintenance figure, both read 0. The card then shows 0 %, any positive intake is over, and the balance is burn minus intake. |
| `CaloriesTracker.RemainingBalance` | components/home/CaloriesTracker.tsx:48 | Remaining plus intake equals goal plus burn. With goal and burn fixed, each extra calorie eaten lowers `remaining` by one, so raising intake never increases it. |
| `CaloriesTracker.Percentage` | components/home/CaloriesTracker.tsx:49 | 0 when the goal is not positive. Otherwise `percentage × goal = intake × 100`. |
| `CaloriesTracker.PercentageAgainstGoal` | components/home/CaloriesTracker.tsx:49-51 | With a positive goal: intake equal to the goal gives exactly 100. The figure is above 100 exactly when `isOver`, and it is non-negative exactly when intake is. |
| `CaloriesTracker.ProgressRedIffOver` | components/home/CaloriesTracker.tsx:51-53 | The progress ring is red exactly when `calories > caloriesGoal`. |
| `CaloriesTracker.StatusRedIffNegative` | components/home/CaloriesTracker.tsx:52-57 | The status colour is red, and the "over your net goal" message is chosen, exactly when `remaining < 0`. The two always agree. |
| `CaloriesTracker.OverAndStatus` | components/home/CaloriesTracker.tsx:48-52 | With no calories burned, `remaining < 0` holds exactly when `isOver`. With a non-negative burn, being under the goal always gives a green status. |
| `CaloriesTracker.OverYetOnTrack` | components/home/CaloriesTracker.tsx:48-57 | Example: 2100 eaten against a 2000 goal with 300 burned is over the goal (red ring), yet shows a green status and the on-track message. |
| `LogMealScreen.BlankNameIsWhiteSpace` | screens/LogMealScreen.tsx:19 | The blank test holds exactly when `foodName.trim()` is the empty string, which it is for the empty name. |
| `LogMealScreen.IsBlankName` | screens/LogMealScreen.tsx:19 | `!foodName.trim()`, defined as "white space only". `BlankNameIsWhiteSpace` proves it equal to the trim test for every name. |
| `LogMealScreen.Begin` | screens/LogMealScreen.tsx:18-27 | `handleSearch` up to the `await`, with the key check. Its contract is stated by `BlankSearch`, `SearchStarts`, `SearchWithoutKey` and `MealSearch.BeginSearch`. |
| `LogMealScreen.Spread` | screens/LogMealScreen.tsx:30 | `{ name: foodName, ...data }`: the answer's values, and its `name` when it carries one, else the typed name. |
| `LogMealScreen.Complete` | screens/LogMealScreen.tsx:29-35 | `handleSearch` from the `await` on. Its contract is stated by `SearchFound`, `SearchFailed` and `SearchSettles`. |
| `LogMealScreen.Search` | screens/LogMealScreen.tsx:18-36 | One whole `handleSearch`. Its contract is stated by the `Search...` lemmas and `MealSearch.HandleSearch`. |
| `LogMealScreen.Forwarded` | screens/LogMealScreen.tsx:38-42 | The calls `handleLog` makes. Its contract is stated by `LogForwardsResult`. |
| `LogMealScreen.BlankSearch` | screens/LogMealScreen.tsx:19-22 | A blank name sets "Please enter a food name." and nothing else. No lookup is made, and loading and the previous result are untouched. |
| `LogMealScreen.SearchStarts` | screens/LogMealScreen.tsx:23-25 | A non-blank search first sets loading, clears the error and clears the previous result. |
| `LogMealScreen.SearchWithoutKey` | screens/LogMealScreen.tsx:27-35 | A missing API key ends with "API key not configured.", no result and no loading, whatever the lookup would answer. The whole search is then its start step: no lookup is made. |
| `LogMealScreen.SearchFound` | screens/LogMealScreen.tsx:29-30 | On success, the result carries the lookup's values, with no error. It is named as typed, unless the answer carries a `name`, which then wins. |
| `LogMealScreen.SearchFailed` | screens/LogMealScreen.tsx:31-32 | On failure, the error is the thrown `Error`'s message, or "Failed to fetch data." for any other thrown value. There is no result. |
| `LogMealScreen.SearchSettles` | screens/LogMealScreen.tsx:23-35 | After a non-blank search, loading is false and exactly one of error and result is set. |
| `LogMealScreen.SearchIdempotent` | screens/LogMealScreen.tsx:18-36 | Repeating a search with the same outcome leaves the state as the first search left it. |
| `LogMealScreen.BlankAfterFound` | screens/LogMealScreen.tsx:19-30 | A successful search followed by a blank one leaves an error and the earlier result set together, the result still under its earlier name. |
| `LogMealScreen.LogForwardsResult` | screens/LogMealScreen.tsx:38-42 | `handleLog` forwards the current result exactly once when there is one, and makes no call otherwise. |
| `LogMealScreen.MealSearch.constructor` | screens/LogMealScreen.tsx:13-16 | Empty name, not loading, no error, no result, and no meal logged. |
| `LogMealScreen.MealSearch.SetFoodName` | screens/LogMealScreen.tsx:57 | The input's `onChange` replaces the name and nothing else. |
| `LogMealScreen.MealSearch.BeginSearch` | screens/LogMealScreen.tsx:18-27 | The new state is `Begin` of the old one. It reports whether the lookup is called, and the name captured for it. |
| `LogMealScreen.MealSearch.CompleteSearch` | screens/LogMealScreen.tsx:29-35 | The new state is `Complete` of the old one, given the lookup outcome and the captured name. |
| `LogMealScreen.MealSearch.HandleSearch` | screens/LogMealScreen.tsx:18-36 | The new state is `Search` of the old one. |
| `LogMealScreen.MealSearch.HandleLog` | screens/LogMealScreen.tsx:38-42 | The meals received by `onLogMeal` grow by `Forwarded` of the state. Nothing else changes. |
| `PlannerScreen.ChangeField` | screens/PlannerScreen.tsx:25 | `{ ...prev, [field]: value }` sets `field` to `value` and keeps every other field. |
| `PlannerScreen.ProfileEquality` | types.ts:5-13 | Two profiles that agree on every key are equal. |
| `PlannerScreen.ChangeFieldAlgebra` | screens/PlannerScreen.tsx:24-26 | Writing a field twice keeps the last value. Writing back the current value is the identity. Writes to different fields commute. |
| `PlannerScreen.ProfileChange` | screens/PlannerScreen.tsx:24-26 | `handleProfileChange`. Its contract is stated by `ProfileChangeSetsOneField`. |
| `PlannerScreen.Begin` | screens/PlannerScreen.tsx:28-35 | `handleSubmit` up to the `await`, with the key check. Its contract is stated by `SubmitStarts`, `SubmitWithoutKey` and `TransitionsKeepConsistent`. |
| `PlannerScreen.Complete` | screens/PlannerScreen.tsx:37-44 | `handleSubmit` from the `await` on. Its contract is stated by `SubmitOutcome`. |
| `PlannerScreen.Submit` | screens/PlannerScreen.tsx:28-45 | One whole `handleSubmit`. Its contract is stated by `SubmitWithoutKey`, `SubmitOutcome` and `TransitionsKeepConsistent`. |
| `PlannerScreen.NewPlan` | screens/PlannerScreen.tsx:86 | `setPlan(null)`. Its contract is stated by `NewPlanShowsForm`. |
| `PlannerScreen.ShowsForm` | screens/PlannerScreen.tsx:54 | `!plan && !isLoading`. Its contract is stated by `OneSectionShown`. |
| `PlannerScreen.ShowsSpinner` | screens/PlannerScreen.tsx:63 | `isLoading`. Its contract is stated by `OneSectionShown`. |
| `PlannerScreen.ShowsErrorCard` | screens/PlannerScreen.tsx:71 | `error` as a condition: a null or empty message shows no card. Its contract is stated by `OneSectionShown`. |
| `PlannerScreen.ShowsPlan` | screens/PlannerScreen.tsx:81 | `plan`. Its contract is stated by `OneSectionShown`. |
| `PlannerScreen.Consistent` | screens/PlannerScreen.tsx:28-44 | While loading there is no plan and no error, and a plan and an error never coexist. `TransitionsKeepConsistent` proves every transition keeps it. |
| `PlannerScreen.InitialShowsForm` | screens/PlannerScreen.tsx:12-22 | The initial state (age 30, weight 70, height 175, male, moderate, gain_muscle, no plan, not loading, no error) is consistent and shows the form alone. |
| `PlannerScreen.ProfileChangeSetsOneField` | screens/PlannerScreen.tsx:24-26 | `handleProfileChange(field, v)` sets `field` to `v` and leaves every other field, the plan, loading and the error as they were. |
| `PlannerScreen.SubmitStarts` | screens/PlannerScreen.tsx:29-31 | Submit begins loading with no error and no plan, and keeps the profile. Only the spinner is shown. |
| `PlannerScreen.SubmitWithoutKey` | screens/PlannerScreen.tsx:33-44 | A missing key ends with "API_KEY environment variable not set.", no plan and no loading. The whole submit is then its start step: the generator is not called. |
| `PlannerScreen.SubmitOutcome` | screens/PlannerScreen.tsx:37-44 | On success, the plan is the generated one and there is no error. On failure, there is no plan and the error is the thrown message (or "An unknown error occurred."). Loading ends in both cases. |
| `PlannerScreen.TransitionsKeepConsistent` | screens/PlannerScreen.tsx:24-44 | Submit always yields a consistent state, and so does its start. Profile changes and "new plan" preserve consistency. |
| `PlannerScreen.OneSectionShown` | screens/PlannerScreen.tsx:54-81 | In a consistent state exactly one of form, spinner and plan is shown. The form is shown iff there is no plan and no loading. The error card appears only beside the form. |
| `PlannerScreen.NewPlanShowsForm` | screens/PlannerScreen.tsx:86 | "Generate a New Plan" clears the plan and keeps the profile. From a shown plan it brings back the form, with no error card. |
| `PlannerScreen.Planner.constructor` | screens/PlannerScreen.tsx:12-22 | The state cells start at the initial state. |
| `PlannerScreen.Planner.HandleProfileChange` | screens/PlannerScreen.tsx:24-26 | The new state is `ProfileChange` of the old one. |
| `PlannerScreen.Planner.BeginSubmit` | screens/PlannerScreen.tsx:28-35 | The new state is `Begin` of the old one. It reports whether the generator is called, which is exactly when a key is configured. |
| `PlannerScreen.Planner.CompleteSubmit` | screens/PlannerScreen.tsx:37-44 | The new state is `Complete` of the old one, given the generation outcome. |
| `PlannerScreen.Planner.HandleSubmit` | screens/PlannerScreen.tsx:28-45 | The new state is `Submit` of the old one. The error card's "Try Again" (line 75) calls the same handler. |
| `PlannerScreen.Planner.HandleNewPlan` | screens/PlannerScreen.tsx:86 | The new state is `NewPlan` of the old one. |
| `PlannerForm.Route` | components/planner/PlannerForm.tsx:46-83 | Each handler passes its own key and never `dietaryPreference`. The number fields pass `Num(parseInt(text, 10) \|\| 0)`, and the selects pass their option string unchanged. |
| `PlannerForm.NumericValue` | components/planner/PlannerForm.tsx:46 | `parseInt(text, 10) \|\| 0`: NaN gives 0, and any integer `parseInt` yields is passed on as it is. |
| `PlannerForm.FieldOfEvent` | components/planner/PlannerForm.tsx:46-83 | The number inputs edit exactly age, weight and height. No event edits `dietaryPreference`. |
| `PlannerForm.Apply` | components/planner/PlannerForm.tsx:46-83 | An event as it reaches `handleProfileChange`. Its contract is stated by `ApplyTargetsOwnField` and `ApplyAlgebra`. |
| `PlannerForm.ApplyTargetsOwnField` | components/planner/PlannerForm.tsx:46-83 | An event sets its own field to the routed value and leaves every other field unchanged. |
| `PlannerForm.ApplyAlgebra` | components/planner/PlannerForm.tsx:46-83 | Repeating an event changes nothing more. Events on different fields give the same profile in either order. |
| `PlannerForm.NumericValueOfDecimal` | components/planner/PlannerForm.tsx:46 | The written form of any integer is passed as that integer, also when followed by a non-digit. A minus sign survives: negatives are not clamped to 0. |
| `PlannerForm.NumericValueOfDigits` | components/planner/PlannerForm.tsx:46 | Any digit string, leading zeros included and followed by text that does not start with a digit, is passed as its base-10 value. After a minus sign it is passed negated, and after a plus sign unchanged. |
| `PlannerForm.NumericValueOfLeadingZeros` | components/planner/PlannerForm.tsx:52 | `"007"` gives 7 and `"0070"` gives 70. |
| `PlannerForm.NumericValueWithoutDigits` | components/planner/PlannerForm.tsx:52 | Empty or non-numeric text becomes 0, never NaN. |
| `PlannerForm.NumericValueSkipsWhiteSpace` | components/planner/PlannerForm.tsx:58 | Leading white space does not change the number passed. |
| `PlannerForm.NumericValueOfEmpty` | components/planner/PlannerForm.tsx:46 | `""` and `"-"` give 0. |
| `PlannerForm.NumericValueOfWhole` | components/planner/PlannerForm.tsx:52 | `"70"` gives 70 and `"-5"` gives -5. |
| `PlannerForm.NumericValueOfFraction` | components/planner/PlannerForm.tsx:58 | `"72.5"` gives 72 and `"1e3"` gives 1: trailing non-digits are ignored. |
| `PlannerForm.SelectOptions` | components/planner/PlannerForm.tsx:65-87 | The goal options are lose_weight, maintain_weight and gain_muscle, all admitted goals, without gain_strength. The activity options are exactly the admitted levels. The gender options add "other" to the admitted ones. |
| `PlanDisplay.DayLabels` | components/planner/PlanDisplay.tsx:89 | One label per day of the tab's list. Label `i` is the `day` of entry `i`. |
| `PlanDisplay.DayCount` | components/planner/PlanDisplay.tsx:89-96 | The length of the active tab's list. Its contract is stated by `DayLabels`, `Details` and `SwitchWithinLongerList`. |
| `PlanDisplay.DaySelector` | components/planner/PlanDisplay.tsx:11-16 | One button per plan day. |
| `PlanDisplay.DaySelectorHighlightsCurrent` | components/planner/PlanDisplay.tsx:11-16 | The buttons follow the days in order. Exactly the button whose index equals `activeDay` is highlighted, and none when it is out of range. |
| `PlanDisplay.Selector` | components/planner/PlanDisplay.tsx:89-95 | The selector of the active tab has one button per day of that tab's list, labelled in order. Exactly the active day's button is highlighted. |
| `PlanDisplay.WorkoutDetails` | components/planner/PlanDisplay.tsx:30 | A day with missing or empty exercises renders as a rest day. Otherwise its exercises are listed. The focus is always shown. |
| `PlanDisplay.Details` | components/planner/PlanDisplay.tsx:87-98 | A panel exists exactly when `activeDay` indexes the active tab's list, and it shows that list's entry. |
| `PlanDisplay.InitialView` | components/planner/PlanDisplay.tsx:6-7 | The initial state is the workout tab and day 0, which has a panel exactly when the plan has a workout day. |
| `PlanDisplay.ClickDay` | components/planner/PlanDisplay.tsx:89 | `onSelect={setActiveDay}`. Its contract is stated by `ClickDayShowsIt`. |
| `PlanDisplay.ClickTab` | components/planner/PlanDisplay.tsx:83-84 | `setActiveTab`. Its contract is stated by `SwitchTabKeepsDay`. |
| `PlanDisplay.ClickDayShowsIt` | components/planner/PlanDisplay.tsx:14 | Clicking day `i` of the shown selector sets `activeDay` to `i` and keeps the tab. The button is highlighted and has a panel. |
| `PlanDisplay.SwitchTabKeepsDay` | components/planner/PlanDisplay.tsx:83-84 | Switching tabs leaves `activeDay` unchanged. The other tab has a panel exactly when its list reaches that day. |
| `PlanDisplay.SwitchWithinLongerList` | components/planner/PlanDisplay.tsx:89-96 | A day chosen on one tab stays in range after a switch when the other list is at least as long. |
| `PlanDisplay.SwitchToShorterList` | components/planner/PlanDisplay.tsx:95-96 | With seven workout days and one meal day, choosing day 3 and switching to meals leaves no panel. |
| `PlanDisplay.Viewer.constructor` | components/planner/PlanDisplay.tsx:6-7 | The viewer starts on the workout tab, day 0. |
| `PlanDisplay.Viewer.Panel` | components/planner/PlanDisplay.tsx:87-98 | The current state has a panel exactly when `activeDay` indexes the active tab's list. |
| `PlanDisplay.Viewer.SelectTab` | components/planner/PlanDisplay.tsx:83-84 | The new state is `ClickTab` of the old one: the tab changes and the day does not. |
| `PlanDisplay.Viewer.SelectDay` | components/planner/PlanDisplay.tsx:89 | The new state is `ClickDay` of the old one, and the chosen day has a panel. |
| `Types.ErrorText` | screens/LogMealScreen.tsx:32 | `err instanceof Error ? err.message : fallback`. Its contract is stated by `LogMealScreen.SearchFailed` and `PlannerScreen.SubmitOutcome`. |
| `Types.Truthy` | screens/PlannerScreen.tsx:71 | `{error && ...}`: null and the empty string are falsy. Its contract is stated through `PlannerScreen.ShowsErrorCard` in `OneSectionShown`. |

## Left out

- Rendering, CSS classes, SVG icons, animation and the spinner are left out: they are presentation only. The `ProgressCircle` geometry, `Math.round` of the percentage and `toLocaleString` formatting are left out too: they are floating point or display formatting.
- Calorie amounts are exact reals. JavaScript's double rounding is not modelled.
- The plan generator, the nutrition lookup and the `process.env.API_KEY` check are not modelled as code, because they are network calls or environment reads. They appear only as caller-supplied outcomes (`Generation`, `Lookup`, `apiKeyConfigured`). `getNutritionalInfoForFood` is not part of this model: `services/geminiService.ts` does not define it.
- `PlannerForm.NumericValueOfDecimal`: does not model the limit of JavaScript numbers. `parseInt` loses precision past 2^53, and past about 1.8e308 it gives `Infinity`, which `|| 0` lets through. The model reads every digit string exactly.
- `EcmaScript.Decimal`: writes every integer in plain digits. `String(n)` does so only below 10^21 in magnitude, and switches to exponent notation from there on. That range is not modelled.
- `-0`: `parseInt` returns -0 for a minus sign followed by zeros. The model folds it into 0. `|| 0` maps both to 0, so the coerced value is the same.
- Strings are sequences of Unicode code points. JavaScript strings are UTF-16 code units, but every white-space character and digit involved lies in the Basic Multilingual Plane, so trimming and parsing agree.
- The nutrition lookup's answer is taken to hold `calories`, `protein`, `carbs`, `fat` and, optionally, `name`. Any other key it carried would also be spread into `nutritionInfo`. Such keys are not modelled, because the screen renders none of them.
- `console.error(err)` in the plan screen's `catch` (screens/PlannerScreen.tsx:40) is not modelled: it only writes to the console.
- Overlapping meal searches are not modelled. The search button is disabled while loading, but the Enter key still calls `handleSearch`, so two lookups can be in flight and finish in either order. The model completes each search before the next one starts.
- React's render scheduling and state batching are not modelled. State cells are updated in the order the handlers call their setters. Only values that can be rendered are compared.
- The `playlist` prop is fixed for the life of a `MusicScreen.Player`, and it must be non-empty. The source reads `playlist[0].title` on the first render, which throws for an empty list. A playlist changing under a kept index is not modelled.
- The plan shown by `PlanDisplay` is fixed for a `Viewer`. "Generate a New Plan" unmounts the viewer, so a new plan starts from a fresh view state.
- The remaining screens, the navigation bar, `App.tsx` and the estimation formulas (BMR, TDEE, MET, steps, sleep) are not part of this model. These files are static markup or tab routing, and the formulas appear in no modelled file.
