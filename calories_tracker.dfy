/** The calorie card of the home screen: the net balance of the day, the
    share of the goal eaten so far, and the colours and message chosen from
    them. Calorie amounts are exact reals; the rounding and number formatting
    of the display are not modelled. */
module CaloriesTracker {
  import opened Types

  const StatusRed := "text-red-500"
  const StatusGreen := "text-green-500"
  const ProgressRed := "text-red-500"
  const ProgressPrimary := "text-primary"
  const OverMessage := "You're over your net goal. That's okay, tomorrow is a new day!"
  const OnTrackMessage := "You're on track. Great job!"

  /** A destructuring default `= 0`: it applies when the field is absent. */
  function OrZero(o: Option<real>): (r: real)
    ensures o.None? ==> r == 0.0
    ensures o.Some? ==> r == o.value
  {
    match o
    case Some(v) => v
    case None => 0.0
  }

  /** `caloriesGoal`, 0 when the log has none (no plan generated yet). */
  function Goal(log: DailyLog): (g: real)
    ensures log.caloriesGoal.None? ==> g == 0.0
    ensures log.caloriesGoal.Some? ==> g == log.caloriesGoal.value
  {
    OrZero(log.caloriesGoal)
  }

  /** `maintenanceCalories`, 0 when the log has none. */
  function Maintenance(log: DailyLog): (m: real)
    ensures log.maintenanceCalories.None? ==> m == 0.0
    ensures log.maintenanceCalories.Some? ==> m == log.maintenanceCalories.value
  {
    OrZero(log.maintenanceCalories)
  }

  /** `remaining`: the goal, less what was eaten, plus what was burned. */
  function Remaining(log: DailyLog): (r: real)
    ensures r + log.calories == Goal(log) + log.caloriesBurned
  {
    Goal(log) - log.calories + log.caloriesBurned
  }

  /** `percentage`: the intake as a share of a positive goal, in percent; 0
      when the goal is not positive. */
  function Percentage(log: DailyLog): (p: real)
    ensures Goal(log) <= 0.0 ==> p == 0.0
    ensures Goal(log) > 0.0 ==> p * Goal(log) == log.calories * 100.0
  {
    if Goal(log) > 0.0 then log.calories / Goal(log) * 100.0 else 0.0
  }

  /** `isOver`: more was eaten than the goal, whatever was burned. */
  predicate IsOver(log: DailyLog)
  {
    log.calories > Goal(log)
  }

  /** The status line's colour: red while the balance is negative, green otherwise. */
  function StatusColor(log: DailyLog): (c: string)
    ensures c == StatusRed || c == StatusGreen
    ensures c == StatusRed <==> Remaining(log) < 0.0
  {
    if Remaining(log) < 0.0 then StatusRed else StatusGreen
  }

  /** The progress ring's colour: red while over the goal, the primary colour otherwise. */
  function ProgressColor(log: DailyLog): (c: string)
    ensures c == ProgressRed || c == ProgressPrimary
    ensures c == ProgressRed <==> IsOver(log)
  {
    if IsOver(log) then ProgressRed else ProgressPrimary
  }

  /** The message under the balance, chosen by the same test as the status colour. */
  function StatusMessage(log: DailyLog): (m: string)
    ensures m == OverMessage || m == OnTrackMessage
    ensures m == OverMessage <==> Remaining(log) < 0.0
  {
    if Remaining(log) < 0.0 then OverMessage else OnTrackMessage
  }

  /** Absent goal and maintenance figures read as 0: the card then shows 0 %,
      any positive intake counts as over, and the balance is burn minus intake. */
  lemma AbsentFiguresReadAsZero(log: DailyLog)
    requires log.caloriesGoal.None? && log.maintenanceCalories.None?
    ensures Goal(log) == 0.0 && Maintenance(log) == 0.0
    ensures Percentage(log) == 0.0
    ensures IsOver(log) <==> log.calories > 0.0
    ensures Remaining(log) == log.caloriesBurned - log.calories
  {
  }

  /** The balance: what remains plus what was eaten is the goal plus what
      was burned; each extra calorie eaten removes one from what remains. */
  lemma RemainingBalance(log: DailyLog, later: DailyLog)
    requires later.caloriesGoal == log.caloriesGoal && later.caloriesBurned == log.caloriesBurned
    ensures Remaining(log) + log.calories == Goal(log) + log.caloriesBurned
    ensures Remaining(log) - Remaining(later) == later.calories - log.calories
    ensures later.calories >= log.calories ==> Remaining(later) <= Remaining(log)
  {
  }

  /** Eating exactly a positive goal shows 100 %; with a positive goal the
      progress figure passes 100 % exactly when the intake is over the goal. */
  lemma PercentageAgainstGoal(log: DailyLog)
    requires Goal(log) > 0.0
    ensures log.calories == Goal(log) ==> Percentage(log) == 100.0
    ensures Percentage(log) > 100.0 <==> IsOver(log)
    ensures Percentage(log) >= 0.0 <==> log.calories >= 0.0
  {
    var g, p := Goal(log), Percentage(log);
    assert p * g == log.calories * 100.0;
    SignOfProduct(p - 100.0, g);
    SignOfProduct(p, g);
    assert (p - 100.0) * g == p * g - 100.0 * g;
  }

  lemma SignOfProduct(x: real, g: real)
    requires g > 0.0
    ensures x > 0.0 <==> x * g > 0.0
    ensures x == 0.0 <==> x * g == 0.0
  {
  }

  /** The progress ring is red exactly when the intake is over the goal. */
  lemma ProgressRedIffOver(log: DailyLog)
    ensures ProgressColor(log) == ProgressRed <==> IsOver(log)
  {
  }

  /** The status colour and the message agree: red with the "over your net
      goal" message exactly when the balance is negative. */
  lemma StatusRedIffNegative(log: DailyLog)
    ensures StatusColor(log) == StatusRed <==> Remaining(log) < 0.0
    ensures StatusMessage(log) == OverMessage <==> Remaining(log) < 0.0
    ensures StatusColor(log) == StatusRed <==> StatusMessage(log) == OverMessage
  {
  }

  /** Without burned calories the two warnings coincide; with a non-negative
      burn, being under the goal always keeps the status green. */
  lemma OverAndStatus(log: DailyLog)
    ensures log.caloriesBurned == 0.0 ==> (Remaining(log) < 0.0 <==> IsOver(log))
    ensures log.caloriesBurned >= 0.0 && !IsOver(log) ==> StatusColor(log) == StatusGreen
  {
  }

  /** With calories burned the two can disagree: over the goal (red ring)
      yet on track (green status). */
  lemma OverYetOnTrack()
    ensures var log := DailyLog(2100.0, 0.0, 0, 70.0, "", [], Some(2000.0), None, None, 300.0,
                                [], false, false, None);
      IsOver(log) && ProgressColor(log) == ProgressRed
      && Remaining(log) == 200.0 && StatusColor(log) == StatusGreen
      && StatusMessage(log) == OnTrackMessage
  {
  }
}
