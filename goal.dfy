/** The `goalUpdate` snapshot that `sendGoalUpdate` builds from the running
    total, the configured goal and the cached exchange rate. */
module Goal {
  import opened Decimal

  /** The `data` part of a `goalUpdate` message. `usdCents` and
      `goalUsdCents` are the two-decimal strings of the source as whole
      cents. */
  datatype GoalUpdate = GoalUpdate(
    current: real,
    goal: real,
    progress: real,
    rate: real,
    usdCents: int,
    goalUsdCents: int)

  /** `progress = min(current / goal * 100, 100)`, the fiat values rounded to
      the nearest cent, a tie going away from zero as `toFixed(2)` does. Progress never exceeds 100, reaches exactly 100 precisely when
      the goal is met, and is otherwise the exact percentage. */
  function GoalSnapshot(current: real, goal: real, rate: real): (m: GoalUpdate)
    requires goal > 0.0
    ensures m.current == current && m.goal == goal && m.rate == rate
    ensures m.progress <= 100.0
    ensures m.progress == 100.0 <==> current >= goal
    ensures current < goal ==> m.progress * goal == current * 100.0
    ensures current >= 0.0 ==> m.progress >= 0.0
    ensures current * rate >= 0.0 ==> -0.5 < m.usdCents as real - current * rate * 100.0 <= 0.5
    ensures current * rate < 0.0 ==> -0.5 <= m.usdCents as real - current * rate * 100.0 < 0.5
    ensures goal * rate >= 0.0 ==> -0.5 < m.goalUsdCents as real - goal * rate * 100.0 <= 0.5
    ensures goal * rate < 0.0 ==> -0.5 <= m.goalUsdCents as real - goal * rate * 100.0 < 0.5
  {
    var ratio := current / goal * 100.0;
    assert ratio * goal == current * 100.0;
    assert Pow10(2) == 100;
    GoalUpdate(
      current,
      goal,
      if ratio < 100.0 then ratio else 100.0,
      rate,
      ToFixed(current * rate, 2),
      ToFixed(goal * rate, 2))
  }

  /** Worked examples: 5 of 10 is 50 per cent, 12 of 10 is clamped, and
      0.005 AR at one dollar is a half-cent tie that rounds up to one cent. */
  lemma SnapshotExamples(rate: real)
    ensures GoalSnapshot(5.0, 10.0, rate).progress == 50.0
    ensures GoalSnapshot(12.0, 10.0, rate).progress == 100.0
    ensures GoalSnapshot(0.005, 10.0, 1.0).usdCents == 1
  {
  }
}
