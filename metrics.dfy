/**
 * The weight-goal calculator: basal metabolic rate (Mifflin-St Jeor), total daily energy
 * expenditure, the time needed to reach a goal weight, the daily water target, and the
 * decisions the calculator page takes from them (goal direction, target calories, the three
 * timelines and the water-intake advice). All arithmetic is exact (`real`).
 */
module Metrics {
  import opened Outcome

  /** The two ways a computation of this module fails. */
  datatype MetricsError =
    | UnknownActivityLevel(level: string)  // the label is not a key of the multiplier table
    | ZeroCalorieDelta                     // a timeline asked for with a daily delta of zero

  function Abs(x: real): real
  {
    if x < 0.0 then -x else x
  }

  // ---------------------------------------------------------------------------------------
  // Basal metabolic rate

  const MaleOffset: real := 5.0
  const FemaleOffset: real := -161.0

  /** Mifflin-St Jeor BMR in kcal/day; every gender string other than "Male" gets the female offset. */
  function Bmr(weightKg: real, heightCm: real, age: int, gender: string): (r: real)
    ensures gender == "Male" ==> r == 10.0 * weightKg + 6.25 * heightCm - 5.0 * (age as real) + 5.0
    ensures gender != "Male" ==> r == 10.0 * weightKg + 6.25 * heightCm - 5.0 * (age as real) - 161.0
  {
    10.0 * weightKg + 6.25 * heightCm - 5.0 * (age as real)
      + (if gender == "Male" then MaleOffset else FemaleOffset)
  }

  /** For equal weight, height and age, the male BMR exceeds any other gender's by exactly 166. */
  lemma BmrMaleGap(weightKg: real, heightCm: real, age: int, gender: string)
    requires gender != "Male"
    ensures Bmr(weightKg, heightCm, age, "Male") - Bmr(weightKg, heightCm, age, gender) == 166.0
  {
  }

  /** Every gender string other than "Male" is treated alike. */
  lemma BmrNonMaleUniform(weightKg: real, heightCm: real, age: int, g1: string, g2: string)
    requires g1 != "Male" && g2 != "Male"
    ensures Bmr(weightKg, heightCm, age, g1) == Bmr(weightKg, heightCm, age, g2)
  {
  }

  /** BMR is linear: +10 per kg, +6.25 per cm, -5 per year. */
  lemma BmrLinear(weightKg: real, heightCm: real, age: int, gender: string, dw: real, dh: real, da: int)
    ensures Bmr(weightKg + dw, heightCm + dh, age + da, gender)
         == Bmr(weightKg, heightCm, age, gender) + 10.0 * dw + 6.25 * dh - 5.0 * (da as real)
  {
  }

  // ---------------------------------------------------------------------------------------
  // Total daily energy expenditure

  const Sedentary := "Sedentary (little/no exercise)"
  const LightlyActive := "Lightly Active (1-3 days/week)"
  const ModeratelyActive := "Moderately Active (3-5 days/week)"
  const VeryActive := "Very Active (6-7 days/week)"
  const ExtraActive := "Extra Active (physical job/exercise)"

  /** The activity labels in the order the calculator offers them. */
  const ActivityLevels: seq<string> := [Sedentary, LightlyActive, ModeratelyActive, VeryActive, ExtraActive]

  const ActivityMultipliers: map<string, real> :=
    map[Sedentary := 1.2, LightlyActive := 1.375, ModeratelyActive := 1.55,
        VeryActive := 1.725, ExtraActive := 1.9]

  /** BMR scaled by the multiplier of the activity label; a label outside the table is an error. */
  function Tdee(bmr: real, activityLevel: string): (r: Result<real, MetricsError>)
    ensures r.Ok? <==> activityLevel in ActivityLevels
    ensures r.Err? ==> r.error == UnknownActivityLevel(activityLevel)
    ensures r.Ok? && bmr != 0.0 ==> r.value / bmr == ActivityMultipliers[activityLevel]
  {
    if activityLevel in ActivityMultipliers then Ok(bmr * ActivityMultipliers[activityLevel])
    else Err(UnknownActivityLevel(activityLevel))
  }

  /** Each of the five labels scales BMR by its fixed multiplier. */
  lemma TdeeMultipliers(bmr: real)
    ensures Tdee(bmr, Sedentary) == Ok(bmr * 1.2)
    ensures Tdee(bmr, LightlyActive) == Ok(bmr * 1.375)
    ensures Tdee(bmr, ModeratelyActive) == Ok(bmr * 1.55)
    ensures Tdee(bmr, VeryActive) == Ok(bmr * 1.725)
    ensures Tdee(bmr, ExtraActive) == Ok(bmr * 1.9)
  {
  }

  /** For a positive BMR, a more active label (later in the offered order) gives a strictly larger TDEE. */
  lemma TdeeIncreasesWithActivity(bmr: real, i: nat, j: nat)
    requires bmr > 0.0
    requires i < j < |ActivityLevels|
    ensures Tdee(bmr, ActivityLevels[i]).Ok? && Tdee(bmr, ActivityLevels[j]).Ok?
    ensures Tdee(bmr, ActivityLevels[i]).value < Tdee(bmr, ActivityLevels[j]).value
  {
  }

  // ---------------------------------------------------------------------------------------
  // Time to goal

  /** Energy per kilogram of body mass, in kcal. */
  const KcalPerKg: real := 7700.0

  /**
   * Weeks needed to move from `currentKg` to `desiredKg` at a daily kcal delta of `delta`:
   * |current - desired| * 7700 kcal spread over |delta| kcal per day, in weeks.
   */
  function TimeToGoal(currentKg: real, desiredKg: real, delta: real): (r: Result<real, MetricsError>)
    ensures r.Ok? <==> delta != 0.0
    ensures r.Err? ==> r.error == ZeroCalorieDelta
    ensures r.Ok? ==> r.value >= 0.0
    ensures r.Ok? ==> r.value * 7.0 * Abs(delta) == Abs(currentKg - desiredKg) * KcalPerKg
  {
    if delta == 0.0 then Err(ZeroCalorieDelta)
    else
      var totalKcal := Abs(currentKg - desiredKg) * KcalPerKg;
      var days := totalKcal / Abs(delta);
      assert days * Abs(delta) == totalKcal;
      Ok(days / 7.0)
  }

  /** The time depends only on the distance between the two weights. */
  lemma TimeToGoalSymmetric(currentKg: real, desiredKg: real, delta: real)
    ensures TimeToGoal(currentKg, desiredKg, delta) == TimeToGoal(desiredKg, currentKg, delta)
  {
  }

  /** A goal already met takes zero weeks, whatever the (nonzero) delta. */
  lemma TimeToGoalZeroWhenMet(weightKg: real, delta: real)
    requires delta != 0.0
    ensures TimeToGoal(weightKg, weightKg, delta) == Ok(0.0)
  {
  }

  /** From 80 kg to 70 kg at 500 kcal/day takes exactly 22 weeks. */
  lemma TimeToGoalExample()
    ensures TimeToGoal(80.0, 70.0, 500.0) == Ok(22.0)
  {
  }

  /** A larger daily deficit or surplus never gives a longer time. */
  lemma TimeToGoalNonIncreasing(currentKg: real, desiredKg: real, d1: real, d2: real)
    requires 0.0 < Abs(d1) <= Abs(d2)
    ensures TimeToGoal(currentKg, desiredKg, d2).value <= TimeToGoal(currentKg, desiredKg, d1).value
  {
    var t1 := TimeToGoal(currentKg, desiredKg, d1).value;
    var t2 := TimeToGoal(currentKg, desiredKg, d2).value;
    var a, b := 7.0 * Abs(d1), 7.0 * Abs(d2);
    // both times spread the same energy: t1 * a == t2 * b, with 0 < a <= b and t2 >= 0
    assert t1 * a == t2 * b;
    assert t2 * b - t2 * a == t2 * (b - a);
    MultiplyNonNegative(t2, b - a);
    assert (t1 - t2) * a == t1 * a - t2 * a;
    PositiveFactor(t1 - t2, a);
  }

  /** For distinct weights, a strictly larger daily deficit or surplus gives a strictly shorter time. */
  lemma TimeToGoalDecreasing(currentKg: real, desiredKg: real, d1: real, d2: real)
    requires currentKg != desiredKg
    requires 0.0 < Abs(d1) < Abs(d2)
    ensures TimeToGoal(currentKg, desiredKg, d2).value < TimeToGoal(currentKg, desiredKg, d1).value
  {
    var t1 := TimeToGoal(currentKg, desiredKg, d1).value;
    var t2 := TimeToGoal(currentKg, desiredKg, d2).value;
    // both times spread the same positive energy over 7 * |delta| kcal per week
    assert t1 * (7.0 * Abs(d1)) == t2 * (7.0 * Abs(d2)) > 0.0;
    PositiveFactorStrict(t2, 7.0 * Abs(d2));
    SmallerRateLongerTime(t1, t2, 7.0 * Abs(d1), 7.0 * Abs(d2));
  }

  /** Equal products with a positive second time: the smaller rate needs the longer time. */
  lemma SmallerRateLongerTime(t1: real, t2: real, a: real, b: real)
    requires t1 * a == t2 * b && t2 > 0.0 && 0.0 < a < b
    ensures t2 < t1
  {
    MultiplyPositive(t2, b - a);
    assert t2 * (b - a) == t2 * b - t2 * a;
    assert (t1 - t2) * a == t1 * a - t2 * a;
    PositiveFactorStrict(t1 - t2, a);
  }

  lemma MultiplyPositive(x: real, y: real)
    requires x > 0.0 && y > 0.0
    ensures x * y > 0.0
  {
  }

  lemma PositiveFactorStrict(x: real, y: real)
    requires y > 0.0 && x * y > 0.0
    ensures x > 0.0
  {
  }

  lemma MultiplyNonNegative(x: real, y: real)
    requires x >= 0.0 && y >= 0.0
    ensures x * y >= 0.0
  {
  }

  lemma PositiveFactor(x: real, y: real)
    requires y > 0.0 && x * y >= 0.0
    ensures x >= 0.0
  {
  }

  // ---------------------------------------------------------------------------------------
  // Goal direction, target calories and the three timelines

  datatype GoalType = Deficit | Surplus

  const RecommendedDeficit: real := 500.0
  const RecommendedSurplus: real := 250.0

  /**
   * What the calculator derives from the two weights and the TDEE. `minTime` and `maxTime`
   * carry the names of the page's own variables: for a deficit `minTime` is the 250 kcal
   * (longest) timeline and `maxTime` the 1000 kcal (shortest) one.
   */
  datatype GoalPlan = GoalPlan(goal: GoalType, targetCalories: real,
                               weeksToGoal: real, minTime: real, maxTime: real)

  /** The daily kcal deltas of the (min_time, max_time, recommended) timelines of a goal. */
  function TimelineDeltas(goal: GoalType): (real, real, real)
  {
    match goal
    case Deficit => (250.0, 1000.0, RecommendedDeficit)
    case Surplus => (500.0, 125.0, RecommendedSurplus)
  }

  /**
   * The goal decision: a deficit of 500 kcal when the current weight exceeds the desired one,
   * otherwise (equal weights included) a surplus of 250 kcal; then the three timelines.
   */
  function PlanGoal(currentKg: real, desiredKg: real, tdee: real): (p: GoalPlan)
    ensures p.goal == Deficit <==> currentKg - desiredKg > 0.0
    ensures p.goal == Deficit ==> p.targetCalories == tdee - 500.0
    ensures p.goal == Surplus ==> p.targetCalories == tdee + 250.0
    ensures p.goal == Deficit ==> p.maxTime <= p.weeksToGoal <= p.minTime
    ensures p.goal == Surplus ==> p.minTime <= p.weeksToGoal <= p.maxTime
    ensures p.minTime == TimeToGoal(currentKg, desiredKg, TimelineDeltas(p.goal).0).value
    ensures p.maxTime == TimeToGoal(currentKg, desiredKg, TimelineDeltas(p.goal).1).value
    ensures p.weeksToGoal == TimeToGoal(currentKg, desiredKg, TimelineDeltas(p.goal).2).value
  {
    var weightDiff := currentKg - desiredKg;
    var goal := if weightDiff > 0.0 then Deficit else Surplus;
    var target := if goal == Deficit then tdee - RecommendedDeficit else tdee + RecommendedSurplus;
    var (minDelta, maxDelta, delta) := TimelineDeltas(goal);
    var minTime := TimeToGoal(currentKg, desiredKg, minDelta).value;
    var maxTime := TimeToGoal(currentKg, desiredKg, maxDelta).value;
    var weeks := TimeToGoal(currentKg, desiredKg, delta).value;
    if goal == Deficit then
      TimeToGoalNonIncreasing(currentKg, desiredKg, delta, maxDelta);
      TimeToGoalNonIncreasing(currentKg, desiredKg, minDelta, delta);
      GoalPlan(goal, target, weeks, minTime, maxTime)
    else
      TimeToGoalNonIncreasing(currentKg, desiredKg, maxDelta, delta);
      TimeToGoalNonIncreasing(currentKg, desiredKg, delta, minDelta);
      GoalPlan(goal, target, weeks, minTime, maxTime)
  }

  /** The three timelines as the page labels them: slow, recommended and fast pace. */
  datatype PaceReport = PaceReport(slow: real, recommended: real, fast: real)

  /**
   * The labelling as written: "Slow pace" shows `maxTime` and "Fast pace" shows `minTime`,
   * whatever the goal direction.
   */
  function DisplayedPaces(p: GoalPlan): (r: PaceReport)
    ensures r.slow == p.maxTime && r.recommended == p.weeksToGoal && r.fast == p.minTime
  {
    PaceReport(p.maxTime, p.weeksToGoal, p.minTime)
  }

  /**
   * For every weight-loss goal the labels as written are inverted: "Fast pace" shows the longest
   * time and "Slow pace" the shortest.
   */
  lemma DisplayedPacesInvertedForDeficit(currentKg: real, desiredKg: real, tdee: real)
    requires currentKg > desiredKg
    ensures var r := DisplayedPaces(PlanGoal(currentKg, desiredKg, tdee));
            r.fast > r.recommended > r.slow
  {
    TimeToGoalDecreasing(currentKg, desiredKg, 250.0, 500.0);
    TimeToGoalDecreasing(currentKg, desiredKg, 500.0, 1000.0);
  }

  /** For instance, 80 kg to 70 kg shows "Fast pace" 44 weeks and "Slow pace" 11 weeks. */
  lemma DisplayedPacesExample()
    ensures var r := DisplayedPaces(PlanGoal(80.0, 70.0, 2000.0));
            r.fast == 44.0 && r.recommended == 22.0 && r.slow == 11.0
  {
  }

  /**
   * The labelling the page evidently intends: the fast pace is the largest delta's (shortest)
   * timeline and the slow pace the smallest delta's (longest), for both goal directions.
   */
  function Paces(p: GoalPlan): (r: PaceReport)
    ensures r.recommended == DisplayedPaces(p).recommended
    ensures p.goal == Surplus ==> r == DisplayedPaces(p)
    ensures p.goal == Deficit ==> r.fast == DisplayedPaces(p).slow && r.slow == DisplayedPaces(p).fast
  {
    match p.goal
    case Deficit => PaceReport(p.minTime, p.weeksToGoal, p.maxTime)
    case Surplus => PaceReport(p.maxTime, p.weeksToGoal, p.minTime)
  }

  /**
   * With the intended labelling, the fast pace is the timeline of the goal's largest daily delta
   * (1000 kcal deficit, 500 kcal surplus), the slow pace that of its smallest (250 kcal deficit,
   * 125 kcal surplus), and fast <= recommended <= slow for every goal the calculator plans.
   */
  lemma PacesOrdered(currentKg: real, desiredKg: real, tdee: real)
    ensures var r := Paces(PlanGoal(currentKg, desiredKg, tdee));
            var deficit := currentKg > desiredKg;
            && r.fast == TimeToGoal(currentKg, desiredKg, if deficit then 1000.0 else 500.0).value
            && r.slow == TimeToGoal(currentKg, desiredKg, if deficit then 250.0 else 125.0).value
            && r.fast <= r.recommended <= r.slow
  {
  }

  // ---------------------------------------------------------------------------------------
  // Water

  /** Recommended daily water in litres: 32.5 ml per kg of body weight. */
  function RecommendedWater(weightKg: real): (r: real)
    ensures weightKg >= 0.0 ==> r >= 0.0
    ensures r * 1000.0 == weightKg * 32.5
  {
    (weightKg * 32.5) / 1000.0
  }

  /** The advice on the water intake, by the difference between intake and recommendation. */
  datatype WaterAdvice =
    | DrinkMore(shortfall: real)   // more than half a litre below
    | AboveTarget(excess: real)    // more than half a litre above
    | CloseToTarget

  function CompareWater(intake: real, recommended: real): (a: WaterAdvice)
    ensures a.DrinkMore? <==> intake - recommended < -0.5
    ensures a.AboveTarget? <==> intake - recommended > 0.5
    ensures a.CloseToTarget? <==> -0.5 <= intake - recommended <= 0.5
    ensures a.DrinkMore? ==> a.shortfall > 0.5 && intake + a.shortfall == recommended
    ensures a.AboveTarget? ==> a.excess > 0.5 && intake - a.excess == recommended
  {
    var diff := intake - recommended;
    if diff < -0.5 then DrinkMore(Abs(diff))
    else if diff > 0.5 then AboveTarget(diff)
    else CloseToTarget
  }

  /** Following the advice (drinking the shortfall, or dropping the excess) lands in the close band. */
  lemma FollowingWaterAdviceIsClose(intake: real, recommended: real)
    ensures match CompareWater(intake, recommended)
            case DrinkMore(s) => CompareWater(intake + s, recommended) == CloseToTarget
            case AboveTarget(e) => CompareWater(intake - e, recommended) == CloseToTarget
            case CloseToTarget => true
  {
  }

  // ---------------------------------------------------------------------------------------
  // The calculator page as a whole

  datatype Assessment = Assessment(bmr: real, tdee: real, plan: GoalPlan, paces: PaceReport,
                                   recommendedWater: real, water: WaterAdvice)

  /**
   * Everything the calculator page computes from its inputs, with the pace labels as the page
   * prints them; BMR, TDEE and the water target use the current weight. Fails exactly when the
   * activity label is not one of the five offered.
   */
  function Assess(currentKg: real, desiredKg: real, heightCm: real, age: int, gender: string,
                  activityLevel: string, waterIntake: real): (r: Result<Assessment, MetricsError>)
    ensures r.Ok? <==> activityLevel in ActivityLevels
    ensures r.Err? ==> r.error == UnknownActivityLevel(activityLevel)
    ensures r.Ok? ==> r.value.bmr == Bmr(currentKg, heightCm, age, gender)
    ensures r.Ok? ==> Tdee(r.value.bmr, activityLevel) == Ok(r.value.tdee)
    ensures r.Ok? ==> r.value.plan == PlanGoal(currentKg, desiredKg, r.value.tdee)
    ensures r.Ok? ==> r.value.paces == DisplayedPaces(r.value.plan)
    ensures r.Ok? ==> r.value.recommendedWater == RecommendedWater(currentKg)
    ensures r.Ok? ==> r.value.water == CompareWater(waterIntake, r.value.recommendedWater)
    ensures r.Ok? ==> (r.value.plan.goal == Deficit <==> currentKg > desiredKg)
    ensures r.Ok? ==> r.value.plan.targetCalories ==
                        if currentKg > desiredKg then r.value.tdee - 500.0 else r.value.tdee + 250.0
    ensures r.Ok? && currentKg > desiredKg ==>
              r.value.paces.fast > r.value.paces.recommended > r.value.paces.slow
    ensures r.Ok? && currentKg <= desiredKg ==>
              r.value.paces.fast <= r.value.paces.recommended <= r.value.paces.slow
    ensures r.Ok? ==> (r.value.water == CloseToTarget <==> Abs(waterIntake - r.value.recommendedWater) <= 0.5)
  {
    var bmr := Bmr(currentKg, heightCm, age, gender);
    match Tdee(bmr, activityLevel)
    case Err(e) => Err(e)
    case Ok(tdee) =>
      var plan := PlanGoal(currentKg, desiredKg, tdee);
      var water := RecommendedWater(currentKg);
      var paces := DisplayedPaces(plan);
      assert currentKg > desiredKg ==> paces.fast > paces.recommended > paces.slow by {
        if currentKg > desiredKg {
          DisplayedPacesInvertedForDeficit(currentKg, desiredKg, tdee);
        }
      }
      Ok(Assessment(bmr, tdee, plan, paces, water, CompareWater(waterIntake, water)))
  }
}
