/** The workout scoring function of the recommendation engine: a fixed
    weighted sum of three hand-picked features. JavaScript numbers are
    modelled as mathematical reals. */
module WorkoutModel {

  /** A catalog entry. Only `caloriesBurn` and `kind` (the source's `type`)
      take part in scoring. */
  datatype Workout = Workout(id: int, name: string, kind: string, caloriesBurn: real)

  /** The user's current state handed to the scorer. */
  datatype Features = Features(remainingCalories: real, weightDelta: real)

  const Cardio := "cardio"
  const Strength := "strength"

  /** Workouts burning more than this many calories count as intense. */
  const IntensityThreshold: real := 200.0

  /** Feature weights of the final score. */
  const CalorieWeight: real := 0.5
  const GoalWeight: real := 0.3
  const IntensityWeight: real := 0.2

  /** The user is above target weight and the workout is cardio. */
  predicate FavoursCardio(w: Workout, f: Features) {
    f.weightDelta > 0.0 && w.kind == Cardio
  }

  /** The user is below target weight and the workout is strength training. */
  predicate FavoursStrength(w: Workout, f: Features) {
    f.weightDelta < 0.0 && w.kind == Strength
  }

  /** Feature 1: burn over the remaining budget. The source does not guard
      the division, so the score exists only for a nonzero budget. */
  function CalorieScore(w: Workout, f: Features): (r: real)
    requires f.remainingCalories != 0.0
    ensures r * f.remainingCalories == w.caloriesBurn
    ensures f.remainingCalories > 0.0 && w.caloriesBurn >= 0.0 ==> r >= 0.0
  {
    w.caloriesBurn / f.remainingCalories
  }

  /** Feature 2: goal match. Starts at 0 and either of two conditions sets it
      to 1; the second assignment is applied after the first, as in the source. */
  function GoalScore(w: Workout, f: Features): (r: real)
    ensures r == 0.0 || r == 1.0
    ensures r == 1.0 <==> FavoursCardio(w, f) || FavoursStrength(w, f)
  {
    var afterCardio := if FavoursCardio(w, f) then 1.0 else 0.0;
    if FavoursStrength(w, f) then 1.0 else afterCardio
  }

  /** Feature 3: intensity step at the (strict) threshold. */
  function IntensityScore(w: Workout): (r: real)
    ensures r == 1.0 || r == 0.5
    ensures r == 1.0 <==> w.caloriesBurn > IntensityThreshold
  {
    if w.caloriesBurn > IntensityThreshold then 1.0 else 0.5
  }

  /** The part of the score that does not depend on the calorie budget. */
  function FixedPart(w: Workout, f: Features): (r: real)
    ensures r == 0.1 || r == 0.2 || r == 0.4 || r == 0.5
  {
    GoalWeight * GoalScore(w, f) + IntensityWeight * IntensityScore(w)
  }

  /** The final score: the weighted sum of the three features. */
  function ScoreWorkout(w: Workout, f: Features): (r: real)
    requires f.remainingCalories != 0.0
    ensures (r - FixedPart(w, f)) * f.remainingCalories == CalorieWeight * w.caloriesBurn
    ensures f.remainingCalories > 0.0 && w.caloriesBurn >= 0.0 ==> r >= 0.1
    ensures r <= CalorieWeight * CalorieScore(w, f) + 0.5
  {
    CalorieWeight * CalorieScore(w, f) + GoalWeight * GoalScore(w, f) + IntensityWeight * IntensityScore(w)
  }

  /** The two goal conditions never hold together, so the second `if` of the
      source never overrides the first with a different value. */
  lemma GoalConditionsExclusive(w: Workout, f: Features)
    ensures !(FavoursCardio(w, f) && FavoursStrength(w, f))
  {
  }

  /** A user exactly at target weight gets no goal bonus for any workout. */
  lemma NoGoalAtTarget(w: Workout, f: Features)
    requires f.weightDelta == 0.0
    ensures GoalScore(w, f) == 0.0
  {
  }

  /** The intensity comparison is strict: exactly 200 calories is not intense. */
  lemma IntensityBoundary(w: Workout)
    requires w.caloriesBurn == IntensityThreshold
    ensures IntensityScore(w) == 0.5
  {
  }

  /** The score reads only the burn and type of the workout: id and name are
      irrelevant. */
  lemma ScoreIgnoresIdAndName(w1: Workout, w2: Workout, f: Features)
    requires f.remainingCalories != 0.0
    requires w1.caloriesBurn == w2.caloriesBurn && w1.kind == w2.kind
    ensures ScoreWorkout(w1, f) == ScoreWorkout(w2, f)
  {
  }

  /** Matching the goal is worth exactly 0.3 over not matching it, all else
      being equal. */
  lemma GoalMatchBonus(matching: Workout, other: Workout, f: Features)
    requires f.remainingCalories != 0.0
    requires matching.caloriesBurn == other.caloriesBurn
    requires FavoursCardio(matching, f) || FavoursStrength(matching, f)
    requires !FavoursCardio(other, f) && !FavoursStrength(other, f)
    ensures ScoreWorkout(matching, f) == ScoreWorkout(other, f) + 0.3
  {
  }

  /** With a positive budget, of two workouts of the same type the one that
      burns more scores strictly higher: the calorie ratio grows and the
      intensity step never falls. */
  lemma ScoreIncreasesWithBurn(w1: Workout, w2: Workout, f: Features)
    requires f.remainingCalories > 0.0
    requires w1.kind == w2.kind
    requires w1.caloriesBurn < w2.caloriesBurn
    ensures ScoreWorkout(w1, f) < ScoreWorkout(w2, f)
  {
    var c1, c2 := CalorieScore(w1, f), CalorieScore(w2, f);
    assert c1 < c2 by {
      if c2 <= c1 {
        MulMonotone(c2, c1, f.remainingCalories);
      }
    }
    assert IntensityScore(w1) <= IntensityScore(w2);
    assert GoalScore(w1, f) == GoalScore(w2, f);
  }

  /** Multiplying by a positive factor keeps the order. */
  lemma MulMonotone(a: real, b: real, k: real)
    requires a <= b && k > 0.0
    ensures a * k <= b * k
  {
  }

  /** With 500 calories left and 5 kg above target, a 300-calorie cardio
      workout scores 0.8 and a 100-calorie strength workout scores 0.2. */
  lemma WorkedExample()
    ensures ScoreWorkout(Workout(1, "Running", Cardio, 300.0), Features(500.0, 5.0)) == 0.8
    ensures ScoreWorkout(Workout(2, "Curls", Strength, 100.0), Features(500.0, 5.0)) == 0.2
  {
  }
}
