/**
 * The workout runner (src/components/WorkoutRunner.tsx): experience for a
 * logged set, an exercise and a session, the level-up step, the statistics
 * update, the rest timer and the set log of the running workout.
 *
 * Reps and weight come from `parseInt`, so every quantity below is an integer
 * and `Math.floor(w * r * 0.02)` is the floor division `(w * r) / 50`.
 */
module Workout {
  import opened Records
  import opened Leveling

  /** An entry of the `exercises` catalogue, reduced to what the runner uses. */
  datatype Exercise = Exercise(id: string, name: string)

  /** A set logged in the running workout. */
  datatype WorkoutSet = WorkoutSet(reps: int, weight: int, rpe: Option<int>, completed: bool)

  /** One exercise of the running workout with the sets logged so far. */
  datatype WorkoutExercise = WorkoutExercise(
    exercise: Exercise,
    sets: seq<WorkoutSet>,
    targetSets: int,
    targetReps: string)

  function Max0(x: int): int { if x < 0 then 0 else x }

  // ---------------------------------------------------------------------------
  // Experience for one set (the popup shown when a set is added)
  // ---------------------------------------------------------------------------

  /** `rpe ? Math.max(0, rpe - 6) * 5 : 0`: an RPE of 0 or none earns nothing. */
  function RpeBonus(rpe: Option<int>): int
  {
    match rpe
    case None => 0
    case Some(v) => if v != 0 then Max0(v - 6) * 5 else 0
  }

  /** `Math.floor(weight * reps * 0.02) + bonus`. */
  function SetXp(reps: int, weight: int, rpe: Option<int>): int
  {
    (weight * reps) / 50 + RpeBonus(rpe)
  }

  lemma MulMonotone(a: int, b: int, c: int, d: int)
    requires 0 <= a <= c && 0 <= b <= d
    ensures 0 <= a * b <= c * d
  {
    assert a * b <= a * d by { assert a * d - a * b == a * (d - b); }
    assert a * d <= c * d by { assert c * d - a * d == (c - a) * d; }
  }

  lemma DivMonotone(x: int, y: int)
    requires x <= y
    ensures x / 50 <= y / 50
  {
  }

  /** Set experience is never negative for non-negative reps and weight. */
  lemma SetXpNonNegative(reps: int, weight: int, rpe: Option<int>)
    requires reps >= 0 && weight >= 0
    ensures SetXp(reps, weight, rpe) >= 0
  {
    MulMonotone(0, 0, weight, reps);
  }

  /** More reps or more weight never earn less. */
  lemma SetXpMonotone(reps: int, weight: int, reps': int, weight': int, rpe: Option<int>)
    requires 0 <= reps <= reps' && 0 <= weight <= weight'
    ensures SetXp(reps, weight, rpe) <= SetXp(reps', weight', rpe)
  {
    MulMonotone(weight, reps, weight', reps');
    DivMonotone(weight * reps, weight' * reps');
  }

  /** A set of 10 reps at 20 kg and RPE 8 shows +14 XP. */
  lemma SetXpExample()
    ensures SetXp(10, 20, Some(8)) == 14
  {
  }

  // ---------------------------------------------------------------------------
  // Experience for an exercise and a session (finishWorkout)
  // ---------------------------------------------------------------------------

  /** `set.rpe || 0`. */
  function RpeOrZero(s: WorkoutSet): int
  {
    match s.rpe
    case None => 0
    case Some(v) => v
  }

  /** `sets.reduce((sum, set) => sum + set.weight * set.reps, 0)`. */
  function Volume(sets: seq<WorkoutSet>): int
  {
    if sets == [] then 0
    else Volume(sets[..|sets| - 1]) + sets[|sets| - 1].weight * sets[|sets| - 1].reps
  }

  /** `sets.reduce((sum, set) => sum + (set.rpe || 0), 0)`. */
  function RpeSum(sets: seq<WorkoutSet>): int
  {
    if sets == [] then 0
    else RpeSum(sets[..|sets| - 1]) + RpeOrZero(sets[|sets| - 1])
  }

  /**
   * Exercise experience over integers: the floor of the volume over 50 plus
   * 5 * max(0, sum of RPE - 6 n), which is max(0, mean RPE - 6) * 5 * n for
   * n > 0 sets. With no sets the bonus is 0 (the app divides 0 by 0 here,
   * see ExerciseXpAsWritten).
   */
  function ExerciseXp(sets: seq<WorkoutSet>): int
  {
    Volume(sets) / 50 + (if |sets| == 0 then 0 else 5 * Max0(RpeSum(sets) - 6 * |sets|))
  }

  /** Sum of the exercise experience of every exercise. */
  function ExercisesXp(workout: seq<WorkoutExercise>): int
  {
    if workout == [] then 0
    else ExercisesXp(workout[..|workout| - 1]) + ExerciseXp(workout[|workout| - 1].sets)
  }

  const SessionBonus: int := 25

  /** Experience for a finished workout: every exercise's experience and the session bonus. */
  function SessionXp(workout: seq<WorkoutExercise>): int
  {
    ExercisesXp(workout) + SessionBonus
  }

  lemma {:induction false} VolumeNonNegative(sets: seq<WorkoutSet>)
    requires forall k :: 0 <= k < |sets| ==> sets[k].reps >= 0 && sets[k].weight >= 0
    ensures Volume(sets) >= 0
  {
    if sets != [] {
      VolumeNonNegative(sets[..|sets| - 1]);
      MulMonotone(0, 0, sets[|sets| - 1].weight, sets[|sets| - 1].reps);
    }
  }

  predicate NonNegativeSets(workout: seq<WorkoutExercise>)
  {
    forall i, k :: 0 <= i < |workout| && 0 <= k < |workout[i].sets| ==>
      workout[i].sets[k].reps >= 0 && workout[i].sets[k].weight >= 0
  }

  /** With non-negative reps and weights a session earns at least the bonus of 25. */
  lemma {:induction false} SessionXpAtLeastBonus(workout: seq<WorkoutExercise>)
    requires NonNegativeSets(workout)
    ensures ExercisesXp(workout) >= 0
    ensures SessionXp(workout) >= SessionBonus
  {
    if workout != [] {
      var last := workout[|workout| - 1];
      SessionXpAtLeastBonus(workout[..|workout| - 1]);
      VolumeNonNegative(last.sets) by {
        assert forall k :: 0 <= k < |last.sets| ==> last.sets[k] == workout[|workout| - 1].sets[k];
      }
    }
  }

  /** A workout in which no exercise has a set earns exactly the session bonus. */
  lemma {:induction false} NoSetsEarnsBonusOnly(workout: seq<WorkoutExercise>)
    requires forall i :: 0 <= i < |workout| ==> workout[i].sets == []
    ensures SessionXp(workout) == 25
  {
    if workout != [] {
      NoSetsEarnsBonusOnly(workout[..|workout| - 1]);
    }
  }

  /** Three sets of 10 reps at 20 kg and RPE 8 give 42 for the exercise and 67 for the session. */
  lemma SessionXpExample()
    ensures var s := WorkoutSet(10, 20, Some(8), true);
            var we := WorkoutExercise(Exercise("squat", "Squat"), [s, s, s], 3, "8-12");
            ExerciseXp([s, s, s]) == 42 && SessionXp([we]) == 67
  {
    var s := WorkoutSet(10, 20, Some(8), true);
    var we := WorkoutExercise(Exercise("squat", "Squat"), [s, s, s], 3, "8-12");
    assert [s, s, s][..2] == [s, s] && [s, s][..1] == [s] && [s][..0] == [];
    assert Volume([s]) == 200 && RpeSum([s]) == 8;
    assert Volume([s, s]) == 400 && RpeSum([s, s]) == 16;
    assert Volume([s, s, s]) == 600 && RpeSum([s, s, s]) == 24;
    assert [we][..0] == [];
  }

  /** Sum of the popup experience of the sets. */
  function SetsXp(sets: seq<WorkoutSet>): int
  {
    if sets == [] then 0
    else SetsXp(sets[..|sets| - 1]) + SetXp(sets[|sets| - 1].reps, sets[|sets| - 1].weight, sets[|sets| - 1].rpe)
  }

  predicate HardSets(sets: seq<WorkoutSet>)
  {
    forall k :: 0 <= k < |sets| ==>
      sets[k].reps >= 0 && sets[k].weight >= 0 && sets[k].rpe.Some? && sets[k].rpe.value >= 6
  }

  lemma {:induction false} HardSetsBreakdown(sets: seq<WorkoutSet>)
    requires HardSets(sets)
    ensures SetsXp(sets) <= Volume(sets) / 50 + 5 * (RpeSum(sets) - 6 * |sets|)
    ensures RpeSum(sets) >= 6 * |sets|
  {
    if sets != [] {
      var init := sets[..|sets| - 1];
      var last := sets[|sets| - 1];
      assert HardSets(init) by {
        assert forall k :: 0 <= k < |init| ==> init[k] == sets[k];
      }
      HardSetsBreakdown(init);
      MulMonotone(0, 0, last.weight, last.reps);
      VolumeNonNegative(init) by {
        assert forall k :: 0 <= k < |init| ==> init[k] == sets[k];
      }
    }
  }

  /**
   * When every set carries an RPE of at least 6, the popups shown while
   * logging never add up to more than the exercise earns at the end: the
   * RPE bonuses agree and the floor of a sum is at least the sum of floors.
   */
  lemma PopupsNeverExceedExercise(sets: seq<WorkoutSet>)
    requires HardSets(sets)
    ensures SetsXp(sets) <= ExerciseXp(sets)
  {
    HardSetsBreakdown(sets);
  }

  // ---------------------------------------------------------------------------
  // Exercise experience as the app writes it, with JavaScript's NaN
  // ---------------------------------------------------------------------------

  /** A JavaScript number restricted to exact rationals and NaN. */
  datatype JsNumber = Num(v: real) | NaN

  /** `a + b`: NaN is absorbing. */
  function JsAdd(a: JsNumber, b: JsNumber): JsNumber
  {
    if a.NaN? || b.NaN? then NaN else Num(a.v + b.v)
  }

  function MaxReal0(x: real): real { if x < 0.0 then 0.0 else x }

  /**
   * Lines 93-97 literally: `avgRpe` is the rational mean, and an exercise
   * without sets computes 0 / 0, which is NaN, and so is everything after it.
   */
  function ExerciseXpAsWritten(sets: seq<WorkoutSet>): (r: JsNumber)
    ensures r.NaN? <==> sets == []
  {
    var baseXp := ((Volume(sets) as real) * 0.02).Floor as real;
    if |sets| == 0 then NaN
    else
      var avgRpe := (RpeSum(sets) as real) / (|sets| as real);
      var intensityBonus := MaxReal0(avgRpe - 6.0) * 5.0 * (|sets| as real);
      Num(baseXp + intensityBonus)
  }

  /** `totalXp += exerciseXp` over the plan, then the session bonus. */
  function SessionXpAsWritten(workout: seq<WorkoutExercise>): JsNumber
  {
    JsAdd(ExercisesXpAsWritten(workout), Num(25.0))
  }

  function ExercisesXpAsWritten(workout: seq<WorkoutExercise>): JsNumber
  {
    if workout == [] then Num(0.0)
    else JsAdd(ExercisesXpAsWritten(workout[..|workout| - 1]), ExerciseXpAsWritten(workout[|workout| - 1].sets))
  }

  lemma FloorFiftieth(v: int)
    ensures ((v as real) * 0.02).Floor == v / 50
  {
    var q, m := v / 50, v % 50;
    assert v == 50 * q + m && 0 <= m < 50;
    assert (v as real) * 0.02 == (q as real) + (m as real) / 50.0;
  }

  lemma MeanBonus(total: int, n: int)
    requires n >= 1
    ensures MaxReal0((total as real) / (n as real) - 6.0) * 5.0 * (n as real)
         == (5 * Max0(total - 6 * n)) as real
  {
    var avg := (total as real) / (n as real);
    assert avg * (n as real) == total as real;
    assert (avg - 6.0) * (n as real) == (total - 6 * n) as real;
    RealSign(avg - 6.0, n as real);
  }

  lemma RealSign(x: real, n: real)
    requires n > 0.0
    ensures x < 0.0 <==> x * n < 0.0
  {
    if x < 0.0 {
      assert (-x) * n > 0.0;
    } else {
      assert x * n >= 0.0;
    }
  }

  /** For an exercise with sets, the integer formula equals the written one read in exact arithmetic. */
  lemma ExerciseXpMatchesAsWritten(sets: seq<WorkoutSet>)
    requires sets != []
    ensures ExerciseXpAsWritten(sets) == Num(ExerciseXp(sets) as real)
  {
    FloorFiftieth(Volume(sets));
    MeanBonus(RpeSum(sets), |sets|);
  }

  /** When every exercise has a set, the integer session total equals the written one read in exact arithmetic. */
  lemma {:induction false} SessionXpMatchesAsWritten(workout: seq<WorkoutExercise>)
    requires forall i :: 0 <= i < |workout| ==> workout[i].sets != []
    ensures ExercisesXpAsWritten(workout) == Num(ExercisesXp(workout) as real)
    ensures SessionXpAsWritten(workout) == Num(SessionXp(workout) as real)
  {
    if workout != [] {
      SessionXpMatchesAsWritten(workout[..|workout| - 1]);
      ExerciseXpMatchesAsWritten(workout[|workout| - 1].sets);
    }
  }

  /** One exercise without sets turns the whole session's xp into NaN. */
  lemma {:induction false} EmptyExerciseMakesSessionNaN(workout: seq<WorkoutExercise>, i: nat)
    requires i < |workout| && workout[i].sets == []
    ensures ExercisesXpAsWritten(workout) == NaN
    ensures SessionXpAsWritten(workout) == NaN
  {
    if i < |workout| - 1 {
      EmptyExerciseMakesSessionNaN(workout[..|workout| - 1], i);
    }
  }

  /**
   * Finishing right after the plan loads, or before every planned exercise
   * has a set, records NaN in the app; the corrected total is the bonus of 25.
   */
  lemma FreshPlanFinishesWithNaN(exercises: seq<Exercise>)
    requires exercises != []
    ensures SessionXpAsWritten(DefaultPlan(exercises)) == NaN
    ensures SessionXp(DefaultPlan(exercises)) == 25
  {
    EmptyExerciseMakesSessionNaN(DefaultPlan(exercises), 0);
    NoSetsEarnsBonusOnly(DefaultPlan(exercises));
  }

  // ---------------------------------------------------------------------------
  // The workout plan and the log record (loadExercises, finishWorkout)
  // ---------------------------------------------------------------------------

  /** `data.slice(0, 4).map(...)`: the first four exercises, no sets yet, 3 x 8-12. */
  function DefaultPlan(exercises: seq<Exercise>): (plan: seq<WorkoutExercise>)
    ensures |plan| == if |exercises| < 4 then |exercises| else 4
    ensures forall i :: 0 <= i < |plan| ==>
      plan[i] == WorkoutExercise(exercises[i], [], 3, "8-12")
  {
    var n := if |exercises| < 4 then |exercises| else 4;
    seq(n, i requires 0 <= i < n => WorkoutExercise(exercises[i], [], 3, "8-12"))
  }

  /** The stored form of a set: `completed` is dropped. */
  function LoggedSets(sets: seq<WorkoutSet>): (r: seq<LoggedSet>)
    ensures |r| == |sets|
    ensures forall k :: 0 <= k < |sets| ==>
      r[k] == LoggedSet(sets[k].reps, sets[k].weight, sets[k].rpe)
  {
    seq(|sets|, k requires 0 <= k < |sets| => LoggedSet(sets[k].reps, sets[k].weight, sets[k].rpe))
  }

  /** The stored form of an exercise: its id, its name and its sets. */
  function ExerciseRecord(we: WorkoutExercise): LoggedExercise
  {
    LoggedExercise(we.exercise.id, Some(we.exercise.name), LoggedSets(we.sets))
  }

  // ---------------------------------------------------------------------------
  // The level-up step and the statistics update
  // ---------------------------------------------------------------------------

  /** The xp at which the next level starts. */
  function NextThreshold(user: UserProfile): nat
  {
    Threshold(user.level + 1)
  }

  /**
   * Adds the session's experience; when the new total reaches the next
   * threshold the level and the skill points each go up by one, and by one
   * only, however many thresholds the total passes.
   */
  function ApplyWorkoutXp(user: UserProfile, totalXp: int): (p: UserProfile)
    ensures p.xp == user.xp + totalXp
    ensures p.xp >= NextThreshold(user) ==>
      p.level == user.level + 1 && p.skillPoints == user.skillPoints + 1
    ensures p.xp < NextThreshold(user) ==>
      p.level == user.level && p.skillPoints == user.skillPoints
    ensures p.id == user.id && p.email == user.email && p.name == user.name && p.role == user.role
  {
    var newXp := user.xp + totalXp;
    if newXp >= Threshold(user.level + 1) then
      user.(xp := newXp, level := user.level + 1, skillPoints := user.skillPoints + 1)
    else
      user.(xp := newXp)
  }

  /** Level 1 or the xp has reached the start of the current level. */
  predicate LevelReached(p: UserProfile)
  {
    p.level <= 1 || p.xp >= Threshold(p.level)
  }

  /** The level matches the xp: started, and the next level not yet reached. */
  predicate LevelConsistent(p: UserProfile)
  {
    p.level >= 1 && LevelReached(p) && p.xp < NextThreshold(p)
  }

  /** A new account (level 1, no xp) is consistent. */
  lemma NewUserConsistent(id: string, email: string, name: Option<string>)
    ensures LevelConsistent(NewUserProfile(id, email, name))
  {
    FirstThresholds();
  }

  /** Earning xp never leaves the level above what the xp has reached. */
  lemma ApplyKeepsLevelReached(user: UserProfile, totalXp: int)
    requires LevelReached(user) && totalXp >= 0
    ensures LevelReached(ApplyWorkoutXp(user, totalXp))
  {
    var p := ApplyWorkoutXp(user, totalXp);
    if p.xp >= NextThreshold(user) {
      assert p.level == user.level + 1 && p.xp >= Threshold(p.level);
    } else {
      assert p.level == user.level && p.xp >= user.xp;
    }
  }

  /** A session that stays below the threshold after next keeps the level consistent. */
  lemma ApplyKeepsConsistent(user: UserProfile, totalXp: int)
    requires LevelConsistent(user) && totalXp >= 0
    requires user.xp + totalXp < Threshold(user.level + 2)
    ensures LevelConsistent(ApplyWorkoutXp(user, totalXp))
  {
    var p := ApplyWorkoutXp(user, totalXp);
    var next := NextThreshold(user);
    if p.xp >= next {
      assert p.level == user.level + 1;
      assert Threshold(p.level) == next && NextThreshold(p) == Threshold(user.level + 2);
      assert LevelReached(p);
    } else {
      assert p.level == user.level && p.xp >= user.xp;
      assert NextThreshold(p) == next;
      assert LevelReached(p);
    }
  }

  /**
   * One session never grants more than one level: a new account that earns
   * 10000 xp reaches level 2, although 10000 is past the start of level 3
   * too, so the stored level then lags its xp.
   */
  lemma OneLevelUpEvenAcrossSeveralThresholds(id: string, email: string, name: Option<string>)
    ensures var p := ApplyWorkoutXp(NewUserProfile(id, email, name), 10000);
            p.level == 2 && p.skillPoints == 1 && p.xp >= Threshold(3) && !LevelConsistent(p)
  {
    FirstThresholds();
  }

  /**
   * The `user_stats` update: one more session this week and in total, the
   * session's xp added, today's date stored, streaks and volume untouched.
   * Without a statistics row nothing is written.
   */
  function UpdateStats(stats: Option<UserStats>, totalXp: int, today: string): (r: Option<UserStats>)
    ensures r.None? <==> stats.None?
    ensures stats.Some? ==>
      var s, s' := stats.value, r.value;
      && s'.sessionsThisWeek == s.sessionsThisWeek + 1
      && s'.totalSessions == s.totalSessions + 1
      && s'.totalXpEarned == s.totalXpEarned + totalXp
      && s'.lastWorkoutDate == Some(today)
      && s'.currentStreak == s.currentStreak && s'.longestStreak == s.longestStreak
      && s'.weeklyVolumeKg == s.weeklyVolumeKg
  {
    match stats
    case None => None
    case Some(s) =>
      Some(s.(sessionsThisWeek := s.sessionsThisWeek + 1,
              totalSessions := s.totalSessions + 1,
              totalXpEarned := s.totalXpEarned + totalXp,
              lastWorkoutDate := Some(today)))
  }

  /** The update keeps a statistics row well formed. */
  lemma UpdateKeepsStatsValid(s: UserStats, totalXp: int, today: string)
    requires StatsValid(s) && totalXp >= 0
    ensures StatsValid(UpdateStats(Some(s), totalXp, today).value)
  {
  }

  // ---------------------------------------------------------------------------
  // The rest timer
  // ---------------------------------------------------------------------------

  /** Seconds left and whether the rest banner is shown. */
  datatype RestTimer = RestTimer(seconds: int, resting: bool)

  /** The interval is installed only while resting with time left. */
  predicate Running(t: RestTimer)
  {
    t.resting && t.seconds > 0
  }

  /** One second of the interval: at 1 or below the timer stops at 0, else it counts down. */
  function Tick(t: RestTimer): (r: RestTimer)
    ensures r.seconds == Max0(t.seconds - 1)
    ensures r.resting == (t.resting && t.seconds > 1)
  {
    if t.seconds <= 1 then RestTimer(0, false) else t.(seconds := t.seconds - 1)
  }

  /** k seconds of the interval, which stops itself once the timer does not run. */
  function Ticks(t: RestTimer, k: nat): RestTimer
    decreases k
  {
    if k == 0 || !Running(t) then t else Ticks(Tick(t), k - 1)
  }

  /** After a set, the rest runs for exactly n seconds and ends at 0, not resting. */
  lemma {:induction false} RestLastsItsSeconds(n: int, k: nat)
    requires n >= 1
    ensures k < n ==> Running(Ticks(RestTimer(n, true), k)) && Ticks(RestTimer(n, true), k).seconds == n - k
    ensures k >= n ==> Ticks(RestTimer(n, true), k) == RestTimer(0, false)
  {
    if k > 0 {
      if n == 1 {
        assert Ticks(RestTimer(0, false), k - 1) == RestTimer(0, false);
      } else {
        RestLastsItsSeconds(n - 1, k - 1);
      }
    }
  }

  // ---------------------------------------------------------------------------
  // The running workout
  // ---------------------------------------------------------------------------

  /** What finishing a workout produces for the persistence layer. */
  datatype FinishOutcome =
    | NotSignedIn
    | Finished(log: WorkoutLog, user: UserProfile, stats: Option<UserStats>, leveledUp: bool)

  /** The state of one WorkoutRunner screen after its exercises have loaded. */
  class WorkoutRunner {
    var workout: seq<WorkoutExercise>
    var timer: RestTimer

    constructor (exercises: seq<Exercise>)
      ensures workout == DefaultPlan(exercises)
      ensures timer == RestTimer(0, false)
    {
      workout := DefaultPlan(exercises);
      timer := RestTimer(0, false);
    }

    /**
     * Logs one completed set on the chosen exercise, returns the popup's xp
     * and starts a 90-second rest.
     */
    method AddSet(exerciseIndex: nat, reps: int, weight: int, rpe: Option<int>) returns (setXp: int)
      requires exerciseIndex < |workout|
      modifies this
      ensures |workout| == |old(workout)|
      ensures workout[exerciseIndex] == old(workout)[exerciseIndex].(
        sets := old(workout)[exerciseIndex].sets + [WorkoutSet(reps, weight, rpe, true)])
      ensures forall j :: 0 <= j < |workout| && j != exerciseIndex ==> workout[j] == old(workout)[j]
      ensures timer == RestTimer(90, true)
      ensures setXp == SetXp(reps, weight, rpe)
    {
      var we := workout[exerciseIndex];
      workout := workout[exerciseIndex := we.(sets := we.sets + [WorkoutSet(reps, weight, rpe, true)])];
      setXp := (weight * reps) / 50 + (match rpe case Some(v) => if v != 0 then Max0(v - 6) * 5 else 0 case None => 0);
      timer := RestTimer(90, true);
    }

    /** One second of the rest interval, which only runs while the timer runs. */
    method TimerTick()
      modifies this
      ensures workout == old(workout)
      ensures timer == if Running(old(timer)) then Tick(old(timer)) else old(timer)
      ensures timer.seconds >= 0 || timer == old(timer)
    {
      if timer.resting && timer.seconds > 0 {
        if timer.seconds <= 1 {
          timer := RestTimer(0, false);
        } else {
          timer := timer.(seconds := timer.seconds - 1);
        }
      }
    }

    /**
     * The `workout.map` of `finishWorkout`: adds up each exercise's experience
     * and builds the stored record of every exercise, in order.
     */
    method TotalExercises() returns (totalXp: int, exercisesData: seq<LoggedExercise>)
      ensures totalXp == ExercisesXp(workout)
      ensures |exercisesData| == |workout|
      ensures forall k :: 0 <= k < |workout| ==> exercisesData[k] == ExerciseRecord(workout[k])
    {
      totalXp := 0;
      exercisesData := [];
      for i := 0 to |workout|
        invariant totalXp == ExercisesXp(workout[..i])
        invariant |exercisesData| == i
        invariant forall k :: 0 <= k < i ==> exercisesData[k] == ExerciseRecord(workout[k])
      {
        var we := workout[i];
        var volume := Volume(we.sets);
        var baseXp := volume / 50;
        var n := |we.sets|;
        var intensityBonus := if n == 0 then 0 else 5 * Max0(RpeSum(we.sets) - 6 * n);
        totalXp := totalXp + baseXp + intensityBonus;
        exercisesData := exercisesData + [ExerciseRecord(we)];
        assert workout[..i + 1][..i] == workout[..i];
      }
      assert workout[..|workout|] == workout;
    }

    /**
     * `finishWorkout`: totals the experience exercise by exercise, builds the
     * log record, applies the level-up step and updates the statistics row.
     * Nothing happens without a signed-in user. The clock is read twice, once
     * for the log's date and once, after the profile is written, for the
     * statistics' last workout date, so the two dates are separate inputs.
     */
    method FinishWorkout(user: Option<UserProfile>, stats: Option<UserStats>, logDate: string, statsDate: string)
      returns (outcome: FinishOutcome)
      ensures user.None? <==> outcome.NotSignedIn?
      ensures user.Some? ==>
        && outcome.log.date == logDate
        && outcome.log.xpGained == SessionXp(workout)
        && |outcome.log.exercises| == |workout|
        && (forall i :: 0 <= i < |workout| ==> outcome.log.exercises[i] == ExerciseRecord(workout[i]))
        && outcome.user == ApplyWorkoutXp(user.value, SessionXp(workout))
        && outcome.stats == UpdateStats(stats, SessionXp(workout), statsDate)
        && outcome.leveledUp == (user.value.xp + SessionXp(workout) >= NextThreshold(user.value))
    {
      if user.None? {
        return NotSignedIn;
      }
      var u := user.value;
      var totalXp, exercisesData := TotalExercises();
      totalXp := totalXp + SessionBonus;
      var log := WorkoutLog(logDate, exercisesData, totalXp);
      var newXp := u.xp + totalXp;
      var newLevel := u.level;
      var newSkillPoints := u.skillPoints;
      var leveledUp := false;
      if newXp >= Threshold(u.level + 1) {
        newLevel := newLevel + 1;
        newSkillPoints := newSkillPoints + 1;
        leveledUp := true;
      }
      var newStats := None;
      if stats.Some? {
        var s := stats.value;
        newStats := Some(s.(sessionsThisWeek := s.sessionsThisWeek + 1,
                            totalSessions := s.totalSessions + 1,
                            totalXpEarned := s.totalXpEarned + totalXp,
                            lastWorkoutDate := Some(statsDate)));
      }
      outcome := Finished(log, u.(xp := newXp, level := newLevel, skillPoints := newSkillPoints),
                          newStats, leveledUp);
    }
  }

  /** The statistics' lifetime xp agrees with the profile's xp. */
  predicate XpLedgerAgrees(user: UserProfile, stats: UserStats)
  {
    stats.totalXpEarned == user.xp
  }

  /** A new account starts with agreeing counters. */
  lemma NewAccountLedgerAgrees(id: string, email: string, name: Option<string>)
    ensures XpLedgerAgrees(NewUserProfile(id, email, name), NewUserStats())
  {
  }

  /** Finishing a workout adds the same amount to the profile and the statistics. */
  lemma FinishKeepsLedger(user: UserProfile, stats: UserStats, totalXp: int, today: string)
    requires XpLedgerAgrees(user, stats)
    ensures XpLedgerAgrees(ApplyWorkoutXp(user, totalXp), UpdateStats(Some(stats), totalXp, today).value)
  {
  }
}
