/**
 * Records of the progression engine and the rows the app creates for a new
 * account (src/contexts/AuthContext.tsx, src/lib/supabase.ts).
 *
 * Numbers in the app are JavaScript doubles; reps, weight and RPE come
 * through parseInt, so they are integers. As an assumption, the model reads
 * every formula in exact arithmetic, with `int` for xp and counters and `real`
 * for display values. In doubles the intensity bonus of an exercise can carry
 * a rounding error that this reading does not show (see ExerciseXpAsWritten).
 */
module Records {

  datatype Option<+T> = None | Some(value: T)

  /** A row of the `users` table: only the fields the engine reads or writes. */
  datatype UserProfile = UserProfile(
    id: string,
    email: string,
    name: Option<string>,
    role: string,
    level: nat,
    xp: int,
    skillPoints: int)

  /** A row of the `user_stats` table. */
  datatype UserStats = UserStats(
    sessionsThisWeek: int,
    weeklyVolumeKg: int,
    currentStreak: int,
    longestStreak: int,
    totalSessions: int,
    totalXpEarned: int,
    lastWorkoutDate: Option<string>)

  /** One set as stored in a workout log (reps, weight, optional RPE). */
  datatype LoggedSet = LoggedSet(reps: int, weight: int, rpe: Option<int>)

  /** One exercise as stored in a workout log. */
  datatype LoggedExercise = LoggedExercise(
    exerciseId: string,
    exerciseName: Option<string>,
    sets: seq<LoggedSet>)

  /** A row of the `workout_logs` table. */
  datatype WorkoutLog = WorkoutLog(
    date: string,
    exercises: seq<LoggedExercise>,
    xpGained: int)

  /** The profile inserted on first sign-in: level 1, no xp, no skill points, role Assassin. */
  function NewUserProfile(id: string, email: string, name: Option<string>): (p: UserProfile)
    ensures p.id == id && p.email == email && p.name == name
    ensures p.role == "Assassin" && p.level == 1 && p.xp == 0 && p.skillPoints == 0
  {
    UserProfile(id, email, name, "Assassin", 1, 0, 0)
  }

  /** The statistics row inserted beside it: every counter 0, no workout date yet. */
  function NewUserStats(): (s: UserStats)
    ensures s.sessionsThisWeek == 0 && s.weeklyVolumeKg == 0
    ensures s.currentStreak == 0 && s.longestStreak == 0
    ensures s.totalSessions == 0 && s.totalXpEarned == 0
    ensures s.lastWorkoutDate == None
  {
    UserStats(0, 0, 0, 0, 0, 0, None)
  }

  /** The counters of a statistics row are never negative and the streaks are ordered. */
  predicate StatsValid(s: UserStats)
  {
    && s.sessionsThisWeek >= 0 && s.weeklyVolumeKg >= 0
    && 0 <= s.currentStreak <= s.longestStreak
    && s.totalSessions >= 0 && s.totalXpEarned >= 0
  }

  // The screens read possibly missing rows as `row?.field || 0`.

  function TotalSessionsOf(stats: Option<UserStats>): int
  {
    if stats.Some? then stats.value.totalSessions else 0
  }

  function CurrentStreakOf(stats: Option<UserStats>): int
  {
    if stats.Some? then stats.value.currentStreak else 0
  }

  function SessionsThisWeekOf(stats: Option<UserStats>): int
  {
    if stats.Some? then stats.value.sessionsThisWeek else 0
  }

  function LevelOf(user: Option<UserProfile>): int
  {
    if user.Some? then user.value.level else 0
  }

  function XpOf(user: Option<UserProfile>): int
  {
    if user.Some? then user.value.xp else 0
  }
}
