/**
 * The character sheet (src/components/CharacterSheet.tsx): the role's icon
 * and description, four stat bars derived from the statistics row and the
 * profile, and four achievements.
 */
module CharacterSheet {
  import opened Records
  import Dashboard

  /** `getRoleIcon`: the role's emoji, a star for any other role. */
  function RoleIcon(role: string): (icon: string)
    ensures role == "Assassin" ==> icon == "\U{26A1}"
    ensures role == "Warden" ==> icon == "\U{1F6E1}\U{FE0F}"
    ensures role == "Arbiter" ==> icon == "\U{2696}\U{FE0F}"
    ensures role == "Shadowmancer" ==> icon == "\U{1F4AA}"
    ensures role !in {"Assassin", "Warden", "Arbiter", "Shadowmancer"} ==> icon == "\U{2B50}"
  {
    var icons := map["Assassin" := "\U{26A1}", "Warden" := "\U{1F6E1}\U{FE0F}",
                     "Arbiter" := "\U{2696}\U{FE0F}", "Shadowmancer" := "\U{1F4AA}"];
    if role in icons then icons[role] else "\U{2B50}"
  }

  /** The character sheet's icon and the dashboard's intended badge are the same for every role. */
  lemma IconMatchesBadge(role: string)
    ensures RoleIcon(role) == Dashboard.RoleBadge(role)
  {
  }

  const AssassinDescription := "Masters of speed and explosive power. High-intensity training with focus on conditioning and athleticism."
  const WardenDescription := "Titans of raw strength. Heavy compound movements and progressive overload for maximum power."
  const ArbiterDescription := "Balanced warriors seeking longevity. Sustainable training with emphasis on consistency and health."
  const ShadowmancerDescription := "Sculptors of aesthetics. High-volume hypertrophy work for maximum muscle development."
  const DefaultDescription := "A dedicated hunter on the path to greatness."

  /** `getRoleDescription`: the role's blurb, the default line for any other role. */
  function RoleDescription(role: string): (d: string)
    ensures role == "Assassin" ==> d == AssassinDescription
    ensures role == "Warden" ==> d == WardenDescription
    ensures role == "Arbiter" ==> d == ArbiterDescription
    ensures role == "Shadowmancer" ==> d == ShadowmancerDescription
    ensures role !in {"Assassin", "Warden", "Arbiter", "Shadowmancer"} ==> d == DefaultDescription
    ensures |d| > 0
  {
    if role == "Assassin" then AssassinDescription
    else if role == "Warden" then WardenDescription
    else if role == "Arbiter" then ArbiterDescription
    else if role == "Shadowmancer" then ShadowmancerDescription
    else DefaultDescription
  }

  /** A role-less profile (`user?.role || ''`) shows the star and the default line. */
  lemma NoRoleShowsDefaults()
    ensures RoleIcon("") == "\U{2B50}" && RoleDescription("") == DefaultDescription
  {
    var none: string := "";
    assert |none| == 0;
    assert none !in {"Assassin", "Warden", "Arbiter", "Shadowmancer"};
  }

  function MinReal(a: real, b: real): real
  {
    if a <= b then a else b
  }

  /** One bar of the sheet: its label and its value out of 100. */
  datatype CharacterStat = CharacterStat(name: string, value: real)

  /** `Math.min(100, count * factor)`. */
  function Capped(count: int, factor: nat): (v: real)
    ensures v <= 100.0
    ensures count >= 0 ==> v >= 0.0
    ensures factor > 0 && count * factor >= 100 ==> v == 100.0
    ensures count * factor <= 100 ==> v == (count * factor) as real
  {
    MinReal(100.0, (count * factor) as real)
  }

  /** Strength: five points per session, full at 20 sessions. */
  function Strength(stats: Option<UserStats>): real
  {
    Capped(TotalSessionsOf(stats), 5)
  }

  /** Endurance: ten points per day of the current streak. */
  function Endurance(stats: Option<UserStats>): real
  {
    Capped(CurrentStreakOf(stats), 10)
  }

  /** Consistency: twenty points per session this week. */
  function Consistency(stats: Option<UserStats>): real
  {
    Capped(SessionsThisWeekOf(stats), 20)
  }

  /** Growth: `(xp / 100) * 10` read exactly, so a tenth of the xp, at most 100. */
  function Growth(user: Option<UserProfile>): real
  {
    MinReal(100.0, ((XpOf(user) as real) / 100.0) * 10.0)
  }

  /** The four bars in the order the sheet lists them. */
  function CharacterStats(user: Option<UserProfile>, stats: Option<UserStats>): (bars: seq<CharacterStat>)
    ensures |bars| == 4
    ensures bars[0] == CharacterStat("Strength", Strength(stats))
    ensures bars[1] == CharacterStat("Endurance", Endurance(stats))
    ensures bars[2] == CharacterStat("Consistency", Consistency(stats))
    ensures bars[3] == CharacterStat("Growth", Growth(user))
  {
    [CharacterStat("Strength", Strength(stats)),
     CharacterStat("Endurance", Endurance(stats)),
     CharacterStat("Consistency", Consistency(stats)),
     CharacterStat("Growth", Growth(user))]
  }

  /** With non-negative counters every bar lies in [0, 100]. */
  lemma BarsWithinRange(user: Option<UserProfile>, stats: Option<UserStats>)
    requires stats.Some? ==> StatsValid(stats.value)
    requires user.Some? ==> user.value.xp >= 0
    ensures forall k :: 0 <= k < 4 ==> 0.0 <= CharacterStats(user, stats)[k].value <= 100.0
  {
    var bars := CharacterStats(user, stats);
    assert bars[3].value == Growth(user);
  }

  /** Growth grows one point per ten xp and is full from 1000 xp on. */
  lemma GrowthScale(user: Option<UserProfile>)
    ensures XpOf(user) <= 1000 ==> Growth(user) == (XpOf(user) as real) / 10.0
    ensures XpOf(user) >= 1000 ==> Growth(user) == 100.0
  {
  }

  /** Strength is full from 20 sessions on and is exactly five per session below that. */
  lemma StrengthSaturates(stats: Option<UserStats>)
    ensures TotalSessionsOf(stats) >= 20 ==> Strength(stats) == 100.0
    ensures TotalSessionsOf(stats) <= 20 ==> Strength(stats) == (5 * TotalSessionsOf(stats)) as real
  {
  }

  /** A missing statistics row and a missing profile show every bar empty. */
  lemma MissingRowsShowEmptyBars()
    ensures forall k :: 0 <= k < 4 ==> CharacterStats(None, None)[k].value == 0.0
  {
  }

  /** The rows created for a new account show every bar empty too. */
  lemma NewAccountShowsEmptyBars(id: string, email: string, name: Option<string>)
    ensures forall k :: 0 <= k < 4 ==>
      CharacterStats(Some(NewUserProfile(id, email, name)), Some(NewUserStats()))[k].value == 0.0
  {
  }

  /** One tile of the achievements grid. */
  datatype Achievement = Achievement(name: string, icon: string, unlocked: bool)

  /** The four achievements in the order the grid lists them. */
  function Achievements(user: Option<UserProfile>, stats: Option<UserStats>): (tiles: seq<Achievement>)
    ensures |tiles| == 4
    ensures tiles[0].name == "First Workout" && (tiles[0].unlocked <==> TotalSessionsOf(stats) >= 1)
    ensures tiles[1].name == "7 Day Streak" && (tiles[1].unlocked <==> CurrentStreakOf(stats) >= 7)
    ensures tiles[2].name == "Level 5" && (tiles[2].unlocked <==> LevelOf(user) >= 5)
    ensures tiles[3].name == "50 Sessions" && (tiles[3].unlocked <==> TotalSessionsOf(stats) >= 50)
  {
    [Achievement("First Workout", "\U{1F3AF}", TotalSessionsOf(stats) >= 1),
     Achievement("7 Day Streak", "\U{1F525}", CurrentStreakOf(stats) >= 7),
     Achievement("Level 5", "\U{2B50}", LevelOf(user) >= 5),
     Achievement("50 Sessions", "\U{1F4AA}", TotalSessionsOf(stats) >= 50)]
  }

  /** Higher counters never lock an achievement that lower counters unlocked. */
  lemma AchievementsMonotone(u0: Option<UserProfile>, s0: Option<UserStats>,
                             u: Option<UserProfile>, s: Option<UserStats>, k: nat)
    requires k < 4
    requires TotalSessionsOf(s0) <= TotalSessionsOf(s)
    requires CurrentStreakOf(s0) <= CurrentStreakOf(s)
    requires LevelOf(u0) <= LevelOf(u)
    requires Achievements(u0, s0)[k].unlocked
    ensures Achievements(u, s)[k].unlocked
  {
  }

  /** Fifty sessions imply the first workout; the grid never shows the later tile alone. */
  lemma FiftySessionsImpliesFirst(user: Option<UserProfile>, stats: Option<UserStats>)
    requires Achievements(user, stats)[3].unlocked
    ensures Achievements(user, stats)[0].unlocked
  {
  }

  /** A new account has nothing unlocked; a missing profile or row counts as zero. */
  lemma NewAccountHasNoAchievements(id: string, email: string, name: Option<string>)
    ensures forall k :: 0 <= k < 4 ==>
      !Achievements(Some(NewUserProfile(id, email, name)), Some(NewUserStats()))[k].unlocked
  {
  }
}
