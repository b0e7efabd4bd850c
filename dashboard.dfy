/**
 * Display derivations of the dashboard (src/components/Dashboard.tsx): the
 * progress bar towards the next level and the role badge.
 */
module Dashboard {
  import opened Records
  import opened Leveling

  function Clamp100(x: real): (r: real)
    ensures 0.0 <= r <= 100.0
  {
    if x < 0.0 then 0.0 else if x > 100.0 then 100.0 else x
  }

  /**
   * The bar's value for xp between thresholds `current < next`: the share of
   * the band covered, in percent, clamped to [0, 100].
   */
  function BandPercent(xp: int, current: int, next: int): (p: real)
    requires current < next
    ensures 0.0 <= p <= 100.0
  {
    Clamp100(((xp - current) as real / (next - current) as real) * 100.0)
  }

  /** `calculateLevelProgress`: the bar between the current level's threshold and the next one. */
  function LevelProgress(level: nat, xp: int): (p: real)
    ensures 0.0 <= p <= 100.0
  {
    ThresholdStep(level);
    BandPercent(xp, Threshold(level), Threshold(level + 1))
  }

  /** Without a user the bar keeps its initial value 0. */
  function ProgressFor(user: Option<UserProfile>): (p: real)
    ensures user.None? ==> p == 0.0
  {
    if user.None? then 0.0 else LevelProgress(user.value.level, user.value.xp)
  }

  lemma ProductSign(q: real, d: real)
    requires d > 0.0
    ensures q < 0.0 ==> q * d < 0.0
    ensures q > 0.0 ==> q * d > 0.0
  {
  }

  lemma QuotientBounds(a: real, d: real)
    requires d > 0.0
    ensures a <= 0.0 ==> a / d <= 0.0
    ensures a >= 0.0 ==> a / d >= 0.0
    ensures a >= d ==> a / d >= 1.0
    ensures a <= d ==> a / d <= 1.0
  {
    var q := a / d;
    assert q * d == a;
    ProductSign(q, d);
    if a >= d && q < 1.0 {
      ProductSign(q - 1.0, d);
    }
    if a <= d && q > 1.0 {
      ProductSign(q - 1.0, d);
    }
  }

  lemma QuotientMonotone(a: real, b: real, d: real)
    requires d > 0.0 && a <= b
    ensures a / d <= b / d
  {
    var q1, q2 := a / d, b / d;
    assert q1 * d == a && q2 * d == b;
    ProductSign(q2 - q1, d);
    assert (q2 - q1) * d == b - a;
  }

  lemma BandInside(xp: int, current: int, next: int)
    requires current <= xp <= next && current < next
    ensures BandPercent(xp, current, next) == ((xp - current) as real / (next - current) as real) * 100.0
  {
    QuotientBounds((xp - current) as real, (next - current) as real);
  }

  lemma BandBelow(xp: int, current: int, next: int)
    requires xp <= current < next
    ensures BandPercent(xp, current, next) == 0.0
  {
    QuotientBounds((xp - current) as real, (next - current) as real);
  }

  lemma BandAbove(xp: int, current: int, next: int)
    requires current < next <= xp
    ensures BandPercent(xp, current, next) == 100.0
  {
    QuotientBounds((xp - current) as real, (next - current) as real);
  }

  lemma BandMonotone(xp: int, xp': int, current: int, next: int)
    requires xp <= xp' && current < next
    ensures BandPercent(xp, current, next) <= BandPercent(xp', current, next)
  {
    QuotientMonotone((xp - current) as real, (xp' - current) as real, (next - current) as real);
  }

  /** The xp between a level's threshold and the next one: never zero, so the bar's division is defined. */
  function BandWidth(level: nat): (w: int)
    ensures w > 0 && w == Threshold(level + 1) - Threshold(level)
  {
    ThresholdStep(level);
    Threshold(level + 1) - Threshold(level)
  }

  /** Inside the band the bar is the exact percentage of the band covered. */
  lemma ProgressInBand(level: nat, xp: int)
    requires Threshold(level) <= xp <= Threshold(level + 1)
    ensures LevelProgress(level, xp)
         == ((xp - Threshold(level)) as real / BandWidth(level) as real) * 100.0
  {
    ghost var w := BandWidth(level);
    BandInside(xp, Threshold(level), Threshold(level + 1));
  }

  /** At or below the current threshold the bar is empty. */
  lemma ProgressEmptyBelow(level: nat, xp: int)
    requires xp <= Threshold(level)
    ensures LevelProgress(level, xp) == 0.0
  {
    ghost var w := BandWidth(level);
    BandBelow(xp, Threshold(level), Threshold(level + 1));
  }

  /** At or above the next threshold the bar is full. */
  lemma ProgressFullAbove(level: nat, xp: int)
    requires xp >= Threshold(level + 1)
    ensures LevelProgress(level, xp) == 100.0
  {
    ghost var w := BandWidth(level);
    BandAbove(xp, Threshold(level), Threshold(level + 1));
  }

  /** For a fixed level, more xp never shows less progress. */
  lemma ProgressMonotone(level: nat, xp: int, xp': int)
    requires xp <= xp'
    ensures LevelProgress(level, xp) <= LevelProgress(level, xp')
  {
    ghost var w := BandWidth(level);
    BandMonotone(xp, xp', Threshold(level), Threshold(level + 1));
  }

  /** A new account (level 1, no xp, threshold 100) shows an empty bar. */
  lemma NewUserShowsNoProgress(id: string, email: string, name: Option<string>)
    ensures ProgressFor(Some(NewUserProfile(id, email, name))) == 0.0
  {
    FirstThresholds();
    ProgressEmptyBelow(1, 0);
  }

  /** `Math.round(levelProgress)`, the label beside the bar, for a value in [0, 100]. */
  function ProgressLabel(p: real): (n: int)
    requires 0.0 <= p <= 100.0
    ensures 0 <= n <= 100
    ensures (n as real) - 0.5 <= p < (n as real) + 0.5
  {
    (p + 0.5).Floor
  }

  /**
   * `getRoleBadge` as the file spells it: each glyph is the UTF-8 encoding of
   * an emoji read back as Mac Roman text, so the badge shows accented
   * characters instead of the emoji. Unknown roles get the fallback string.
   */
  function RoleBadgeAsWritten(role: string): (b: string)
    ensures role == "Assassin" ==> b == "\U{201A}\U{00F6}\U{00B0}"
    ensures role == "Warden" ==> b == "\U{F8FF}\U{00FC}\U{00F5}\U{00B0}\U{00D4}\U{220F}\U{00E8}"
    ensures role == "Arbiter" ==> b == "\U{201A}\U{00F6}\U{00F1}\U{00D4}\U{220F}\U{00E8}"
    ensures role == "Shadowmancer" ==> b == "\U{F8FF}\U{00FC}\U{00ED}\U{2122}"
    ensures role !in {"Assassin", "Warden", "Arbiter", "Shadowmancer"} ==> b == "\U{201A}\U{2260}\U{00EA}"
  {
    var badges := map[
      "Assassin" := "\U{201A}\U{00F6}\U{00B0}",
      "Warden" := "\U{F8FF}\U{00FC}\U{00F5}\U{00B0}\U{00D4}\U{220F}\U{00E8}",
      "Arbiter" := "\U{201A}\U{00F6}\U{00F1}\U{00D4}\U{220F}\U{00E8}",
      "Shadowmancer" := "\U{F8FF}\U{00FC}\U{00ED}\U{2122}"];
    if role in badges then badges[role] else "\U{201A}\U{2260}\U{00EA}"
  }

  /**
   * The badge as intended: the emoji whose UTF-8 bytes the file's glyphs spell
   * (high voltage, shield, scales, flexed biceps; a star otherwise).
   */
  function RoleBadge(role: string): (b: string)
    ensures role == "Assassin" ==> b == "\U{26A1}"
    ensures role == "Warden" ==> b == "\U{1F6E1}\U{FE0F}"
    ensures role == "Arbiter" ==> b == "\U{2696}\U{FE0F}"
    ensures role == "Shadowmancer" ==> b == "\U{1F4AA}"
    ensures role !in {"Assassin", "Warden", "Arbiter", "Shadowmancer"} ==> b == "\U{2B50}"
  {
    var badges := map["Assassin" := "\U{26A1}", "Warden" := "\U{1F6E1}\U{FE0F}",
                      "Arbiter" := "\U{2696}\U{FE0F}", "Shadowmancer" := "\U{1F4AA}"];
    if role in badges then badges[role] else "\U{2B50}"
  }

  /** As written, no role's badge is the intended emoji, and the fallback is not the star either. */
  lemma BadgeAsWrittenIsNeverTheEmoji(role: string)
    ensures RoleBadgeAsWritten(role) != RoleBadge(role)
  {
    var w, b := RoleBadgeAsWritten(role), RoleBadge(role);
    assert w[0] != b[0];
  }
}
