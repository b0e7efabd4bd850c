/**
 * The skill tree (src/components/SkillTree.tsx): the six-skill catalogue,
 * the eligibility chain evaluated for each skill, the unlocked flag read from
 * the user's unlock records, the three display states and the unlock action.
 */
module SkillTree {
  import opened Records

  /** A catalogue entry (the icon is kept as its emoji text). */
  datatype Skill = Skill(
    id: string,
    name: string,
    description: string,
    icon: string,
    criteria: string,
    role: Option<string>)

  /** `SKILLS`, in display order. */
  const Catalog: seq<Skill> := [
    Skill("blade_instinct", "Blade Instinct",
          "+5% XP on HIIT sessions. Unlocks Assassin Cloak cosmetic.", "\U{26A1}",
          "Complete 10 high-intensity sessions in 30 days", Some("Assassin")),
    Skill("iron_core", "Iron Core",
          "Unlock heavy program templates and Iron Aura cosmetic.", "\U{1F6E1}\U{FE0F}",
          "Complete 12 heavy compound sets in 6 weeks", Some("Warden")),
    Skill("second_wind", "Second Wind",
          "One-time revive to preserve streak.", "\U{2696}\U{FE0F}",
          "Maintain 90% adherence over 8 weeks", Some("Arbiter")),
    Skill("echo_shadows", "Echo of Shadows",
          "Unlock micro-program templates with XP bonus.", "\U{1F4AA}",
          "Accumulate 10,000 XP or complete 3 accessory dungeons", Some("Shadowmancer")),
    Skill("quick_recovery", "Quick Recovery",
          "Reduce rest timers by 25%.", "\U{23F1}\U{FE0F}",
          "Complete 25 workouts", None),
    Skill("xp_boost", "XP Multiplier",
          "+10% XP on all exercises.", "\U{2728}",
          "Reach Level 10", None)
  ]

  /** A row of `skill_unlocks` for the signed-in user. */
  datatype UnlockRecord = UnlockRecord(skillId: string, unlocked: bool, unlockedAt: Option<string>)

  // ---------------------------------------------------------------------------
  // Eligibility
  // ---------------------------------------------------------------------------

  /** The if/else chain of `loadSkills`; an id outside it is never met. */
  function CriteriaMet(skillId: string, user: Option<UserProfile>, stats: Option<UserStats>): bool
  {
    if skillId == "quick_recovery" then TotalSessionsOf(stats) >= 25
    else if skillId == "xp_boost" then LevelOf(user) >= 10
    else if skillId == "echo_shadows" then XpOf(user) >= 10000
    else if skillId == "blade_instinct" then TotalSessionsOf(stats) >= 10
    else if skillId == "iron_core" then TotalSessionsOf(stats) >= 8
    else if skillId == "second_wind" then TotalSessionsOf(stats) >= 15
    else false
  }

  /** The counter an eligibility rule looks at. */
  datatype Counter = TotalSessionsCounter | LevelCounter | XpCounter

  /** An eligibility rule as data: a counter and the value it must reach. */
  datatype Rule = Rule(counter: Counter, minimum: int)

  /** The eligibility table, one rule per catalogue skill. */
  const Rules: map<string, Rule> := map[
    "quick_recovery" := Rule(TotalSessionsCounter, 25),
    "xp_boost" := Rule(LevelCounter, 10),
    "echo_shadows" := Rule(XpCounter, 10000),
    "blade_instinct" := Rule(TotalSessionsCounter, 10),
    "iron_core" := Rule(TotalSessionsCounter, 8),
    "second_wind" := Rule(TotalSessionsCounter, 15)
  ]

  function CounterValue(c: Counter, user: Option<UserProfile>, stats: Option<UserStats>): int
  {
    match c
    case TotalSessionsCounter => TotalSessionsOf(stats)
    case LevelCounter => LevelOf(user)
    case XpCounter => XpOf(user)
  }

  predicate RuleHolds(r: Rule, user: Option<UserProfile>, stats: Option<UserStats>)
  {
    CounterValue(r.counter, user, stats) >= r.minimum
  }

  /** The chain is exactly the table: a listed skill is met iff its rule holds, any other never. */
  lemma CriteriaMatchesRules(skillId: string, user: Option<UserProfile>, stats: Option<UserStats>)
    ensures skillId in Rules ==> (CriteriaMet(skillId, user, stats) <==> RuleHolds(Rules[skillId], user, stats))
    ensures skillId !in Rules ==> !CriteriaMet(skillId, user, stats)
  {
  }

  /** Every catalogue skill has a rule, and the table lists nothing else. */
  lemma RulesCoverCatalog()
    ensures forall i :: 0 <= i < |Catalog| ==> Catalog[i].id in Rules
    ensures forall id :: id in Rules ==> exists i :: 0 <= i < |Catalog| && Catalog[i].id == id
  {
    assert Catalog[0].id == "blade_instinct" && Catalog[1].id == "iron_core";
    assert Catalog[2].id == "second_wind" && Catalog[3].id == "echo_shadows";
    assert Catalog[4].id == "quick_recovery" && Catalog[5].id == "xp_boost";
  }

  /** u, s have counters at least those of u0, s0 (missing rows count as 0). */
  predicate CountersAtLeast(u0: Option<UserProfile>, s0: Option<UserStats>, u: Option<UserProfile>, s: Option<UserStats>)
  {
    TotalSessionsOf(s0) <= TotalSessionsOf(s) && LevelOf(u0) <= LevelOf(u) && XpOf(u0) <= XpOf(u)
  }

  /** Once met, a skill's criteria stay met while the counters do not go down. */
  lemma CriteriaMonotone(skillId: string, u0: Option<UserProfile>, s0: Option<UserStats>,
                         u: Option<UserProfile>, s: Option<UserStats>)
    requires CountersAtLeast(u0, s0, u, s)
    requires CriteriaMet(skillId, u0, s0)
    ensures CriteriaMet(skillId, u, s)
  {
  }

  /** Without a user or a statistics row nothing is eligible. */
  lemma NothingEligibleWithoutRecords(skillId: string)
    ensures !CriteriaMet(skillId, None, None)
  {
  }

  // ---------------------------------------------------------------------------
  // Unlock records
  // ---------------------------------------------------------------------------

  /** `unlockedSkills?.find((u) => u.skill_id === id)`: the first record for the skill. */
  function FindRecord(records: seq<UnlockRecord>, skillId: string): (r: Option<UnlockRecord>)
    ensures r.None? <==> forall k :: 0 <= k < |records| ==> records[k].skillId != skillId
    ensures r.Some? ==> r.value.skillId == skillId && r.value in records
    ensures r.Some? ==> exists k :: 0 <= k < |records| && records[k] == r.value &&
                          forall j :: 0 <= j < k ==> records[j].skillId != skillId
  {
    if records == [] then None
    else if records[0].skillId == skillId then Some(records[0])
    else FindRecord(records[1..], skillId)
  }

  /** `unlockRecord?.unlocked || false`. */
  function IsUnlocked(records: seq<UnlockRecord>, skillId: string): bool
  {
    var r := FindRecord(records, skillId);
    r.Some? && r.value.unlocked
  }

  /** At most one record per skill, as the upsert keeps it. */
  predicate UniqueIds(records: seq<UnlockRecord>)
  {
    forall i, j :: 0 <= i < j < |records| ==> records[i].skillId != records[j].skillId
  }

  /** With one record per skill, a skill is unlocked iff some record for it says so. */
  lemma UnlockedIffRecord(records: seq<UnlockRecord>, skillId: string)
    requires UniqueIds(records)
    ensures IsUnlocked(records, skillId) <==>
            exists k :: 0 <= k < |records| && records[k].skillId == skillId && records[k].unlocked
  {
  }

  /** The table's upsert keyed by skill: replaces the skill's first record or appends one. */
  function Upsert(records: seq<UnlockRecord>, rec: UnlockRecord): seq<UnlockRecord>
  {
    if records == [] then [rec]
    else if records[0].skillId == rec.skillId then [rec] + records[1..]
    else [records[0]] + Upsert(records[1..], rec)
  }

  /** After the upsert the skill's record is the one written, and no other skill's record changes. */
  lemma {:induction false} UpsertFinds(records: seq<UnlockRecord>, rec: UnlockRecord, id: string)
    ensures FindRecord(Upsert(records, rec), rec.skillId) == Some(rec)
    ensures id != rec.skillId ==> FindRecord(Upsert(records, rec), id) == FindRecord(records, id)
  {
    if records != [] && records[0].skillId != rec.skillId {
      UpsertFinds(records[1..], rec, id);
      assert ([records[0]] + Upsert(records[1..], rec))[1..] == Upsert(records[1..], rec);
    } else if records != [] {
      assert ([rec] + records[1..])[1..] == records[1..];
    }
  }

  /** The upsert writes the new record and keeps only existing ones otherwise, one per skill. */
  lemma {:induction false} UpsertKeepsUnique(records: seq<UnlockRecord>, rec: UnlockRecord)
    requires UniqueIds(records)
    ensures UniqueIds(Upsert(records, rec))
    ensures forall k :: 0 <= k < |Upsert(records, rec)| ==>
      Upsert(records, rec)[k] == rec || Upsert(records, rec)[k] in records
  {
    if records != [] && records[0].skillId != rec.skillId {
      var tail := Upsert(records[1..], rec);
      assert UniqueIds(records[1..]) by {
        assert forall k :: 0 <= k < |records[1..]| ==> records[1..][k] == records[k + 1];
      }
      UpsertKeepsUnique(records[1..], rec);
      assert forall k :: 0 <= k < |tail| ==> tail[k].skillId != records[0].skillId by {
        forall k | 0 <= k < |tail| ensures tail[k].skillId != records[0].skillId {
          if tail[k] != rec {
            var j :| 0 <= j < |records[1..]| && records[1..][j] == tail[k];
            assert records[j + 1] == tail[k];
          }
        }
      }
      var r := [records[0]] + tail;
      assert forall k :: 1 <= k < |r| ==> r[k] == tail[k - 1];
    } else if records != [] {
      var r := [rec] + records[1..];
      assert forall k :: 1 <= k < |r| ==> r[k] == records[k];
    }
  }

  // ---------------------------------------------------------------------------
  // The evaluated list and its display
  // ---------------------------------------------------------------------------

  datatype SkillStatus = SkillStatus(skill: Skill, unlocked: bool, criteriaMet: bool)

  /** `SKILLS.map(...)` in `loadSkills`. */
  function EvaluateSkills(records: seq<UnlockRecord>, user: Option<UserProfile>, stats: Option<UserStats>)
    : (r: seq<SkillStatus>)
    ensures |r| == |Catalog| == 6
    ensures forall i :: 0 <= i < |r| ==>
      && r[i].skill == Catalog[i]
      && (r[i].unlocked <==> IsUnlocked(records, Catalog[i].id))
      && (r[i].criteriaMet <==> CriteriaMet(Catalog[i].id, user, stats))
  {
    seq(|Catalog|, i requires 0 <= i < |Catalog| =>
      SkillStatus(Catalog[i], IsUnlocked(records, Catalog[i].id), CriteriaMet(Catalog[i].id, user, stats)))
  }

  datatype DisplayState = Unlocked | Eligible | Locked

  /** The card's styling chain at lines 160-166. */
  function Display(st: SkillStatus): DisplayState
  {
    if st.unlocked then Unlocked else if st.criteriaMet then Eligible else Locked
  }

  /** Line 193: the unlock button. */
  predicate ShowsUnlockButton(st: SkillStatus) { !st.unlocked && st.criteriaMet }

  /** Line 205: the "Unlocked" label. */
  predicate ShowsUnlockedLabel(st: SkillStatus) { st.unlocked }

  /** Line 209: the "Locked" label. */
  predicate ShowsLockedLabel(st: SkillStatus) { !st.criteriaMet && !st.unlocked }

  /** Every card shows exactly one of button, "Unlocked" and "Locked", the one its state names. */
  lemma ExactlyOneDisplay(st: SkillStatus)
    ensures ShowsUnlockedLabel(st) <==> Display(st) == Unlocked
    ensures ShowsUnlockButton(st) <==> Display(st) == Eligible
    ensures ShowsLockedLabel(st) <==> Display(st) == Locked
    ensures ShowsUnlockedLabel(st) || ShowsUnlockButton(st) || ShowsLockedLabel(st)
    ensures !(ShowsUnlockedLabel(st) && ShowsUnlockButton(st))
    ensures !(ShowsUnlockedLabel(st) && ShowsLockedLabel(st))
    ensures !(ShowsUnlockButton(st) && ShowsLockedLabel(st))
  {
  }

  /** Line 196: the button is enabled only for a signed-in user with a skill point. */
  predicate UnlockEnabled(user: Option<UserProfile>)
  {
    user.Some? && user.value.skillPoints > 0
  }

  // ---------------------------------------------------------------------------
  // Unlocking
  // ---------------------------------------------------------------------------

  datatype UnlockState = UnlockState(user: Option<UserProfile>, records: seq<UnlockRecord>)

  /**
   * `unlockSkill`: without a user or a skill point nothing changes; otherwise
   * the skill's record is upserted as unlocked at `now` and one point is spent.
   * Neither the criteria nor an earlier unlock are checked here.
   */
  function Unlock(s: UnlockState, skillId: string, now: string): (r: UnlockState)
    ensures !UnlockEnabled(s.user) ==> r == s
    ensures UnlockEnabled(s.user) ==>
      && r.user == Some(s.user.value.(skillPoints := s.user.value.skillPoints - 1))
      && FindRecord(r.records, skillId) == Some(UnlockRecord(skillId, true, Some(now)))
      && forall id :: id != skillId ==> FindRecord(r.records, id) == FindRecord(s.records, id)
  {
    if s.user.None? || s.user.value.skillPoints <= 0 then s
    else
      var u := s.user.value;
      UpsertFinds(s.records, UnlockRecord(skillId, true, Some(now)), "");
      assert forall id :: id != skillId ==>
        FindRecord(Upsert(s.records, UnlockRecord(skillId, true, Some(now))), id) == FindRecord(s.records, id) by {
        forall id | id != skillId {
          UpsertFinds(s.records, UnlockRecord(skillId, true, Some(now)), id);
        }
      }
      UnlockState(Some(u.(skillPoints := u.skillPoints - 1)),
                  Upsert(s.records, UnlockRecord(skillId, true, Some(now))))
  }

  /**
   * After a successful unlock the card of that skill shows "Unlocked" and every
   * other card is exactly as before.
   */
  lemma UnlockChangesOnlyThatCard(s: UnlockState, stats: Option<UserStats>, skillId: string, now: string, i: nat)
    requires UnlockEnabled(s.user) && i < |Catalog|
    ensures var before := EvaluateSkills(s.records, s.user, stats);
            var r := Unlock(s, skillId, now);
            var after := EvaluateSkills(r.records, r.user, stats);
            (Catalog[i].id == skillId ==> Display(after[i]) == Unlocked) &&
            (Catalog[i].id != skillId ==> after[i] == before[i])
  {
    var r := Unlock(s, skillId, now);
    assert forall id :: CriteriaMet(id, r.user, stats) == CriteriaMet(id, s.user, stats);
  }

  /**
   * Calling `unlockSkill` twice for the same skill spends two points; only the
   * button's disappearance after the reload keeps a user from doing so.
   */
  lemma RepeatUnlockChargesTwice(s: UnlockState, skillId: string, now: string, later: string)
    requires s.user.Some? && s.user.value.skillPoints >= 2
    ensures var r := Unlock(Unlock(s, skillId, now), skillId, later);
            r.user.value.skillPoints == s.user.value.skillPoints - 2 && IsUnlocked(r.records, skillId)
  {
  }

  /** The skill-tree screen: the signed-in user, the statistics row and the unlock records. */
  class SkillTreeScreen {
    var user: Option<UserProfile>
    var stats: Option<UserStats>
    var records: seq<UnlockRecord>

    ghost predicate Valid()
      reads this
    {
      UniqueIds(records)
    }

    /**
     * The screen after `loadSkills`: the player's stored unlock rows, the
     * signed-in profile and the statistics row.
     */
    constructor (records: seq<UnlockRecord>, user: Option<UserProfile>, stats: Option<UserStats>)
      requires UniqueIds(records)
      ensures Valid()
      ensures this.user == user && this.stats == stats && this.records == records
    {
      this.user := user;
      this.stats := stats;
      this.records := records;
    }

    /** The cards as `loadSkills` computes them. */
    function Skills(): (r: seq<SkillStatus>)
      reads this
      ensures r == EvaluateSkills(records, user, stats)
      ensures |r| == 6
      ensures forall i :: 0 <= i < 6 ==> r[i].skill == Catalog[i]
      ensures forall i :: 0 <= i < 6 ==> r[i].unlocked == IsUnlocked(records, Catalog[i].id)
      ensures forall i :: 0 <= i < 6 ==> r[i].criteriaMet == CriteriaMet(Catalog[i].id, user, stats)
    {
      EvaluateSkills(records, user, stats)
    }

    /**
     * The unlock action. The screen only offers it on a catalogue skill that
     * is not unlocked and whose criteria are met.
     */
    method UnlockSkill(skillId: string, now: string)
      requires Valid()
      requires exists i :: 0 <= i < |Catalog| && Catalog[i].id == skillId
      requires !IsUnlocked(records, skillId) && CriteriaMet(skillId, user, stats)
      modifies this
      ensures Valid()
      ensures UnlockState(user, records) == Unlock(UnlockState(old(user), old(records)), skillId, now)
      ensures stats == old(stats)
    {
      if user.None? || user.value.skillPoints <= 0 {
        return;
      }
      UpsertKeepsUnique(records, UnlockRecord(skillId, true, Some(now)));
      records := Upsert(records, UnlockRecord(skillId, true, Some(now)));
      user := Some(user.value.(skillPoints := user.value.skillPoints - 1));
    }
  }
}
