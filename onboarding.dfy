/**
 * The onboarding wizard (src/components/Onboarding.tsx): the answers form,
 * the list toggle behind the goal and equipment buttons, the comma-separated
 * text fields for injuries and food constraints, and the six-step navigation
 * with its progress label.
 */
module Onboarding {
  import opened Text

  /** The answers collected by the wizard (`Partial<OnboardingData>`). */
  datatype FormData = FormData(
    goals: seq<string>,
    experienceLevel: string,
    equipment: seq<string>,
    timePerSession: int,
    preferredDurationMonths: int,
    injuries: seq<string>,
    foodConstraints: seq<string>,
    createDriveSheet: bool)

  /** The form's starting answers. */
  function InitialForm(): (f: FormData)
    ensures f.goals == [] && f.equipment == [] && f.injuries == [] && f.foodConstraints == []
    ensures f.experienceLevel == "Beginner" && f.timePerSession == 60
    ensures f.preferredDurationMonths == 6 && !f.createDriveSheet
  {
    FormData([], "Beginner", [], 60, 6, [], [], false)
  }

  /** `xs.filter(item => item !== v)`. */
  function Remove(xs: seq<string>, v: string): (r: seq<string>)
    ensures |r| <= |xs|
    ensures forall w :: w in r <==> w in xs && w != v
  {
    if xs == [] then []
    else (if xs[0] == v then [] else [xs[0]]) + Remove(xs[1..], v)
  }

  /** Filtering distributes over concatenation, so it keeps the surviving items in their order. */
  lemma {:induction false} RemoveConcat(a: seq<string>, b: seq<string>, v: string)
    ensures Remove(a + b, v) == Remove(a, v) + Remove(b, v)
  {
    if a == [] {
      assert a + b == b;
    } else {
      assert (a + b)[1..] == a[1..] + b;
      RemoveConcat(a[1..], b, v);
    }
  }

  /** Filtering out a value that is absent changes nothing. */
  lemma {:induction false} RemoveAbsent(xs: seq<string>, v: string)
    requires v !in xs
    ensures Remove(xs, v) == xs
  {
    if xs != [] {
      RemoveAbsent(xs[1..], v);
      assert [xs[0]] + xs[1..] == xs;
    }
  }

  /**
   * `toggleArrayItem` on one list: a present value is removed everywhere it
   * occurs, an absent one is appended at the end.
   */
  function ToggleArrayItem(xs: seq<string>, v: string): (r: seq<string>)
    ensures v in xs ==> r == Remove(xs, v)
    ensures v !in xs ==> r == xs + [v]
    ensures v in r <==> v !in xs
    ensures forall w :: w != v ==> (w in r <==> w in xs)
  {
    if v in xs then Remove(xs, v) else xs + [v]
  }

  /** Toggling twice restores every value's membership. */
  lemma ToggleTwiceRestoresMembership(xs: seq<string>, v: string, w: string)
    ensures w in ToggleArrayItem(ToggleArrayItem(xs, v), v) <==> w in xs
  {
  }

  /** Toggling an absent value on and off again gives back exactly the list. */
  lemma ToggleTwiceRestoresAbsent(xs: seq<string>, v: string)
    requires v !in xs
    ensures ToggleArrayItem(ToggleArrayItem(xs, v), v) == xs
  {
    RemoveConcat(xs, [v], v);
    RemoveAbsent(xs, v);
    assert Remove([v], v) == [];
  }

  /** The two lists the wizard's buttons toggle. */
  datatype ListKey = Goals | Equipment

  function ListOf(f: FormData, key: ListKey): seq<string>
  {
    match key
    case Goals => f.goals
    case Equipment => f.equipment
  }

  /** `setFormData({...formData, [key]: toggled})`: only the toggled list changes. */
  function ToggleField(f: FormData, key: ListKey, v: string): (g: FormData)
    ensures ListOf(g, key) == ToggleArrayItem(ListOf(f, key), v)
    ensures key == Goals ==> g.equipment == f.equipment
    ensures key == Equipment ==> g.goals == f.goals
    ensures g.experienceLevel == f.experienceLevel && g.timePerSession == f.timePerSession
    ensures g.preferredDurationMonths == f.preferredDurationMonths
    ensures g.injuries == f.injuries && g.foodConstraints == f.foodConstraints
    ensures g.createDriveSheet == f.createDriveSheet
  {
    match key
    case Goals => f.(goals := ToggleArrayItem(f.goals, v))
    case Equipment => f.(equipment := ToggleArrayItem(f.equipment, v))
  }

  /** `.map(s => s.trim())`. */
  function TrimAll(parts: seq<string>): (r: seq<string>)
    ensures |r| == |parts|
  {
    seq(|parts|, k requires 0 <= k < |parts| => Trim(parts[k]))
  }

  /** Each piece is trimmed in place, so the order of the pieces is kept. */
  lemma TrimAllPointwise(parts: seq<string>)
    ensures forall k :: 0 <= k < |parts| ==> TrimAll(parts)[k] == Trim(parts[k])
  {
    forall k | 0 <= k < |parts|
      ensures TrimAll(parts)[k] == Trim(parts[k])
    {
    }
  }

  /** `.filter(Boolean)` on strings: drops the empty ones. */
  function DropEmpty(parts: seq<string>): (r: seq<string>)
    ensures |r| <= |parts|
    ensures forall k :: 0 <= k < |r| ==> r[k] != ""
    ensures forall w :: w in r <==> w in parts && w != ""
  {
    if parts == [] then []
    else (if parts[0] == "" then [] else [parts[0]]) + DropEmpty(parts[1..])
  }

  /** Every item that survives the filter was in the input. */
  lemma {:induction false} DropEmptyFromInput(parts: seq<string>)
    ensures forall k :: 0 <= k < |DropEmpty(parts)| ==> DropEmpty(parts)[k] in parts
  {
    if parts != [] {
      DropEmptyFromInput(parts[1..]);
      var r := DropEmpty(parts);
      var tail := DropEmpty(parts[1..]);
      forall k | 0 <= k < |r| ensures r[k] in parts {
        if parts[0] == "" {
          assert r[k] == tail[k];
        } else if k > 0 {
          assert r[k] == tail[k - 1];
        }
      }
    }
  }

  /** The filter keeps exactly the non-empty item of a one-item list. */
  lemma DropEmptySingle(w: string)
    ensures DropEmpty([w]) == (if w == "" then [] else [w])
  {
    assert [w][1..] == [];
  }

  /** The filter distributes over concatenation, so the survivors keep their order. */
  lemma {:induction false} DropEmptyConcat(a: seq<string>, b: seq<string>)
    ensures DropEmpty(a + b) == DropEmpty(a) + DropEmpty(b)
  {
    if a != [] {
      assert (a + b)[0] == a[0];
      assert (a + b)[1..] == a[1..] + b;
      DropEmptyConcat(a[1..], b);
    } else {
      assert a + b == b;
    }
  }

  lemma {:induction false} DropEmptyKeepsNonEmpty(parts: seq<string>)
    requires forall k :: 0 <= k < |parts| ==> parts[k] != ""
    ensures DropEmpty(parts) == parts
  {
    if parts != [] {
      DropEmptyKeepsNonEmpty(parts[1..]);
      assert [parts[0]] + parts[1..] == parts;
    }
  }

  /** The injuries and food-constraints text areas: split on commas, trim, drop empties. */
  function ParseList(text: string): (items: seq<string>)
  {
    DropEmpty(TrimAll(Split(text, ',')))
  }

  /** What the text areas show: the items joined with a comma and a space. */
  function JoinList(items: seq<string>): (text: string)
  {
    Join(items, ", ")
  }

  /** A parsed list holds only non-empty, trimmed, comma-free items. */
  lemma ParsedItemsClean(text: string)
    ensures forall k :: 0 <= k < |ParseList(text)| ==>
      ParseList(text)[k] != "" && Trimmed(ParseList(text)[k]) && Excludes(ParseList(text)[k], ',')
  {
    var parts := Split(text, ',');
    var trimmed := TrimAll(parts);
    forall k | 0 <= k < |trimmed|
      ensures Trimmed(trimmed[k]) && Excludes(trimmed[k], ',')
    {
      TrimIsTrimmed(parts[k]);
      TrimExcludes(parts[k], ',');
    }
    DropEmptyFromInput(trimmed);
  }

  /** An item the text areas can hold unchanged. */
  predicate CleanItem(s: string)
  {
    s != "" && Trimmed(s) && Excludes(s, ',')
  }

  /** Each item after the first, as it appears between the commas: with its leading space. */
  function Spaced(ys: seq<string>): (r: seq<string>)
    ensures |r| == |ys|
    ensures forall k :: 0 <= k < |r| ==> r[k] == " " + ys[k]
  {
    if ys == [] then [] else [" " + ys[0]] + Spaced(ys[1..])
  }

  lemma {:induction false} SplitJoin(xs: seq<string>)
    requires |xs| >= 1
    requires forall k :: 0 <= k < |xs| ==> Excludes(xs[k], ',')
    ensures Split(JoinList(xs), ',') == [xs[0]] + Spaced(xs[1..])
  {
    if |xs| > 1 {
      var rest := JoinList(xs[1..]);
      assert JoinList(xs) == xs[0] + [','] + ([' '] + rest);
      SplitAtSeparator(xs[0], ',', [' '] + rest);
      SplitConsOther(' ', rest, ',');
      SplitJoin(xs[1..]);
      assert xs[1..][1..] == xs[2..];
      assert Spaced(xs[1..]) == [" " + xs[1]] + Spaced(xs[2..]);
    } else {
      SplitExcluded(xs[0], ',');
      assert xs[1..] == [];
    }
  }

  /** Showing a list of clean items and reading the text back gives the same list. */
  lemma ParseJoinRoundTrip(xs: seq<string>)
    requires forall k :: 0 <= k < |xs| ==> CleanItem(xs[k])
    ensures ParseList(JoinList(xs)) == xs
  {
    if xs == [] {
      assert Split("", ',') == [""];
      assert TrimAll([""]) == [""];
    } else {
      SplitJoin(xs);
      var parts := [xs[0]] + Spaced(xs[1..]);
      var trimmed := TrimAll(parts);
      forall k | 0 <= k < |xs| ensures trimmed[k] == xs[k] {
        if k == 0 {
          TrimOfTrimmed(xs[0]);
        } else {
          assert parts[k] == [' '] + xs[k];
          TrimLeadingSpace(' ', xs[k]);
          TrimOfTrimmed(xs[k]);
        }
      }
      assert trimmed == xs;
      DropEmptyKeepsNonEmpty(xs);
    }
  }

  /** `Math.round((step / 6) * 100)`, the percentage beside "Step n of 6". */
  function ProgressPercent(step: int): (p: int)
    ensures (p as real) - 0.5 <= (step as real / 6.0) * 100.0 < (p as real) + 0.5
  {
    ((step as real / 6.0) * 100.0 + 0.5).Floor
  }

  /** The label reads 17, 33, 50, 67, 83 and 100 percent over the six steps. */
  lemma ProgressLabels()
    ensures ProgressPercent(1) == 17 && ProgressPercent(2) == 33 && ProgressPercent(3) == 50
    ensures ProgressPercent(4) == 67 && ProgressPercent(5) == 83 && ProgressPercent(6) == 100
  {
  }

  const StepCount := 6

  /**
   * The wizard screen: the current step, the answers and the selected role.
   * The goal buttons are shown on step 1 only and the equipment buttons on
   * step 3 only, the injury and food text areas on step 5, the role cards
   * and the spreadsheet box on step 6.
   */
  class OnboardingWizard {
    var step: int
    var form: FormData
    var selectedRole: string

    /**
     * The step stays in 1..6, and once past step 1 (resp. 3) at least one
     * goal (resp. one piece of equipment) has been chosen.
     */
    ghost predicate Valid()
      reads this
    {
      && 1 <= step <= StepCount
      && (step > 1 ==> form.goals != [])
      && (step > 3 ==> form.equipment != [])
    }

    constructor ()
      ensures Valid()
      ensures step == 1 && form == InitialForm() && selectedRole == "Assassin"
    {
      step := 1;
      form := InitialForm();
      selectedRole := "Assassin";
    }

    /** The Back button is rendered only after the first step. */
    predicate ShowsBack()
      reads this
    {
      step > 1
    }

    /** Before the last step the Next button is rendered; on it, Complete Setup. */
    predicate ShowsNext()
      reads this
    {
      step < StepCount
    }

    /** Next is disabled on step 1 without a goal and on step 3 without equipment. */
    predicate NextDisabled()
      reads this
    {
      || (step == 1 && form.goals == [])
      || (step == 3 && form.equipment == [])
    }

    method Back()
      requires Valid() && ShowsBack()
      modifies this
      ensures Valid()
      ensures step == old(step) - 1
      ensures form == old(form) && selectedRole == old(selectedRole)
    {
      step := step - 1;
    }

    method Next()
      requires Valid() && ShowsNext() && !NextDisabled()
      modifies this
      ensures Valid()
      ensures step == old(step) + 1
      ensures form == old(form) && selectedRole == old(selectedRole)
    {
      step := step + 1;
    }

    /** A goal button (step 1) or an equipment button (step 3). */
    method Toggle(key: ListKey, value: string)
      requires Valid()
      requires key == Goals ==> step == 1
      requires key == Equipment ==> step == 3
      modifies this
      ensures Valid()
      ensures form == ToggleField(old(form), key, value)
      ensures step == old(step) && selectedRole == old(selectedRole)
    {
      form := ToggleField(form, key, value);
    }

    /** The experience buttons on step 2. */
    method SetExperience(level: string)
      requires Valid() && step == 2
      modifies this
      ensures Valid()
      ensures form == old(form).(experienceLevel := level)
      ensures step == old(step) && selectedRole == old(selectedRole)
    {
      form := form.(experienceLevel := level);
    }

    /** The two sliders on step 4 (minutes per session, months of the programme). */
    method SetSchedule(minutes: int, months: int)
      requires Valid() && step == 4
      modifies this
      ensures Valid()
      ensures form == old(form).(timePerSession := minutes, preferredDurationMonths := months)
      ensures step == old(step) && selectedRole == old(selectedRole)
    {
      form := form.(timePerSession := minutes, preferredDurationMonths := months);
    }

    /** Typing into the injuries text area (step 5). */
    method EditInjuries(text: string)
      requires Valid() && step == 5
      modifies this
      ensures Valid()
      ensures form == old(form).(injuries := ParseList(text))
      ensures step == old(step) && selectedRole == old(selectedRole)
    {
      var items := ParseList(text);
      form := form.(injuries := items);
    }

    /** Typing into the food-constraints text area (step 5). */
    method EditFoodConstraints(text: string)
      requires Valid() && step == 5
      modifies this
      ensures Valid()
      ensures form == old(form).(foodConstraints := ParseList(text))
      ensures step == old(step) && selectedRole == old(selectedRole)
    {
      var items := ParseList(text);
      form := form.(foodConstraints := items);
    }

    /** The role cards and the spreadsheet box on step 6. */
    method Choose(role: string, createDriveSheet: bool)
      requires Valid() && step == StepCount
      modifies this
      ensures Valid()
      ensures form == old(form).(createDriveSheet := createDriveSheet)
      ensures selectedRole == role && step == old(step)
    {
      form := form.(createDriveSheet := createDriveSheet);
      selectedRole := role;
    }
  }

  /** Whoever reaches the last step has picked at least one goal and one piece of equipment. */
  lemma LastStepHasGoalsAndEquipment(w: OnboardingWizard)
    requires w.Valid() && w.step == StepCount
    ensures w.form.goals != [] && w.form.equipment != []
  {
  }
}
