/** The routine selector: filter the catalog by the chosen skin type and
    concern, drop the rows that name the allergen, and fill a fixed
    morning / evening / night schedule with the first row of each step. */
module Routine {
  import opened Text
  import opened Sequences
  import opened Classifier

  datatype Option<+T> = None | Some(value: T)

  /** One catalog row. `Skin type` and `Concern` may be missing (NaN). */
  datatype Product = Product(
    name: string,
    skinType: Option<string>,
    concern: Option<string>,
    picture: string,
    url: string)

  datatype Phase = Morning | Evening | Night

  /** One entry of the schedule: a phase and the steps it shows, in order. */
  datatype PhasePlan = PhasePlan(phase: Phase, steps: seq<Step>)

  /** One displayed slot; `None` is the "no specific step found" placeholder. */
  datatype Slot = Slot(phase: Phase, step: Step, product: Option<Product>)

  /** What the button produces: the single "no products match" error, or
      the slots of the schedule in display order. */
  datatype Outcome = NoMatch | Routine(slots: seq<Slot>)

  const Schedule: seq<PhasePlan> := [
    PhasePlan(Morning, [Cleanse, Treat, Protect]),
    PhasePlan(Evening, [Cleanse, Treat, Moisturize]),
    PhasePlan(Night, [Cleanse, Moisturize])
  ]

  // ---------------------------------------------------------------------
  // Specification of the selector

  /** `column.str.contains(term, case=False, na=False)` on one cell: a
      missing cell never matches, a present cell matches the empty term and
      any term equal to it up to case. */
  predicate FieldContains(field: Option<string>, term: string)
    ensures FieldContains(field, term) ==> field.Some?
    ensures field.Some? && term == "" ==> FieldContains(field, term)
    ensures field.Some? && EqualIgnoringCase(field.value, term) ==> FieldContains(field, term)
  {
    match field
    case None => false
    case Some(s) => ContainsIgnoreCase(s, term)
  }

  /** Both the skin type and the concern cell contain the chosen values. */
  predicate FitsProfile(skinType: string, concern: string, p: Product)
    ensures FitsProfile(skinType, concern, p) ==> p.skinType.Some? && p.concern.Some?
    ensures (p.skinType.Some? && EqualIgnoringCase(p.skinType.value, skinType) &&
             p.concern.Some? && EqualIgnoringCase(p.concern.value, concern)) ==>
      FitsProfile(skinType, concern, p)
  {
    FieldContains(p.skinType, skinType) && FieldContains(p.concern, concern)
  }

  /** The product name does not mention the allergen. An empty allergen
      occurs in every name, and a name always mentions itself. */
  predicate FreeOf(allergy: string, p: Product)
    ensures FreeOf(allergy, p) ==> allergy != ""
    ensures EqualIgnoringCase(p.name, allergy) ==> !FreeOf(allergy, p)
    ensures |allergy| > |p.name| ==> FreeOf(allergy, p)
  {
    !ContainsIgnoreCase(p.name, allergy)
  }

  /** The profile mask `df[skin & concern]`: the rows that fit the
      profile, in row order. */
  function ProfileMatches(rows: seq<Product>, skinType: string, concern: string): (r: seq<Product>)
    ensures |r| <= |rows|
    ensures forall p :: p in r ==> p in rows && FitsProfile(skinType, concern, p)
  {
    Filter(rows, p => FitsProfile(skinType, concern, p))
  }

  /** A row survives the profile mask exactly when it fits the profile. */
  lemma ProfileMatchesMembership(rows: seq<Product>, skinType: string, concern: string, p: Product)
    ensures p in ProfileMatches(rows, skinType, concern) <==> p in rows && FitsProfile(skinType, concern, p)
  {
    FilterMembership(rows, p => FitsProfile(skinType, concern, p), p);
  }

  /** The allergy guard `filtered[~mask]`: the rows whose name does not
      mention the allergen, in row order. */
  function WithoutAllergen(rows: seq<Product>, allergy: string): (r: seq<Product>)
    ensures |r| <= |rows|
    ensures forall p :: p in r ==> p in rows && FreeOf(allergy, p)
  {
    Filter(rows, p => FreeOf(allergy, p))
  }

  /** A row survives the allergy guard exactly when its name does not
      mention the allergen. */
  lemma WithoutAllergenMembership(rows: seq<Product>, allergy: string, p: Product)
    ensures p in WithoutAllergen(rows, allergy) <==> p in rows && FreeOf(allergy, p)
  {
    FilterMembership(rows, p => FreeOf(allergy, p), p);
  }

  /** The rows left after the profile filter and, for a non-empty
      allergy text, the allergy guard. */
  function Candidates(catalog: seq<Product>, skinType: string, concern: string, allergy: string): (r: seq<Product>)
    ensures |r| <= |catalog|
    ensures forall p :: p in r ==>
      p in catalog && FitsProfile(skinType, concern, p) && (allergy == "" || FreeOf(allergy, p))
  {
    var matching := ProfileMatches(catalog, skinType, concern);
    if allergy == "" then matching else WithoutAllergen(matching, allergy)
  }

  /** The first row, in row order, whose classified step is `step`. */
  function FirstOfStep(rows: seq<Product>, step: Step): (r: Option<Product>)
    ensures r.Some? ==> r.value in rows && GetStepType(r.value.name) == step
    ensures r.None? ==> forall p :: p in rows ==> GetStepType(p.name) != step
  {
    if rows == [] then None
    else if GetStepType(rows[0].name) == step then Some(rows[0])
    else FirstOfStep(rows[1..], step)
  }

  /** One phase's slots: one per step, in the phase's order, each with
      the first row of its step. */
  function PhaseSlots(phase: Phase, steps: seq<Step>, rows: seq<Product>): (r: seq<Slot>)
    ensures |r| == |steps|
    ensures forall k :: 0 <= k < |steps| ==> r[k] == Slot(phase, steps[k], FirstOfStep(rows, steps[k]))
  {
    if steps == [] then []
    else
      var step := steps[|steps| - 1];
      PhaseSlots(phase, steps[..|steps| - 1], rows) + [Slot(phase, step, FirstOfStep(rows, step))]
  }

  /** The number of steps over all phases of a schedule. */
  function StepCount(plans: seq<PhasePlan>): nat
  {
    if plans == [] then 0 else StepCount(plans[..|plans| - 1]) + |plans[|plans| - 1].steps|
  }

  /** The slots of every phase, phase after phase: one slot per step. */
  function ScheduleSlots(plans: seq<PhasePlan>, rows: seq<Product>): (r: seq<Slot>)
    ensures |r| == StepCount(plans)
  {
    if plans == [] then []
    else
      var plan := plans[|plans| - 1];
      ScheduleSlots(plans[..|plans| - 1], rows) + PhaseSlots(plan.phase, plan.steps, rows)
  }

  /** What pressing the button yields for a catalog and the user's inputs. */
  function Recommend(catalog: seq<Product>, skinType: string, concern: string, allergy: string): (out: Outcome)
    ensures out.NoMatch? <==> Candidates(catalog, skinType, concern, allergy) == []
    ensures out.Routine? ==> |out.slots| == 8
    ensures out.Routine? ==> SlotsFaithful(out.slots, Candidates(catalog, skinType, concern, allergy))
  {
    var rows := Candidates(catalog, skinType, concern, allergy);
    if rows == [] then NoMatch
    else
      ScheduleSlotsFaithful(Schedule, rows);
      ScheduleOrder();
      Routine(ScheduleSlots(Schedule, rows))
  }

  // ---------------------------------------------------------------------
  // Properties of the specification

  /** The schedule shows morning, evening and night in that order; each
      phase opens with Cleanse, Protect comes only in the morning, and
      there are eight steps in all. */
  lemma ScheduleOrder()
    ensures |Schedule| == 3
    ensures Schedule[0].phase == Morning && Schedule[1].phase == Evening && Schedule[2].phase == Night
    ensures forall i :: 0 <= i < |Schedule| ==> Schedule[i].steps != [] && Schedule[i].steps[0] == Cleanse
    ensures forall i :: 0 <= i < |Schedule| ==> (Protect in Schedule[i].steps <==> i == 0)
    ensures StepCount(Schedule) == 8
  {
    assert StepCount(Schedule[..1]) == 3 by {
      assert Schedule[..1][..0] == [];
    }
    assert StepCount(Schedule[..2]) == 6 by {
      assert Schedule[..2][..1] == Schedule[..1];
    }
    assert Schedule[..3] == Schedule;
  }

  /** A row is a candidate exactly when it is a catalog row that fits the
      profile and, for a non-empty allergy text, does not name it. A row
      with a missing skin type or concern is never a candidate. */
  lemma CandidateMembership(catalog: seq<Product>, skinType: string, concern: string, allergy: string, p: Product)
    ensures p in Candidates(catalog, skinType, concern, allergy) <==>
      p in catalog && FitsProfile(skinType, concern, p) && (allergy == "" || FreeOf(allergy, p))
    ensures p.skinType.None? || p.concern.None? ==> p !in Candidates(catalog, skinType, concern, allergy)
  {
    FilterMembership(catalog, q => FitsProfile(skinType, concern, q), p);
    FilterMembership(ProfileMatches(catalog, skinType, concern), q => FreeOf(allergy, q), p);
  }

  /** The profile test ignores letter case in the chosen skin type and
      concern. */
  lemma ProfileIgnoresCase(skinType: string, skinType': string, concern: string, concern': string, p: Product)
    requires EqualIgnoringCase(skinType, skinType') && EqualIgnoringCase(concern, concern')
    ensures FitsProfile(skinType, concern, p) == FitsProfile(skinType', concern', p)
  {
    LowerEqualIgnoringCase(skinType, skinType');
    LowerEqualIgnoringCase(concern, concern');
  }

  /** The candidates keep the catalog's row order, and the allergy guard
      only removes rows: with it the candidates are a subsequence of the
      candidates without it, so never more of them. */
  lemma CandidatesKeepOrder(catalog: seq<Product>, skinType: string, concern: string, allergy: string)
    ensures IsSubsequence(Candidates(catalog, skinType, concern, allergy), catalog)
    ensures IsSubsequence(Candidates(catalog, skinType, concern, allergy), Candidates(catalog, skinType, concern, ""))
    ensures |Candidates(catalog, skinType, concern, allergy)| <= |Candidates(catalog, skinType, concern, "")|
  {
    var matching := ProfileMatches(catalog, skinType, concern);
    FilterIsSubsequence(catalog, q => FitsProfile(skinType, concern, q));
    FilterIsSubsequence(matching, q => FreeOf(allergy, q));
    if allergy == "" {
      SubsequenceReflexive(matching);
    } else {
      SubsequenceTransitive(WithoutAllergen(matching, allergy), matching, catalog);
    }
    SubsequenceLength(Candidates(catalog, skinType, concern, allergy), matching);
  }

  /** An allergy text that no matching product name contains removes
      nothing. */
  lemma UnusedAllergenChangesNothing(catalog: seq<Product>, skinType: string, concern: string, allergy: string)
    requires forall p :: p in ProfileMatches(catalog, skinType, concern) ==> FreeOf(allergy, p)
    ensures Candidates(catalog, skinType, concern, allergy) == Candidates(catalog, skinType, concern, "")
  {
    FilterAcceptAll(ProfileMatches(catalog, skinType, concern), q => FreeOf(allergy, q));
  }

  /** Row `j` is the first row whose step is `step`. */
  ghost predicate IsFirstOfStep(rows: seq<Product>, step: Step, j: int)
  {
    0 <= j < |rows| && GetStepType(rows[j].name) == step &&
    forall k :: 0 <= k < j ==> GetStepType(rows[k].name) != step
  }

  /** `FirstOfStep` finds the first row of the step. */
  lemma {:induction false} FirstOfStepAt(rows: seq<Product>, step: Step, j: int)
    requires IsFirstOfStep(rows, step, j)
    ensures FirstOfStep(rows, step) == Some(rows[j])
  {
    if j > 0 {
      assert IsFirstOfStep(rows[1..], step, j - 1);
      FirstOfStepAt(rows[1..], step, j - 1);
    }
  }

  /** The row `FirstOfStep` returns is the first row of the step. */
  lemma {:induction false} FirstOfStepIsFirst(rows: seq<Product>, step: Step)
    requires FirstOfStep(rows, step).Some?
    ensures exists j :: IsFirstOfStep(rows, step, j) && rows[j] == FirstOfStep(rows, step).value
  {
    if GetStepType(rows[0].name) == step {
      assert IsFirstOfStep(rows, step, 0);
    } else {
      FirstOfStepIsFirst(rows[1..], step);
      var j :| IsFirstOfStep(rows[1..], step, j) && rows[1..][j] == FirstOfStep(rows[1..], step).value;
      assert IsFirstOfStep(rows, step, j + 1);
    }
  }

  lemma PhaseSlotsSnoc(phase: Phase, steps: seq<Step>, step: Step, rows: seq<Product>)
    ensures PhaseSlots(phase, steps + [step], rows) ==
      PhaseSlots(phase, steps, rows) + [Slot(phase, step, FirstOfStep(rows, step))]
  {
    assert (steps + [step])[..|steps|] == steps;
  }

  lemma ScheduleSlotsSnoc(plans: seq<PhasePlan>, plan: PhasePlan, rows: seq<Product>)
    ensures ScheduleSlots(plans + [plan], rows) ==
      ScheduleSlots(plans, rows) + PhaseSlots(plan.phase, plan.steps, rows)
  {
    assert (plans + [plan])[..|plans|] == plans;
  }

  /** Unfolding `PhaseSlots` over a phase of two or three steps. */
  lemma TwoSteps(phase: Phase, a: Step, b: Step, rows: seq<Product>)
    ensures PhaseSlots(phase, [a, b], rows) ==
      [Slot(phase, a, FirstOfStep(rows, a)), Slot(phase, b, FirstOfStep(rows, b))]
  {
    PhaseSlotsSnoc(phase, [], a, rows);
    assert [] + [a] == [a];
    PhaseSlotsSnoc(phase, [a], b, rows);
    assert [a] + [b] == [a, b];
  }

  lemma ThreeSteps(phase: Phase, a: Step, b: Step, c: Step, rows: seq<Product>)
    ensures PhaseSlots(phase, [a, b, c], rows) ==
      [Slot(phase, a, FirstOfStep(rows, a)), Slot(phase, b, FirstOfStep(rows, b)), Slot(phase, c, FirstOfStep(rows, c))]
  {
    TwoSteps(phase, a, b, rows);
    PhaseSlotsSnoc(phase, [a, b], c, rows);
    assert [a, b] + [c] == [a, b, c];
  }

  /** A schedule of three phases is their slots one after the other. */
  lemma ThreePhases(plans: seq<PhasePlan>, rows: seq<Product>)
    requires |plans| == 3
    ensures ScheduleSlots(plans, rows) ==
      PhaseSlots(plans[0].phase, plans[0].steps, rows) + PhaseSlots(plans[1].phase, plans[1].steps, rows) +
      PhaseSlots(plans[2].phase, plans[2].steps, rows)
  {
    var first, firstTwo := plans[..1], plans[..2];
    assert ScheduleSlots(first, rows) == PhaseSlots(plans[0].phase, plans[0].steps, rows) by {
      assert first[..0] == [];
    }
    assert ScheduleSlots(firstTwo, rows) == ScheduleSlots(first, rows) + PhaseSlots(plans[1].phase, plans[1].steps, rows) by {
      assert firstTwo[..1] == first;
    }
  }

  lemma JoinEight(ms: seq<Slot>, es: seq<Slot>, ns: seq<Slot>)
    requires |ms| == 3 && |es| == 3 && |ns| == 2
    ensures ms + es + ns == [ms[0], ms[1], ms[2], es[0], es[1], es[2], ns[0], ns[1]]
  {
  }

  /** The schedule's slots for a set of rows, written out. */
  lemma ScheduleSlotsUnfold(rows: seq<Product>)
    ensures var c, t, m, p := FirstOfStep(rows, Cleanse), FirstOfStep(rows, Treat),
        FirstOfStep(rows, Moisturize), FirstOfStep(rows, Protect);
      ScheduleSlots(Schedule, rows) == [
        Slot(Morning, Cleanse, c), Slot(Morning, Treat, t), Slot(Morning, Protect, p),
        Slot(Evening, Cleanse, c), Slot(Evening, Treat, t), Slot(Evening, Moisturize, m),
        Slot(Night, Cleanse, c), Slot(Night, Moisturize, m)]
  {
    var c, t, m, p := FirstOfStep(rows, Cleanse), FirstOfStep(rows, Treat),
      FirstOfStep(rows, Moisturize), FirstOfStep(rows, Protect);
    var morning := PhasePlan(Morning, [Cleanse, Treat, Protect]);
    var evening := PhasePlan(Evening, [Cleanse, Treat, Moisturize]);
    var night := PhasePlan(Night, [Cleanse, Moisturize]);
    assert Schedule == [morning, evening, night];
    ThreePhases(Schedule, rows);
    ThreeSteps(Morning, Cleanse, Treat, Protect, rows);
    ThreeSteps(Evening, Cleanse, Treat, Moisturize, rows);
    TwoSteps(Night, Cleanse, Moisturize, rows);
    var ms := [Slot(Morning, Cleanse, c), Slot(Morning, Treat, t), Slot(Morning, Protect, p)];
    var es := [Slot(Evening, Cleanse, c), Slot(Evening, Treat, t), Slot(Evening, Moisturize, m)];
    var ns := [Slot(Night, Cleanse, c), Slot(Night, Moisturize, m)];
    assert ScheduleSlots(Schedule, rows) == ms + es + ns;
    JoinEight(ms, es, ns);
  }

  /** The button yields the no-match error exactly when no candidate is
      left; otherwise always eight slots, phase by phase, each holding the
      first candidate of its step or the placeholder. */
  lemma RecommendShape(catalog: seq<Product>, skinType: string, concern: string, allergy: string)
    ensures Recommend(catalog, skinType, concern, allergy).NoMatch? <==>
      Candidates(catalog, skinType, concern, allergy) == []
    ensures var out, rows := Recommend(catalog, skinType, concern, allergy), Candidates(catalog, skinType, concern, allergy);
      out.Routine? ==>
        var c, t, m, p := FirstOfStep(rows, Cleanse), FirstOfStep(rows, Treat),
          FirstOfStep(rows, Moisturize), FirstOfStep(rows, Protect);
        out.slots == [
          Slot(Morning, Cleanse, c), Slot(Morning, Treat, t), Slot(Morning, Protect, p),
          Slot(Evening, Cleanse, c), Slot(Evening, Treat, t), Slot(Evening, Moisturize, m),
          Slot(Night, Cleanse, c), Slot(Night, Moisturize, m)]
  {
    ScheduleSlotsUnfold(Candidates(catalog, skinType, concern, allergy));
  }

  /** Every slot holds the first row of its own step. */
  ghost predicate SlotsFaithful(slots: seq<Slot>, rows: seq<Product>)
  {
    forall k :: 0 <= k < |slots| ==> slots[k].product == FirstOfStep(rows, slots[k].step)
  }

  lemma {:induction false} PhaseSlotsFaithful(phase: Phase, steps: seq<Step>, rows: seq<Product>)
    ensures SlotsFaithful(PhaseSlots(phase, steps, rows), rows)
  {
    if steps != [] {
      PhaseSlotsFaithful(phase, steps[..|steps| - 1], rows);
    }
  }

  lemma {:induction false} ScheduleSlotsFaithful(plans: seq<PhasePlan>, rows: seq<Product>)
    ensures SlotsFaithful(ScheduleSlots(plans, rows), rows)
  {
    if plans != [] {
      var plan := plans[|plans| - 1];
      ScheduleSlotsFaithful(plans[..|plans| - 1], rows);
      PhaseSlotsFaithful(plan.phase, plan.steps, rows);
      var front: seq<Slot>, back: seq<Slot> := ScheduleSlots(plans[..|plans| - 1], rows), PhaseSlots(plan.phase, plan.steps, rows);
      forall k | 0 <= k < |front + back|
        ensures (front + back)[k].product == FirstOfStep(rows, (front + back)[k].step)
      {
        if k >= |front| {
          assert (front + back)[k] == back[k - |front|];
        }
      }
    }
  }

  /** A slot is the placeholder exactly when no candidate has its step;
      otherwise it holds the first candidate, in catalog order, that has. */
  lemma SlotContents(catalog: seq<Product>, skinType: string, concern: string, allergy: string, k: int)
    requires Recommend(catalog, skinType, concern, allergy).Routine?
    requires 0 <= k < |Recommend(catalog, skinType, concern, allergy).slots|
    ensures var rows := Candidates(catalog, skinType, concern, allergy);
      var slot := Recommend(catalog, skinType, concern, allergy).slots[k];
      (slot.product.None? <==> forall p :: p in rows ==> GetStepType(p.name) != slot.step) &&
      (slot.product.Some? ==> exists j :: IsFirstOfStep(rows, slot.step, j) && rows[j] == slot.product.value)
  {
    var rows := Candidates(catalog, skinType, concern, allergy);
    ScheduleSlotsFaithful(Schedule, rows);
    var slot := Recommend(catalog, skinType, concern, allergy).slots[k];
    if slot.product.Some? {
      FirstOfStepIsFirst(rows, slot.step);
    }
  }

  // ---------------------------------------------------------------------
  // The selector as the program computes it, over row labels

  /** Every entry is a row index of the catalog. */
  predicate ValidRows(catalog: seq<Product>, rows: seq<int>)
  {
    forall j :: 0 <= j < |rows| ==> 0 <= rows[j] < |catalog|
  }

  /** The catalog rows at the given indices. */
  function RowsAt(catalog: seq<Product>, rows: seq<int>): (r: seq<Product>)
    requires ValidRows(catalog, rows)
    ensures |r| == |rows| && forall j :: 0 <= j < |rows| ==> r[j] == catalog[rows[j]]
  {
    seq(|rows|, j requires 0 <= j < |rows| => catalog[rows[j]])
  }

  lemma ProfileMatchesSnoc(catalog: seq<Product>, i: int, skinType: string, concern: string)
    requires 0 <= i < |catalog|
    ensures ProfileMatches(catalog[..i + 1], skinType, concern) ==
      ProfileMatches(catalog[..i], skinType, concern) + (if FitsProfile(skinType, concern, catalog[i]) then [catalog[i]] else [])
  {
    assert catalog[..i + 1] == catalog[..i] + [catalog[i]];
    FilterSnoc(catalog[..i], catalog[i], p => FitsProfile(skinType, concern, p));
  }

  /** The labels, among `rows`, of the catalog rows free of the allergen:
      `filtered[~mask]` keeps the labels themselves, in order. */
  function FreeLabels(catalog: seq<Product>, rows: seq<int>, allergy: string): (r: seq<int>)
    ensures |r| <= |rows|
    ensures forall j :: j in r ==> j in rows && 0 <= j < |catalog| && FreeOf(allergy, catalog[j])
  {
    Filter(rows, j => 0 <= j < |catalog| && FreeOf(allergy, catalog[j]))
  }

  /** A label is kept exactly when it is a given label of a catalog row
      whose name does not mention the allergen. */
  lemma FreeLabelsMembership(catalog: seq<Product>, rows: seq<int>, allergy: string, j: int)
    ensures j in FreeLabels(catalog, rows, allergy) <==> j in rows && 0 <= j < |catalog| && FreeOf(allergy, catalog[j])
  {
    FilterMembership(rows, j => 0 <= j < |catalog| && FreeOf(allergy, catalog[j]), j);
  }

  /** The rows at the free labels are the allergen-free rows. */
  lemma {:induction false} FreeLabelsRows(catalog: seq<Product>, rows: seq<int>, allergy: string)
    requires ValidRows(catalog, rows)
    ensures ValidRows(catalog, FreeLabels(catalog, rows, allergy))
    ensures RowsAt(catalog, FreeLabels(catalog, rows, allergy)) == WithoutAllergen(RowsAt(catalog, rows), allergy)
  {
    if rows != [] {
      var init, last := rows[..|rows| - 1], rows[|rows| - 1];
      FreeLabelsRows(catalog, init, allergy);
      assert RowsAt(catalog, rows) == RowsAt(catalog, init) + [catalog[last]];
      FilterSnoc(RowsAt(catalog, init), catalog[last], p => FreeOf(allergy, p));
      if FreeOf(allergy, catalog[last]) {
        RowsAtSnoc(catalog, FreeLabels(catalog, init, allergy), last);
      }
    }
  }

  lemma RowsAtSnoc(catalog: seq<Product>, rows: seq<int>, i: int)
    requires ValidRows(catalog, rows) && 0 <= i < |catalog|
    ensures ValidRows(catalog, rows + [i])
    ensures RowsAt(catalog, rows + [i]) == RowsAt(catalog, rows) + [catalog[i]]
  {
  }

  /** One step of the profile loop: row `i` is appended exactly when it fits. */
  lemma SelectProfileStep(catalog: seq<Product>, rows: seq<int>, i: int, skinType: string, concern: string)
    requires 0 <= i < |catalog| && ValidRows(catalog, rows)
    requires RowsAt(catalog, rows) == ProfileMatches(catalog[..i], skinType, concern)
    ensures FitsProfile(skinType, concern, catalog[i]) ==>
      ValidRows(catalog, rows + [i]) && RowsAt(catalog, rows + [i]) == ProfileMatches(catalog[..i + 1], skinType, concern)
    ensures !FitsProfile(skinType, concern, catalog[i]) ==>
      RowsAt(catalog, rows) == ProfileMatches(catalog[..i + 1], skinType, concern)
  {
    ProfileMatchesSnoc(catalog, i, skinType, concern);
    if FitsProfile(skinType, concern, catalog[i]) {
      RowsAtSnoc(catalog, rows, i);
    }
  }

  /** The profile filter, kept as the index labels of the surviving rows. */
  method SelectProfile(catalog: seq<Product>, skinType: string, concern: string) returns (rows: seq<int>)
    ensures ValidRows(catalog, rows)
    ensures forall i, j :: 0 <= i < j < |rows| ==> rows[i] < rows[j]
    ensures RowsAt(catalog, rows) == ProfileMatches(catalog, skinType, concern)
  {
    rows := [];
    var i := 0;
    while i < |catalog|
      invariant 0 <= i <= |catalog|
      invariant forall j :: 0 <= j < |rows| ==> 0 <= rows[j] < i
      invariant forall a, b :: 0 <= a < b < |rows| ==> rows[a] < rows[b]
      invariant RowsAt(catalog, rows) == ProfileMatches(catalog[..i], skinType, concern)
    {
      SelectProfileStep(catalog, rows, i, skinType, concern);
      if FitsProfile(skinType, concern, catalog[i]) {
        rows := rows + [i];
      }
      i := i + 1;
    }
    assert catalog[..|catalog|] == catalog;
  }

  /** The allergy guard over the surviving row indices. */
  method DropAllergen(catalog: seq<Product>, rows: seq<int>, allergy: string) returns (kept: seq<int>)
    requires ValidRows(catalog, rows)
    ensures kept == FreeLabels(catalog, rows, allergy)
    ensures ValidRows(catalog, kept)
    ensures RowsAt(catalog, kept) == WithoutAllergen(RowsAt(catalog, rows), allergy)
    ensures IsSubsequence(kept, rows)
  {
    kept := [];
    var i := 0;
    while i < |rows|
      invariant 0 <= i <= |rows|
      invariant kept == FreeLabels(catalog, rows[..i], allergy)
    {
      assert rows[..i + 1] == rows[..i] + [rows[i]];
      FilterSnoc(rows[..i], rows[i], j => 0 <= j < |catalog| && FreeOf(allergy, catalog[j]));
      if FreeOf(allergy, catalog[rows[i]]) {
        kept := kept + [rows[i]];
      }
      i := i + 1;
    }
    assert rows[..|rows|] == rows;
    FreeLabelsRows(catalog, rows, allergy);
    FilterIsSubsequence(rows, j => 0 <= j < |catalog| && FreeOf(allergy, catalog[j]));
  }

  method ClassifyAll(catalog: seq<Product>) returns (column: seq<Step>)
    ensures |column| == |catalog|
    ensures forall i :: 0 <= i < |catalog| ==> column[i] == GetStepType(catalog[i].name)
  {
    column := [];
    for i := 0 to |catalog|
      invariant |column| == i
      invariant forall j :: 0 <= j < i ==> column[j] == GetStepType(catalog[j].name)
    {
      column := column + [GetStepType(catalog[i].name)];
    }
  }

  /** The position of the first index in `rows` whose column entry is
      `step`, or `|rows|` when there is none. */
  method ScanFor(column: seq<Step>, rows: seq<int>, step: Step) returns (j: int)
    requires forall k :: 0 <= k < |rows| ==> 0 <= rows[k] < |column|
    ensures 0 <= j <= |rows|
    ensures forall k :: 0 <= k < j ==> column[rows[k]] != step
    ensures j < |rows| ==> column[rows[j]] == step
  {
    j := 0;
    while j < |rows| && column[rows[j]] != step
      invariant 0 <= j <= |rows|
      invariant forall k :: 0 <= k < j ==> column[rows[k]] != step
    {
      j := j + 1;
    }
  }

  /** `filtered[df['Step'] == step].iloc[0]`: the first surviving row whose
      step column entry is `step`, if any. */
  method FindFirst(catalog: seq<Product>, column: seq<Step>, rows: seq<int>, step: Step)
    returns (pick: Option<Product>)
    requires |column| == |catalog|
    requires forall i :: 0 <= i < |catalog| ==> column[i] == GetStepType(catalog[i].name)
    requires ValidRows(catalog, rows)
    ensures pick == FirstOfStep(RowsAt(catalog, rows), step)
  {
    ghost var candidates := RowsAt(catalog, rows);
    var j := ScanFor(column, rows, step);
    assert forall k :: 0 <= k < j ==> GetStepType(candidates[k].name) != step;
    if j < |rows| {
      pick := Some(catalog[rows[j]]);
      assert IsFirstOfStep(candidates, step, j);
      FirstOfStepAt(candidates, step, j);
    } else {
      pick := None;
      FirstOfStepNone(candidates, step);
    }
  }

  /** With no row of the step, `FirstOfStep` finds nothing. */
  lemma {:induction false} FirstOfStepNone(rows: seq<Product>, step: Step)
    requires forall k :: 0 <= k < |rows| ==> GetStepType(rows[k].name) != step
    ensures FirstOfStep(rows, step) == None
  {
    if rows != [] {
      FirstOfStepNone(rows[1..], step);
    }
  }

  /** The inner loop over one phase's steps: one slot per step. */
  method FillPhase(catalog: seq<Product>, column: seq<Step>, rows: seq<int>, plan: PhasePlan)
    returns (slots: seq<Slot>)
    requires |column| == |catalog|
    requires forall i :: 0 <= i < |catalog| ==> column[i] == GetStepType(catalog[i].name)
    requires ValidRows(catalog, rows)
    ensures slots == PhaseSlots(plan.phase, plan.steps, RowsAt(catalog, rows))
  {
    slots := [];
    for s := 0 to |plan.steps|
      invariant slots == PhaseSlots(plan.phase, plan.steps[..s], RowsAt(catalog, rows))
    {
      var step := plan.steps[s];
      var pick := FindFirst(catalog, column, rows, step);
      assert plan.steps[..s + 1][..s] == plan.steps[..s];
      slots := slots + [Slot(plan.phase, step, pick)];
    }
    assert plan.steps[..|plan.steps|] == plan.steps;
  }

  /** The profile filter followed, for a non-empty allergy text, by the
      allergy guard: the labels of the candidates, in catalog order. */
  method SelectCandidates(catalog: seq<Product>, skinType: string, concern: string, allergy: string)
    returns (rows: seq<int>)
    ensures ValidRows(catalog, rows)
    ensures RowsAt(catalog, rows) == Candidates(catalog, skinType, concern, allergy)
    ensures forall i, j :: 0 <= i < j < |rows| ==> rows[i] < rows[j]
  {
    rows := SelectProfile(catalog, skinType, concern);
    if allergy != "" {
      var kept := DropAllergen(catalog, rows, allergy);
      SubsequenceIncreasing(kept, rows);
      rows := kept;
    }
  }

  /** The body under the "Generate My Routine" button. */
  method BuildRoutine(catalog: seq<Product>, skinType: string, concern: string, allergy: string)
    returns (out: Outcome)
    ensures out == Recommend(catalog, skinType, concern, allergy)
  {
    var rows := SelectCandidates(catalog, skinType, concern, allergy);
    ghost var candidates := RowsAt(catalog, rows);
    if |rows| == 0 {
      return NoMatch;
    }
    var column := ClassifyAll(catalog);
    var slots: seq<Slot> := [];
    for p := 0 to |Schedule|
      invariant slots == ScheduleSlots(Schedule[..p], candidates)
    {
      var phaseSlots := FillPhase(catalog, column, rows, Schedule[p]);
      assert Schedule[..p + 1][..p] == Schedule[..p];
      slots := slots + phaseSlots;
    }
    assert Schedule[..|Schedule|] == Schedule;
    out := Routine(slots);
  }
}
