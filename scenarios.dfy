/** Worked examples: the classifier on sample product names and the
    selector on two small catalogs. */
module Scenarios {
  import opened Text
  import opened Classifier
  import opened Routine
  import opened Sequences

  /** A keyword with a character the text lacks does not occur in it. */
  lemma {:induction false} AbsentCharNotContained(s: string, word: string, c: char)
    requires c in word && c !in s
    ensures !Contains(s, word)
  {
  }

  /** A keyword whose first two characters never appear side by side in
      the text does not occur in it. */
  lemma AbsentPairNotContained(s: string, word: string)
    requires |word| >= 2
    requires forall i :: 0 <= i < |s| - 1 ==> !(s[i] == word[0] && s[i + 1] == word[1])
    ensures !Contains(s, word)
  {
    forall i | 0 <= i <= |s| - |word| ensures !OccursAt(s, word, i) {
      assert s[i..i + |word|][0] == s[i] && s[i..i + |word|][1] == s[i + 1];
    }
  }

  /** No word of `words` occurs in `s` when each word has a character,
      `marks[j]`, that `s` lacks. */
  lemma NoneContained(s: string, words: seq<string>, marks: string)
    requires |marks| == |words|
    requires forall j :: 0 <= j < |words| ==> marks[j] in words[j] && marks[j] !in s
    ensures forall j :: 0 <= j < |words| ==> !Contains(s, words[j])
  {
    forall j | 0 <= j < |words| ensures !Contains(s, words[j]) {
      AbsentCharNotContained(s, words[j], marks[j]);
    }
  }

  lemma FoamingWashIsCleanse()
    ensures GetStepType("Foaming Wash") == Cleanse
  {
    var name := Lower("Foaming Wash");
    assert name == "foaming wash";
    assert OccursAt(name, "wash", 8);
    CleanseKeywordWins("Foaming Wash", "wash");
  }

  /** "moisturizer gel" names a moisturiser but is classified Treat: the
      treatment group is tried first. */
  lemma MoisturizerGelIsTreat()
    ensures GetStepType("moisturizer gel") == Treat
  {
    var name := Lower("moisturizer gel");
    assert name == "moisturizer gel";
    NoneContained(name, CleanseWords, "wca");
    assert OccursAt(name, "gel", 12);
    TreatKeywordBeatsLaterGroups("moisturizer gel", "gel");
  }

  /** "sunscreen oil" names a sunscreen but is classified Treat. */
  lemma SunscreenOilIsTreat()
    ensures GetStepType("sunscreen oil") == Treat
  {
    var name := Lower("sunscreen oil");
    assert name == "sunscreen oil";
    NoneContained(name, CleanseWords, "waa");
    assert OccursAt(name, "oil", 10);
    TreatKeywordBeatsLaterGroups("sunscreen oil", "oil");
  }

  lemma BoosterHasNoCleanseOrProtectWord(name: string)
    requires name == "vitamin c booster"
    ensures forall j :: 0 <= j < |CleanseWords| ==> !Contains(name, CleanseWords[j])
    ensures forall j :: 0 <= j < |ProtectWords| ==> !Contains(name, ProtectWords[j])
  {
    NoneContained(name, CleanseWords, "wlp");
    NoneContained(name, ProtectWords, "up");
  }

  lemma BoosterHasNoTreatWord(name: string)
    requires name == "vitamin c booster"
    ensures forall j :: 0 <= j < |TreatWords| ==> !Contains(name, TreatWords[j])
  {
    forall j | 0 <= j < |TreatWords| ensures !Contains(name, TreatWords[j]) {
      if j == 2 {
        AbsentPairNotContained(name, "tonic");
      } else {
        AbsentCharNotContained(name, TreatWords[j], "ugxl"[j]);
      }
    }
  }

  lemma BoosterHasNoMoisturizeWord(name: string)
    requires name == "vitamin c booster"
    ensures forall j :: 0 <= j < |MoisturizeWords| ==> !Contains(name, MoisturizeWords[j])
  {
    forall j | 0 <= j < |MoisturizeWords| ensures !Contains(name, MoisturizeWords[j]) {
      if j == 0 {
        AbsentPairNotContained(name, "cream");
      } else {
        AbsentCharNotContained(name, MoisturizeWords[j], "xul"[j]);
      }
    }
  }

  /** A name with no keyword at all falls back to Treat. */
  lemma VitaminBoosterIsTreat()
    ensures GetStepType("Vitamin C Booster") == Treat
  {
    var name := Lower("Vitamin C Booster");
    assert name == "vitamin c booster";
    BoosterHasNoCleanseOrProtectWord(name);
    BoosterHasNoTreatWord(name);
    BoosterHasNoMoisturizeWord(name);
    UnmatchedNameIsTreat("Vitamin C Booster");
  }

  lemma NiacinamideSerumIsTreat()
    ensures GetStepType("Niacinamide Serum") == Treat
  {
    var name := Lower("Niacinamide Serum");
    assert name == "niacinamide serum";
    NoneContained(name, CleanseWords, "wlo");
    assert name[12..] == "serum";
    assert OccursAt(name, "serum", 12);
    TreatKeywordBeatsLaterGroups("Niacinamide Serum", "serum");
  }

  lemma HydraCreamIsMoisturize()
    ensures GetStepType("Hydra Cream") == Moisturize
  {
    var name := Lower("Hydra Cream");
    assert name == "hydra cream";
    NoneContained(name, CleanseWords, "wlo");
    NoneContained(name, TreatWords, "sgoo");
    assert OccursAt(name, "cream", 6);
    MoisturizeKeywordBeatsProtect("Hydra Cream", "cream");
  }

  // A small catalog: every row suits oily, acne-prone skin.
  const Wash := Product("Foaming Wash", Some("Oily"), Some("Acne"), "", "")
  const Serum := Product("Niacinamide Serum", Some("Oily"), Some("Acne"), "", "")
  const OilyCatalog := [Wash, Serum]

  lemma OilyCatalogFitsOilyAcne()
    ensures Candidates(OilyCatalog, "Oily", "Acne", "") == OilyCatalog
  {
    assert OccursAt(Lower("Oily"), Lower("Oily"), 0);
    assert OccursAt(Lower("Acne"), Lower("Acne"), 0);
    assert forall p :: p in OilyCatalog ==> FitsProfile("Oily", "Acne", p);
    FilterAcceptAll(OilyCatalog, p => FitsProfile("Oily", "Acne", p));
  }

  // The literal comes in as a pinned parameter so that the verifier does not unfold it.
  lemma OilyCatalogFirstRows(rows: seq<Product>)
    requires rows == OilyCatalog
    ensures FirstOfStep(rows, Cleanse) == Some(Wash) && FirstOfStep(rows, Treat) == Some(Serum)
    ensures FirstOfStep(rows, Moisturize) == None && FirstOfStep(rows, Protect) == None
  {
    FoamingWashIsCleanse();
    NiacinamideSerumIsTreat();
  }

  /** Without an allergy text the wash fills every Cleanse slot, the serum
      every Treat slot, and no row fills Protect or Moisturize.
      The catalog comes in as a pinned parameter so that the verifier does
      not unfold the literal. */
  lemma OilyAcneRoutine(catalog: seq<Product>)
    requires catalog == OilyCatalog
    ensures var out := Recommend(catalog, "Oily", "Acne", "");
      out == Routine([
        Slot(Morning, Cleanse, Some(Wash)), Slot(Morning, Treat, Some(Serum)), Slot(Morning, Protect, None),
        Slot(Evening, Cleanse, Some(Wash)), Slot(Evening, Treat, Some(Serum)), Slot(Evening, Moisturize, None),
        Slot(Night, Cleanse, Some(Wash)), Slot(Night, Moisturize, None)])
  {
    OilyCatalogFitsOilyAcne();
    OilyCatalogFirstRows(catalog);
    ScheduleSlotsUnfold(catalog);
  }

  lemma WashHasAllergen()
    ensures !FreeOf("Wash", Wash)
  {
    var name := Lower("Foaming Wash");
    assert name == "foaming wash" && Lower("Wash") == "wash";
    assert OccursAt(name, "wash", 8);
  }

  lemma SerumFreeOfAllergen()
    ensures FreeOf("Wash", Serum)
  {
    var name := Lower("Niacinamide Serum");
    assert name == "niacinamide serum" && Lower("Wash") == "wash";
    AbsentCharNotContained(name, "wash", 'w');
  }

  lemma OilyCatalogWithoutWash()
    ensures Candidates(OilyCatalog, "Oily", "Acne", "Wash") == [Serum]
  {
    OilyCatalogFitsOilyAcne();
    WashHasAllergen();
    SerumFreeOfAllergen();
    assert OilyCatalog[..1] == [Wash];
    assert WithoutAllergen([Wash], "Wash") == [] by {
      assert [Wash][..0] == [];
    }
  }

  // The literal comes in as a pinned parameter so that the verifier does not unfold it.
  lemma SerumOnlyFirstRows(rows: seq<Product>)
    requires rows == [Serum]
    ensures FirstOfStep(rows, Cleanse) == None && FirstOfStep(rows, Treat) == Some(Serum)
    ensures FirstOfStep(rows, Moisturize) == None && FirstOfStep(rows, Protect) == None
  {
    NiacinamideSerumIsTreat();
  }

  /** Excluding "Wash" removes the only cleanser: every Cleanse slot is a
      placeholder while the serum still fills Treat.
      The catalog comes in as a pinned parameter so that the verifier does
      not unfold the literal. */
  lemma WashAllergenEmptiesCleanse(catalog: seq<Product>)
    requires catalog == OilyCatalog
    ensures var out := Recommend(catalog, "Oily", "Acne", "Wash");
      out == Routine([
        Slot(Morning, Cleanse, None), Slot(Morning, Treat, Some(Serum)), Slot(Morning, Protect, None),
        Slot(Evening, Cleanse, None), Slot(Evening, Treat, Some(Serum)), Slot(Evening, Moisturize, None),
        Slot(Night, Cleanse, None), Slot(Night, Moisturize, None)])
  {
    OilyCatalogWithoutWash();
    var rows := Candidates(catalog, "Oily", "Acne", "Wash");
    SerumOnlyFirstRows(rows);
    ScheduleSlotsUnfold(rows);
  }

  /** No row suits dry skin: the outcome is the single no-match error. */
  lemma DrySkinNoMatch()
    ensures Recommend(OilyCatalog, "Dry", "Acne", "") == NoMatch
  {
    assert Lower("Oily") == "oily" && Lower("Dry") == "dry";
    AbsentCharNotContained("oily", "dry", 'd');
    assert !FitsProfile("Dry", "Acne", Wash) && !FitsProfile("Dry", "Acne", Serum);
    FilterRejectAll(OilyCatalog, p => FitsProfile("Dry", "Acne", p));
  }

  lemma NightLotionIsMoisturize()
    ensures GetStepType("Night Lotion") == Moisturize
  {
    var name := Lower("Night Lotion");
    assert name == "night lotion";
    NoneContained(name, CleanseWords, "wcs");
    NoneContained(name, ["serum", "gel", "tonic"], "sec");
    AbsentPairNotContained(name, "oil");
    assert !Mentions("Night Lotion", TreatWords);
    assert name[6..] == "lotion";
    assert OccursAt(name, "lotion", 6);
    MoisturizeKeywordBeatsProtect("Night Lotion", "lotion");
  }

  // Five rows for dry skin that needs hydration; two of them moisturise.
  const DryWash := Product("Foaming Wash", Some("Dry"), Some("Hydration"), "", "")
  const HydraCream := Product("Hydra Cream", Some("Dry"), Some("Hydration"), "", "")
  const DrySerum := Product("Niacinamide Serum", Some("Dry"), Some("Hydration"), "", "")
  const DrySunscreen := Product("Daily Sunscreen", Some("Dry"), Some("Hydration"), "", "")
  const NightLotion := Product("Night Lotion", Some("Dry"), Some("Hydration"), "", "")
  const DryCatalog := [DryWash, HydraCream, DrySerum, DrySunscreen, NightLotion]

  lemma DryCatalogFitsDryHydration()
    ensures Candidates(DryCatalog, "Dry", "Hydration", "") == DryCatalog
  {
    assert OccursAt(Lower("Dry"), Lower("Dry"), 0);
    assert OccursAt(Lower("Hydration"), Lower("Hydration"), 0);
    assert forall p :: p in DryCatalog ==> FitsProfile("Dry", "Hydration", p);
    FilterAcceptAll(DryCatalog, p => FitsProfile("Dry", "Hydration", p));
  }

  lemma FirstOfSecondRow(rows: seq<Product>, step: Step)
    requires |rows| >= 2 && GetStepType(rows[0].name) != step && GetStepType(rows[1].name) == step
    ensures FirstOfStep(rows, step) == Some(rows[1])
  {
    assert IsFirstOfStep(rows, step, 1);
    FirstOfStepAt(rows, step, 1);
  }

  // The literal comes in as a pinned parameter so that the verifier does not unfold it.
  lemma HydraCreamComesFirst(rows: seq<Product>)
    requires rows == DryCatalog
    ensures FirstOfStep(rows, Moisturize) == Some(HydraCream)
  {
    assert rows[0].name == "Foaming Wash" && rows[1] == HydraCream;
    HydraCreamIsMoisturize();
    FoamingWashIsCleanse();
    FirstOfSecondRow(rows, Moisturize);
  }

  /** The evening and night Moisturize slots hold the first candidate
      of that step. */
  lemma MoisturizeSlots(catalog: seq<Product>, skinType: string, concern: string, allergy: string, first: Product)
    requires FirstOfStep(Candidates(catalog, skinType, concern, allergy), Moisturize) == Some(first)
    ensures var out := Recommend(catalog, skinType, concern, allergy);
      out.Routine? && |out.slots| == 8 &&
      out.slots[5] == Slot(Evening, Moisturize, Some(first)) &&
      out.slots[7] == Slot(Night, Moisturize, Some(first))
  {
    RecommendShape(catalog, skinType, concern, allergy);
  }

  /** Both moisturisers match; the earlier row, Hydra Cream, fills the
      evening and night Moisturize slots.
      The catalog comes in as a pinned parameter so that the verifier does
      not unfold the literal. */
  lemma EarlierMoisturizerWins(catalog: seq<Product>)
    requires catalog == DryCatalog
    ensures var out := Recommend(catalog, "Dry", "Hydration", "");
      out.Routine? && |out.slots| == 8 &&
      out.slots[5] == Slot(Evening, Moisturize, Some(HydraCream)) &&
      out.slots[7] == Slot(Night, Moisturize, Some(HydraCream))
  {
    DryCatalogFitsDryHydration();
    var rows := Candidates(catalog, "Dry", "Hydration", "");
    HydraCreamComesFirst(rows);
    MoisturizeSlots(catalog, "Dry", "Hydration", "", HydraCream);
  }
}
