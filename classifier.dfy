/** The step classifier: a product's display name decides which routine
    step the product fills, by keyword groups tried in a fixed order. */
module Classifier {
  import opened Text

  datatype Step = Cleanse | Treat | Moisturize | Protect

  /** One keyword group and the step it selects. */
  datatype Rule = Rule(step: Step, keywords: seq<string>)

  const CleanseWords: seq<string> := ["wash", "cleanser", "soap"]
  const TreatWords: seq<string> := ["serum", "gel", "tonic", "oil"]
  const MoisturizeWords: seq<string> := ["cream", "moisturizer", "lotion"]
  const ProtectWords: seq<string> := ["sunscreen", "spf"]

  /** The keyword groups, in the order the classifier tries them. */
  const Rules: seq<Rule> :=
    [Rule(Cleanse, CleanseWords), Rule(Treat, TreatWords),
     Rule(Moisturize, MoisturizeWords), Rule(Protect, ProtectWords)]

  /** The step of a name that no keyword group matches. */
  const DefaultStep: Step := Treat

  /** `any(x in name for x in words)`: some word occurs in `name`. */
  function AnyIn(words: seq<string>, name: string): (b: bool)
    ensures b <==> exists k :: 0 <= k < |words| && Contains(name, words[k])
  {
    if words == [] then false
    else Contains(name, words[0]) || AnyIn(words[1..], name)
  }

  /** One of `words` occurs in the lower-cased product name. */
  ghost predicate Mentions(productName: string, words: seq<string>)
  {
    exists j :: 0 <= j < |words| && Contains(Lower(productName), words[j])
  }

  /** Rule `k` fires on a product name. */
  ghost predicate Fires(productName: string, k: int)
  {
    0 <= k < |Rules| && Mentions(productName, Rules[k].keywords)
  }

  /** `get_step_type`: the step of the first rule that fires, or the
      default step when none does. */
  function GetStepType(productName: string): (r: Step)
    ensures forall k :: Fires(productName, k) && (forall j :: 0 <= j < k ==> !Fires(productName, j)) ==>
      r == Rules[k].step
    ensures !Fires(productName, 0) && !Fires(productName, 1) && !Fires(productName, 2) && !Fires(productName, 3) ==>
      r == DefaultStep
  {
    var name := Lower(productName);
    assert Fires(productName, 0) <==> AnyIn(CleanseWords, name);
    assert Fires(productName, 1) <==> AnyIn(TreatWords, name);
    assert Fires(productName, 2) <==> AnyIn(MoisturizeWords, name);
    assert Fires(productName, 3) <==> AnyIn(ProtectWords, name);
    if AnyIn(CleanseWords, name) then Cleanse
    else if AnyIn(TreatWords, name) then Treat
    else if AnyIn(MoisturizeWords, name) then Moisturize
    else if AnyIn(ProtectWords, name) then Protect
    else Treat
  }

  /** A cleansing keyword decides Cleanse, whatever else the name says. */
  lemma CleanseKeywordWins(productName: string, word: string)
    requires word in CleanseWords && Contains(Lower(productName), word)
    ensures GetStepType(productName) == Cleanse
  {
    var j :| 0 <= j < |CleanseWords| && CleanseWords[j] == word;
    assert Fires(productName, 0);
  }

  /** Without a cleansing keyword, a treatment keyword decides Treat, even
      when a moisturising or sun-protection keyword is present too. */
  lemma TreatKeywordBeatsLaterGroups(productName: string, word: string)
    requires word in TreatWords && Contains(Lower(productName), word)
    requires !Mentions(productName, CleanseWords)
    ensures GetStepType(productName) == Treat
  {
    var j :| 0 <= j < |TreatWords| && TreatWords[j] == word;
    assert Fires(productName, 1);
    assert !Fires(productName, 0);
  }

  /** A moisturising keyword decides Moisturize only when neither earlier
      group matches; it beats a sun-protection keyword. */
  lemma MoisturizeKeywordBeatsProtect(productName: string, word: string)
    requires word in MoisturizeWords && Contains(Lower(productName), word)
    requires !Mentions(productName, CleanseWords) && !Mentions(productName, TreatWords)
    ensures GetStepType(productName) == Moisturize
  {
    var j :| 0 <= j < |MoisturizeWords| && MoisturizeWords[j] == word;
    assert Fires(productName, 2);
    assert !Fires(productName, 0) && !Fires(productName, 1);
  }

  /** A name with no keyword of any group gets the default step, Treat. */
  lemma UnmatchedNameIsTreat(productName: string)
    requires !Mentions(productName, CleanseWords) && !Mentions(productName, TreatWords)
    requires !Mentions(productName, MoisturizeWords) && !Mentions(productName, ProtectWords)
    ensures GetStepType(productName) == Treat
  {
    assert forall k :: 0 <= k < |Rules| ==> !Fires(productName, k) by {
      assert Rules[0].keywords == CleanseWords && Rules[1].keywords == TreatWords;
      assert Rules[2].keywords == MoisturizeWords && Rules[3].keywords == ProtectWords;
    }
  }

  /** Classification reads only the lower-cased name: names that differ
      only in letter case get the same step. */
  lemma {:induction false} ClassifyIgnoresCase(a: string, b: string)
    requires EqualIgnoringCase(a, b)
    ensures GetStepType(a) == GetStepType(b)
  {
    LowerEqualIgnoringCase(a, b);
  }

  /** Classifying the lower-cased name gives the same step. */
  lemma ClassifyLowerCaseName(productName: string)
    ensures GetStepType(Lower(productName)) == GetStepType(productName)
  {
    LowerIdempotent(productName);
    assert EqualIgnoringCase(Lower(productName), productName);
    ClassifyIgnoresCase(Lower(productName), productName);
  }
}
