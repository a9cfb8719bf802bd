/** The output toxicity filter: a text classifier labels the generated answer
    and the filter turns its first result into a yes/no decision. */
module ToxicFiltering {
  import opened Strings

  /** One result of the text classifier: its label (`category`, since `label` is a Dafny keyword) and a score in [0, 1]. */
  datatype Classification = Classification(category: string, score: real)

  const DefaultThreshold: real := 0.7
  const ToxicWord: string := "toxic"

  /** The decision on one classifier result: the lower-cased label contains
      "toxic" and the score reaches the threshold (inclusive). */
  predicate Flags(result: Classification, threshold: real)
  {
    Contains(Lower(result.category), ToxicWord) && result.score >= threshold
  }

  /** The decision on a classifier's output: only its first result counts. */
  predicate Decide(results: seq<Classification>, threshold: real)
    requires |results| > 0
  {
    Flags(results[0], threshold)
  }

  class ToxicFilter {
    const threshold: real
    /** The classifier, as an oracle from text to its list of results. */
    const classify: string -> seq<Classification>

    constructor (classify: string -> seq<Classification>, threshold: real := DefaultThreshold)
      requires forall text :: |classify(text)| > 0
      ensures this.classify == classify && this.threshold == threshold
      ensures Valid()
    {
      this.classify := classify;
      this.threshold := threshold;
    }

    /** The classifier returns at least one result for every text. */
    ghost predicate Valid()
    {
      forall text :: |classify(text)| > 0
    }

    /** `is_toxic`: the filter's decision on the classifier's first result. */
    predicate IsToxic(text: string)
      requires |classify(text)| > 0
    {
      Decide(classify(text), threshold)
    }
  }

  /** The label test is on the lower-cased label: "toxic" in any letter case
      is recognised. */
  lemma {:induction false} LabelCaseIgnored(name: string, other: string, score: real, threshold: real)
    requires |name| == |other|
    requires forall i :: 0 <= i < |name| ==> LowerChar(name[i]) == LowerChar(other[i])
    ensures Flags(Classification(name, score), threshold) == Flags(Classification(other, score), threshold)
  {
    assert Lower(name) == Lower(other);
  }

  /** A score exactly at the threshold is flagged when the label says toxic. */
  lemma ThresholdIsInclusive(name: string, threshold: real)
    requires Contains(Lower(name), ToxicWord)
    ensures Flags(Classification(name, threshold), threshold)
  {
  }

  /** The five characters of `s` from `i` on spell "toxic" in some letter case. */
  predicate SpellsToxicAt(s: string, i: nat)
  {
    i + |ToxicWord| <= |s| && Lower(s[i..i + |ToxicWord|]) == ToxicWord
  }

  /** A label with no run of five letters spelling "toxic" in any case is
      never flagged, whatever its score. */
  lemma NoToxicWordNeverFlagged(result: Classification, threshold: real)
    requires forall i :: 0 <= i <= |result.category| ==> !SpellsToxicAt(result.category, i)
    ensures !Flags(result, threshold)
  {
    if Contains(Lower(result.category), ToxicWord) {
      var i :| 0 <= i <= |Lower(result.category)| && OccursAt(Lower(result.category), ToxicWord, i);
      LowerSlice(result.category, i, i + 5);
      assert SpellsToxicAt(result.category, i);
    }
  }

  /** Because the label test is a substring test, a "non-toxic" label with a
      score at or above the threshold is reported toxic. */
  lemma NonToxicLabelIsFlagged(score: real, threshold: real)
    requires score >= threshold
    ensures Flags(Classification("non-toxic", score), threshold)
  {
    var l := Lower("non-toxic");
    assert l == "non-toxic";
    assert l[4..9] == ToxicWord;
    assert OccursAt(l, ToxicWord, 4);
  }

  /** A higher score or a lower threshold never turns a flagged result into an
      unflagged one. */
  lemma FlagsMonotone(result: Classification, threshold: real, score: real, lower: real)
    requires Flags(result, threshold)
    requires score >= result.score && lower <= threshold
    ensures Flags(result.(score := score), lower)
  {
  }

  /** Results after the first are never consulted: two outputs with the same
      first result get the same decision. */
  lemma OnlyFirstResultCounts(results: seq<Classification>, others: seq<Classification>, threshold: real)
    requires |results| > 0 && |others| > 0 && results[0] == others[0]
    ensures Decide(results, threshold) == Decide(others, threshold)
  {
  }

  /** A toxic second result does not flag an output whose first result is
      neutral. */
  lemma LaterToxicResultIgnored(first: Classification, rest: seq<Classification>, threshold: real)
    requires first.category == "neutral"
    ensures !Decide([first] + rest, threshold)
  {
    assert ([first] + rest)[0] == first;
    var l := Lower(first.category);
    assert l == "neutral";
    forall i | 0 <= i <= |l| ensures !OccursAt(l, ToxicWord, i) {
      if i + 5 <= |l| {
        assert l[i] != 't';
        assert l[i..i + 5][0] == l[i];
      }
    }
  }
}
