/** The progress bar of a deal: a fixed, ordered list of four stages and a
    highlight rule that lights every step up to and including the current one. */
module DealPipeline {

  datatype Step = Step(key: string, caption: string)

  /** The steps, in display order. */
  const Steps: seq<Step> := [
    Step("submitted", "Submitted"),
    Step("matched", "Matched"),
    Step("reviewed", "Reviewed"),
    Step("closed", "Closed")
  ]

  /** `steps.findIndex(s => s.key === stage)`: the first position whose key is
      `stage`, or -1 when there is none. */
  function FindIndex(steps: seq<Step>, stage: string): (r: int)
    ensures -1 <= r < |steps|
    ensures r >= 0 ==> steps[r].key == stage
    ensures r >= 0 ==> forall j :: 0 <= j < r ==> steps[j].key != stage
    ensures r == -1 <==> forall j :: 0 <= j < |steps| ==> steps[j].key != stage
    decreases |steps|
  {
    if steps == [] then -1
    else if steps[0].key == stage then 0
    else
      var k := FindIndex(steps[1..], stage);
      if k == -1 then -1 else k + 1
  }

  predicate IsKnownStage(stage: string) {
    exists i :: 0 <= i < |Steps| && Steps[i].key == stage
  }

  /** `currentIndex` for the stage the pipeline is shown with: the position of
      the step whose key is `stage`, or -1 for a stage that is not a step. */
  function CurrentIndex(stage: string): (r: int)
    ensures -1 <= r < |Steps|
    ensures r >= 0 ==> Steps[r].key == stage
    ensures r == -1 <==> !IsKnownStage(stage)
  {
    FindIndex(Steps, stage)
  }

  /** Step `i` is drawn green. */
  predicate IsHighlighted(stage: string, i: int) {
    i <= CurrentIndex(stage)
  }

  /** The colour of each step, in order (`true` is green): a step is green
      exactly when the current stage is that step or a later one. */
  function Highlights(stage: string): (h: seq<bool>)
    ensures |h| == |Steps|
    ensures forall i :: 0 <= i < |Steps| ==>
      (h[i] <==> exists j :: i <= j < |Steps| && Steps[j].key == stage)
  {
    StepOrder();
    seq(|Steps|, i requires 0 <= i < |Steps| => IsHighlighted(stage, i))
  }

  /** The step keys are the four stages, in this order, and no key repeats. */
  lemma StepOrder()
    ensures |Steps| == 4
    ensures Steps[0].key == "submitted" && Steps[1].key == "matched"
    ensures Steps[2].key == "reviewed" && Steps[3].key == "closed"
    ensures forall i, j :: 0 <= i < j < |Steps| ==> Steps[i].key != Steps[j].key
  {
  }

  /** The lookup finds each step's own key at that step's position. */
  lemma {:induction false} CurrentIndexOfStep(i: int)
    requires 0 <= i < |Steps|
    ensures CurrentIndex(Steps[i].key) == i
  {
  }

  /** The highlighted steps are exactly the first `CurrentIndex(stage) + 1`. */
  lemma HighlightsArePrefix(stage: string)
    ensures var h := Highlights(stage);
      |h| == |Steps| &&
      forall i, j :: 0 <= i < j < |h| && h[j] ==> h[i]
    ensures var k := CurrentIndex(stage) + 1;
      Highlights(stage) == seq(k, _ => true) + seq(|Steps| - k, _ => false)
  {
    var h, k := Highlights(stage), CurrentIndex(stage) + 1;
    assert 0 <= k <= |Steps|;
    assert h == seq(k, _ => true) + seq(|Steps| - k, _ => false);
  }

  /** A known stage lights its own step and every earlier one, and no later one. */
  lemma KnownStageHighlights(stage: string)
    requires IsKnownStage(stage)
    ensures 0 <= CurrentIndex(stage) < |Steps| && Steps[CurrentIndex(stage)].key == stage
    ensures forall i :: 0 <= i < |Steps| ==>
      (Highlights(stage)[i] <==> i <= CurrentIndex(stage))
    ensures forall i :: CurrentIndex(stage) < i < |Steps| ==> !Highlights(stage)[i]
  {
  }

  /** An unknown stage lights nothing; "closed" lights all four steps. */
  lemma UnknownAndClosed(stage: string)
    ensures !IsKnownStage(stage) ==> forall i :: 0 <= i < |Steps| ==> !Highlights(stage)[i]
    ensures forall i :: 0 <= i < |Steps| ==> Highlights("closed")[i]
  {
  }

  /** A later stage lights at least what an earlier one does. */
  lemma HighlightsMonotone(earlier: string, later: string)
    requires CurrentIndex(earlier) <= CurrentIndex(later)
    ensures forall i :: 0 <= i < |Steps| && Highlights(earlier)[i] ==> Highlights(later)[i]
  {
  }
}
