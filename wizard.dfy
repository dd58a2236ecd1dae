/** The wizard's session state (`step`, `showSummary`, `answers`) and the
    handlers that change it. */
module Session {
  import opened JsValues
  import opened Catalog
  import opened Answers
  import Scoring
  import Gating

  class Wizard {
    const catalog: seq<Step>
    var step: nat
    var showSummary: bool
    var answers: Store

    /** The session invariant: the step index is in range, the store keeps
        its shape, and the summary is only ever shown from the last step. */
    ghost predicate Valid()
      reads this
    {
      0 < |catalog| && step < |catalog| && Conforms(catalog, answers) &&
      (showSummary ==> step == |catalog| - 1)
    }

    /** Fresh session: step 0, no summary, every row initialised. */
    constructor (catalog: seq<Step>)
      requires 0 < |catalog|
      ensures Valid()
      ensures this.catalog == catalog
      ensures step == 0 && !showSummary && answers == InitialAnswers(catalog)
    {
      this.catalog := catalog;
      step := 0;
      showSummary := false;
      answers := InitialAnswers(catalog);
    }

    /** `score` for the current step: at most `maxScore`, equal to it only
        when every cell is "yes" (every box ticked on a multi-select step),
        and positive on a multi-select step exactly when Next is enabled. */
    function Score(): (score: nat)
      reads this
      requires Valid()
      ensures score <= Max()
      ensures score == Max() <==>
                forall j :: 0 <= j < |answers[step]| ==>
                  answers[step][j] == (if catalog[step].MultiSelect? then Bool(true) else Str("yes"))
      ensures catalog[step].MultiSelect? ==> (score > 0 <==> CanNext())
    {
      Scoring.FullScoreIff(catalog[step], answers[step]);
      if catalog[step].MultiSelect? then
        Gating.MultiGateIffPositiveScore(catalog[step], answers[step]);
        Scoring.CalcScore(Some(answers[step]), catalog[step])
      else
        Scoring.CalcScore(Some(answers[step]), catalog[step])
    }

    /** `maxScore` for the current step: the length of its answer row. */
    function Max(): (max: nat)
      reads this
      requires Valid()
      ensures max == |answers[step]|
    {
      MaxScore(catalog[step])
    }

    /** `canNext` for the current step. */
    predicate CanNext()
      reads this
      requires Valid()
      ensures catalog[step].Planner? ==> CanNext()
      ensures catalog[step].MultiSelect? ==>
                (CanNext() <==> exists j :: 0 <= j < |answers[step]| && Truthy(answers[step][j]))
      ensures catalog[step].SingleSelect? ==>
                (CanNext() <==> forall j :: 0 <= j < |answers[step]| ==> answers[step][j] != Undefined)
    {
      Gating.CanNext(catalog[step], answers[step])
    }

    /** `handleRadio`: answer item `i` of the current single-select step. */
    method HandleRadio(i: nat, val: string)
      requires Valid() && catalog[step].SingleSelect?
      requires i < |answers[step]| && (val == "yes" || val == "no")
      modifies this
      ensures Valid()
      ensures step == old(step) && showSummary == old(showSummary)
      ensures answers == Write(old(answers), step, i, Str(val))
      ensures answers[step] == old(answers)[step][i := Str(val)]
    {
      answers := Write(answers, step, i, Str(val));
    }

    /** `handleMulti`: flip box `i` of the current multi-select step. */
    method HandleMulti(i: nat)
      requires Valid() && catalog[step].MultiSelect?
      requires i < |answers[step]|
      modifies this
      ensures Valid()
      ensures step == old(step) && showSummary == old(showSummary)
      ensures answers == Write(old(answers), step, i, Not(old(answers)[step][i]))
      ensures answers[step] == old(answers)[step][i := Bool(!old(answers)[step][i].b)]
    {
      answers := Write(answers, step, i, Not(answers[step][i]));
    }

    /** `handleField`: replace the text of field `i` of the current planner
        step, verbatim. */
    method HandleField(i: nat, val: string)
      requires Valid() && catalog[step].Planner?
      requires i < |answers[step]|
      modifies this
      ensures Valid()
      ensures step == old(step) && showSummary == old(showSummary)
      ensures answers == Write(old(answers), step, i, Str(val))
      ensures answers[step] == old(answers)[step][i := Str(val)]
    {
      answers := Write(answers, step, i, Str(val));
    }

    /** `handleNext`, reachable only while the gate is open: the last step
        shows the summary, any other step moves one forward. */
    method HandleNext()
      requires Valid() && !showSummary && CanNext()
      modifies this
      ensures Valid()
      ensures answers == old(answers)
      ensures old(step) == |catalog| - 1 ==> showSummary && step == old(step)
      ensures old(step) < |catalog| - 1 ==> !showSummary && step == old(step) + 1
    {
      if step == |catalog| - 1 {
        showSummary := true;
      } else {
        step := step + 1;
      }
    }

    /** The Previous button: one step back, staying at step 0. */
    method Previous()
      requires Valid() && !showSummary
      modifies this
      ensures Valid()
      ensures step == if old(step) == 0 then 0 else old(step) - 1
      ensures showSummary == old(showSummary) && answers == old(answers)
    {
      step := if step - 1 > 0 then step - 1 else 0;
    }

    /** A tab: jump to any step, whatever has been answered. */
    method JumpTo(i: nat)
      requires Valid() && !showSummary && i < |catalog|
      modifies this
      ensures Valid()
      ensures step == i
      ensures showSummary == old(showSummary) && answers == old(answers)
    {
      step := i;
    }

    /** Edit Answers: leave the summary for step 0, keeping every answer. */
    method EditAnswers()
      requires Valid() && showSummary
      modifies this
      ensures Valid()
      ensures step == 0 && !showSummary
      ensures answers == old(answers)
    {
      showSummary := false;
      step := 0;
    }
  }
}
