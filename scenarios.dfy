/** Sessions driven through the handlers on the wizard's own catalog, and
    what a caller of the handlers can conclude from their contracts alone. */
module Scenarios {
  import opened JsValues
  import opened Catalog
  import opened Answers
  import opened Session

  /** Step 0 has five yes/no items: with items 0-3 answered "yes" and item 4
      open the gate is closed; answering item 4 "no" opens it, at 4 of 5. */
  method FirstStepScenario(catalog: seq<Step>) returns (openBefore: bool, openAfter: bool, score: nat, max: nat)
    requires 0 < |catalog| && catalog[0].SingleSelect? && |catalog[0].checklist| == 5
    ensures !openBefore && openAfter
    ensures score == 4 && max == 5
  {
    var w := new Wizard(catalog);
    ghost var s := catalog[0];
    ghost var r0 := w.answers[0];
    assert r0 == InitialRow(s);
    Scoring.FreshScoresZero(s);
    w.HandleRadio(0, "yes");
    ghost var r1 := w.answers[0];
    Scoring.ScoreAfterWrite(s, r0, 0, Str("yes"));
    w.HandleRadio(1, "yes");
    ghost var r2 := w.answers[0];
    Scoring.ScoreAfterWrite(s, r1, 1, Str("yes"));
    w.HandleRadio(2, "yes");
    ghost var r3 := w.answers[0];
    Scoring.ScoreAfterWrite(s, r2, 2, Str("yes"));
    w.HandleRadio(3, "yes");
    ghost var r4 := w.answers[0];
    Scoring.ScoreAfterWrite(s, r3, 3, Str("yes"));
    openBefore := w.CanNext();
    assert !openBefore by {
      assert r4[4] == Undefined;
    }
    w.HandleRadio(4, "no");
    ghost var r5 := w.answers[0];
    Scoring.ScoreAfterWrite(s, r4, 4, Str("no"));
    openAfter := w.CanNext();
    assert openAfter by {
      assert |r5| == 5;
      assert r5[0] == r5[1] == r5[2] == r5[3] == Str("yes") && r5[4] == Str("no");
    }
    score, max := w.Score(), w.Max();
  }

  /** On the six-item multi-select step (reached by its tab), ticking boxes
      1 and 3 scores 2 of 6 and opens the gate. */
  method PathwayScenario(catalog: seq<Step>) returns (open: bool, score: nat, max: nat)
    requires 3 < |catalog| && catalog[3].MultiSelect? && |catalog[3].checklist| == 6
    ensures open && score == 2 && max == 6
  {
    var w := new Wizard(catalog);
    ghost var s := catalog[3];
    w.JumpTo(3);
    ghost var r0 := w.answers[3];
    assert r0 == InitialRow(s);
    Scoring.FreshScoresZero(s);
    w.HandleMulti(1);
    ghost var r1 := w.answers[3];
    Scoring.ToggleShiftsScore(s, r0, 1);
    w.HandleMulti(3);
    Scoring.ToggleShiftsScore(s, r1, 3);
    open := w.CanNext();
    assert open by {
      assert Truthy(w.answers[3][1]);
    }
    score, max := w.Score(), w.Max();
  }

  /** On a fresh multi-select step, ticking one box opens the gate, and
      unticking it again, with no other box ticked, closes it. */
  method TickUntickScenario(catalog: seq<Step>, k: nat, i: nat) returns (openTicked: bool, openUnticked: bool)
    requires k < |catalog| && catalog[k].MultiSelect? && i < |catalog[k].checklist|
    ensures openTicked && !openUnticked
  {
    var w := new Wizard(catalog);
    w.JumpTo(k);
    w.HandleMulti(i);
    openTicked := w.CanNext();
    assert openTicked by {
      assert Truthy(w.answers[k][i]);
    }
    w.HandleMulti(i);
    openUnticked := w.CanNext();
    assert !openUnticked by {
      assert forall j :: 0 <= j < |w.answers[k]| ==> !Truthy(w.answers[k][j]);
    }
  }

  /** Two toggles of the same box leave every answer as it was. */
  method ToggleBoxTwice(w: Wizard, i: nat)
    requires w.Valid() && w.catalog[w.step].MultiSelect? && i < |w.answers[w.step]|
    modifies w
    ensures w.Valid()
    ensures w.answers == old(w.answers) && w.step == old(w.step)
  {
    ToggleTwice(w.answers, w.step, i);
    w.HandleMulti(i);
    w.HandleMulti(i);
  }
}
