/** The readiness score shown beside each step: `calcScore` and its bounds. */
module Scoring {
  import opened JsValues
  import opened Catalog
  import opened Answers

  /** `calcScore`: 0 for an absent row; the number of truthy cells on a
      multi-select step; otherwise the number of cells equal to "yes". A
      planner step takes the second branch, so its progress counts the
      fields whose text is exactly "yes". */
  function CalcScore(ansArr: Option<Row>, s: Step): (score: nat)
    ensures ansArr.None? ==> score == 0
    ensures ansArr.Some? ==> score <= |ansArr.value|
  {
    match ansArr
    case None => 0
    case Some(row) =>
      if s.MultiSelect? then |Filter(row, Truthy)| else |Filter(row, IsYes)|
  }

  /** Whether a cell adds one to the score of step `s`. */
  predicate Counts(s: Step, v: JsValue) {
    if s.MultiSelect? then Truthy(v) else IsYes(v)
  }

  /** A conforming row never scores above `maxScore`. */
  lemma ScoreWithinMax(s: Step, row: Row)
    requires RowConforms(s, row)
    ensures 0 <= CalcScore(Some(row), s) <= MaxScore(s)
  {
  }

  /** A freshly initialised row of any step scores 0. */
  lemma FreshScoresZero(s: Step)
    ensures CalcScore(Some(InitialRow(s)), s) == 0
  {
    var row := InitialRow(s);
    if s.MultiSelect? {
      FilterNone(row, Truthy);
    } else {
      FilterNone(row, IsYes);
    }
  }

  /** A conforming row reaches `maxScore` exactly when every cell is "yes"
      (single-select and, literally, planner steps) or every box is ticked
      (multi-select steps). */
  lemma FullScoreIff(s: Step, row: Row)
    requires RowConforms(s, row)
    ensures CalcScore(Some(row), s) == MaxScore(s) <==>
            forall j :: 0 <= j < |row| ==> row[j] == (if s.MultiSelect? then Bool(true) else Str("yes"))
  {
    if s.MultiSelect? {
      FilterAll(row, Truthy);
    } else {
      FilterAll(row, IsYes);
    }
  }

  /** Overwriting one cell changes the score only by what that cell counts
      before and after: every answer moves the score by at most one. */
  lemma ScoreAfterWrite(s: Step, row: Row, i: nat, v: JsValue)
    requires i < |row|
    ensures CalcScore(Some(row[i := v]), s) + Ind(Counts(s, row[i])) ==
            CalcScore(Some(row), s) + Ind(Counts(s, v))
  {
    if s.MultiSelect? {
      FilterAfterWrite(row, i, v, Truthy);
    } else {
      FilterAfterWrite(row, i, v, IsYes);
    }
  }

  /** On a multi-select step a toggle moves the score by exactly one. */
  lemma ToggleShiftsScore(s: Step, row: Row, i: nat)
    requires s.MultiSelect? && i < |row|
    ensures CalcScore(Some(row[i := Not(row[i])]), s) ==
            if Truthy(row[i]) then CalcScore(Some(row), s) - 1 else CalcScore(Some(row), s) + 1
  {
    ScoreAfterWrite(s, row, i, Not(row[i]));
  }

  /** The planner's progress ignores filled-in text: a planner whose fields
      all hold text other than "yes" scores 0, however much was entered. */
  lemma PlannerProgressCountsLiteralYes(s: Step, row: Row)
    requires s.Planner? && RowConforms(s, row)
    requires forall j :: 0 <= j < |row| ==> row[j] != Str("yes")
    ensures CalcScore(Some(row), s) == 0
  {
    FilterNone(row, IsYes);
  }
}
