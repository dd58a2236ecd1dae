/** Forward gating: whether the Next / Finish button is enabled on a step. */
module Gating {
  import opened JsValues
  import opened Catalog
  import opened Answers
  import opened Scoring

  /** `row.some((a) => a)`. */
  function AnyTruthy(row: Row): (r: bool)
    ensures r <==> exists j :: 0 <= j < |row| && Truthy(row[j])
  {
    if row == [] then false
    else if Truthy(row[0]) then true
    else
      assert forall j :: 1 <= j < |row| ==> row[j] == row[1..][j - 1];
      AnyTruthy(row[1..])
  }

  /** `row.every((a) => a !== undefined)`. */
  function AllDefined(row: Row): (r: bool)
    ensures r <==> forall j :: 0 <= j < |row| ==> row[j] != Undefined
  {
    if row == [] then true
    else if row[0] == Undefined then false
    else
      assert forall j :: 1 <= j < |row| ==> row[j] == row[1..][j - 1];
      AllDefined(row[1..])
  }

  /** `canNext`: always on a planner; at least one truthy cell on a
      multi-select step; no unanswered cell on a single-select step. */
  function CanNext(s: Step, row: Row): (r: bool)
    ensures s.Planner? ==> r
    ensures s.MultiSelect? ==> (r <==> exists j :: 0 <= j < |row| && Truthy(row[j]))
    ensures s.SingleSelect? ==> (r <==> forall j :: 0 <= j < |row| ==> row[j] != Undefined)
  {
    match s
    case Planner(_, _) => true
    case MultiSelect(_, _) => AnyTruthy(row)
    case SingleSelect(_, _) => AllDefined(row)
  }

  /** On a multi-select step the gate is open exactly when the score is
      positive. */
  lemma MultiGateIffPositiveScore(s: Step, row: Row)
    requires s.MultiSelect?
    ensures CanNext(s, row) <==> CalcScore(Some(row), s) > 0
  {
    FilterNone(row, Truthy);
  }

  /** A fresh row opens the gate of a planner step; an untouched checklist
      blocks, except a single-select checklist without items (`every` on an
      empty array holds, `some` does not). */
  lemma FreshGate(s: Step)
    ensures CanNext(s, InitialRow(s)) <==> (s.Planner? || (s.SingleSelect? && MaxScore(s) == 0))
  {
  }

  /** Answering a single-select item never closes the gate, and answering the
      last unanswered item opens it. */
  lemma AnswerOpensSingleGate(s: Step, row: Row, i: nat, val: string)
    requires s.SingleSelect? && i < |row| && (val == "yes" || val == "no")
    ensures CanNext(s, row) ==> CanNext(s, row[i := Str(val)])
    ensures (forall j :: 0 <= j < |row| && j != i ==> row[j] != Undefined) ==> CanNext(s, row[i := Str(val)])
    ensures row[i] == Undefined ==> !CanNext(s, row)
  {
  }

  /** On a multi-select step with nothing selected, one toggle opens the gate,
      and toggling the same box back closes it again. */
  lemma ToggleOpensMultiGate(s: Step, row: Row, i: nat)
    requires s.MultiSelect? && RowConforms(s, row) && i < |row|
    requires forall j :: 0 <= j < |row| ==> row[j] == Bool(false)
    ensures !CanNext(s, row)
    ensures CanNext(s, row[i := Not(row[i])])
    ensures !CanNext(s, row[i := Not(row[i])][i := Not(row[i := Not(row[i])][i])])
  {
    var once := row[i := Not(row[i])];
    assert Truthy(once[i]);
    var twice := once[i := Not(once[i])];
    assert twice == row;
  }
}
