/** The answer store: one row of answer cells per step, shaped by the step's
    kind, and the one-cell update every answer handler performs. */
module Answers {
  import opened JsValues
  import opened Catalog

  type Row = seq<JsValue>
  type Store = seq<Row>

  /** The value a fresh row of this step is filled with. */
  function Blank(s: Step): JsValue {
    match s
    case SingleSelect(_, _) => Undefined
    case MultiSelect(_, _) => Bool(false)
    case Planner(_, _) => Str("")
  }

  /** The values a cell of a step of this kind can hold. */
  predicate Fits(s: Step, v: JsValue) {
    match s
    case SingleSelect(_, _) => v == Undefined || v == Str("yes") || v == Str("no")
    case MultiSelect(_, _) => v.Bool?
    case Planner(_, _) => v.Str?
  }

  /** A row has one cell per item or field, each of the step's kind. */
  predicate RowConforms(s: Step, row: Row) {
    |row| == MaxScore(s) && forall j :: 0 <= j < |row| ==> Fits(s, row[j])
  }

  /** The store has one conforming row per step of the catalog. */
  predicate Conforms(catalog: seq<Step>, store: Store) {
    |store| == |catalog| && forall k :: 0 <= k < |store| ==> RowConforms(catalog[k], store[k])
  }

  /** `Array(n).fill(blank)` for one step. */
  function InitialRow(s: Step): Row {
    seq(MaxScore(s), _ => Blank(s))
  }

  /** The initial answer store built from the catalog's shape. */
  function InitialAnswers(catalog: seq<Step>): (store: Store)
    ensures Conforms(catalog, store)
    ensures forall k :: 0 <= k < |store| ==> |store[k]| == MaxScore(catalog[k])
    ensures forall k, j :: 0 <= k < |store| && 0 <= j < |store[k]| ==> store[k][j] == Blank(catalog[k])
  {
    seq(|catalog|, k requires 0 <= k < |catalog| => InitialRow(catalog[k]))
  }

  /** Copy every row, then overwrite the single cell [s][i] of the copy. */
  function Write(store: Store, s: nat, i: nat, v: JsValue): (r: Store)
    requires s < |store| && i < |store[s]|
    ensures |r| == |store|
    ensures forall k :: 0 <= k < |r| ==> |r[k]| == |store[k]|
    ensures r[s][i] == v
    ensures forall k, j :: 0 <= k < |r| && 0 <= j < |r[k]| && (k != s || j != i) ==> r[k][j] == store[k][j]
  {
    store[s := store[s][i := v]]
  }

  /** Writing a value of the step's kind keeps the store conforming. */
  lemma WriteConforms(catalog: seq<Step>, store: Store, s: nat, i: nat, v: JsValue)
    requires Conforms(catalog, store) && s < |store| && i < |store[s]|
    requires Fits(catalog[s], v)
    ensures Conforms(catalog, Write(store, s, i, v))
  {
  }

  /** Toggling a boolean cell twice restores the store. */
  lemma ToggleTwice(store: Store, s: nat, i: nat)
    requires s < |store| && i < |store[s]| && store[s][i].Bool?
    ensures var once := Write(store, s, i, Not(store[s][i]));
            Write(once, s, i, Not(once[s][i])) == store
  {
    var once := Write(store, s, i, Not(store[s][i]));
    assert Not(once[s][i]) == store[s][i];
    assert once[s][i := store[s][i]] == store[s];
  }
}
