/** The JavaScript values that occur in the wizard's answer store, and the
    few JavaScript operators the wizard applies to them. */
module JsValues {

  datatype Option<T> = None | Some(value: T)

  /** An answer cell: `undefined` (an unanswered yes/no item), a boolean
      (a multi-select box) or a string ("yes"/"no", or planner text). */
  datatype JsValue = Undefined | Bool(b: bool) | Str(s: string)

  /** JavaScript truthiness, `!!v`. */
  predicate Truthy(v: JsValue) {
    match v
    case Undefined => false
    case Bool(b) => b
    case Str(s) => s != ""
  }

  /** Strict equality with the string "yes", `v === "yes"`. */
  predicate IsYes(v: JsValue) {
    v == Str("yes")
  }

  /** Logical negation as a value, `!v`. */
  function Not(v: JsValue): JsValue {
    Bool(!Truthy(v))
  }

  /** Reading `row[i]`: an index past the end of an array gives `undefined`. */
  function At(row: seq<JsValue>, i: nat): JsValue {
    if i < |row| then row[i] else Undefined
  }

  /** The array without its first element (`undefined` reads stay `undefined`). */
  function Rest(row: seq<JsValue>): seq<JsValue> {
    if row == [] then [] else row[1..]
  }

  /** `Array.prototype.filter`. */
  function Filter(row: seq<JsValue>, p: JsValue -> bool): (r: seq<JsValue>)
    ensures |r| <= |row|
    ensures forall k :: 0 <= k < |r| ==> p(r[k])
  {
    if row == [] then []
    else (if p(row[0]) then [row[0]] else []) + Filter(row[1..], p)
  }

  /** 1 for true, 0 for false. */
  function Ind(b: bool): nat {
    if b then 1 else 0
  }

  /** The filtered length counts exactly the elements that pass. */
  lemma {:induction false} FilterAll(row: seq<JsValue>, p: JsValue -> bool)
    ensures |Filter(row, p)| == |row| <==> forall k :: 0 <= k < |row| ==> p(row[k])
  {
    if row != [] {
      FilterAll(row[1..], p);
      if !p(row[0]) {
        assert |Filter(row, p)| == |Filter(row[1..], p)| <= |row| - 1;
      } else {
        assert forall k :: 1 <= k < |row| ==> row[k] == row[1..][k - 1];
      }
    }
  }

  lemma {:induction false} FilterNone(row: seq<JsValue>, p: JsValue -> bool)
    ensures |Filter(row, p)| == 0 <==> forall k :: 0 <= k < |row| ==> !p(row[k])
  {
    if row != [] {
      FilterNone(row[1..], p);
      assert forall k :: 1 <= k < |row| ==> row[k] == row[1..][k - 1];
    }
  }

  /** Overwriting one element changes the filtered length by what that one
      element contributes before and after. */
  lemma {:induction false} FilterAfterWrite(row: seq<JsValue>, i: nat, v: JsValue, p: JsValue -> bool)
    requires i < |row|
    ensures |Filter(row[i := v], p)| + Ind(p(row[i])) == |Filter(row, p)| + Ind(p(v))
  {
    if i == 0 {
      assert row[i := v][1..] == row[1..];
    } else {
      assert row[i := v][1..] == row[1..][i - 1 := v];
      FilterAfterWrite(row[1..], i - 1, v, p);
    }
  }
}
