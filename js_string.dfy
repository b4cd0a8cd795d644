/**
 * The few JavaScript built-ins the worker relies on: `String.prototype.startsWith`,
 * `String.prototype.includes`, and the truthiness test behind `!x` and `x || y`.
 */
module JsString {

  /** `s.startsWith(p)`: `p` is a prefix of `s`. */
  predicate StartsWith(s: string, p: string)
    ensures StartsWith(s, p) <==> OccursAt(s, p, 0)
  {
    |p| <= |s| && s[..|p|] == p
  }

  /** `p` occurs in `s` starting at index `i`. */
  predicate OccursAt(s: string, p: string, i: int)
  {
    0 <= i && i + |p| <= |s| && s[i..i + |p|] == p
  }

  lemma OccursAtShift(s: string, p: string, i: int)
    requires |s| > 0 && i >= 0
    ensures OccursAt(s[1..], p, i) <==> OccursAt(s, p, i + 1)
  {
    if 0 <= i && i + |p| <= |s| - 1 {
      assert s[1..][i..i + |p|] == s[i + 1..i + 1 + |p|];
    }
  }

  /** `s.includes(p)`, computed by scanning `s` from the left. */
  function Includes(s: string, p: string): (b: bool)
    ensures b <==> exists i :: OccursAt(s, p, i)
    decreases |s|
  {
    if |p| > |s| then
      assert forall i :: !OccursAt(s, p, i);
      false
    else if StartsWith(s, p) then
      assert OccursAt(s, p, 0);
      true
    else
      var b := Includes(s[1..], p);
      assert b ==> exists i :: OccursAt(s, p, i) by {
        if b {
          var i :| OccursAt(s[1..], p, i);
          OccursAtShift(s, p, i);
        }
      }
      assert !b ==> forall i :: !OccursAt(s, p, i) by {
        if !b {
          forall i ensures !OccursAt(s, p, i) {
            if i > 0 { OccursAtShift(s, p, i - 1); }
          }
        }
      }
      b
  }

  /**
   * The JSON values a request body's `domain` property can hold, including
   * `undefined` when the property is absent. Numbers are integers here; NaN and
   * fractions are not modelled.
   */
  datatype JsValue =
    | JsUndefined
    | JsNull
    | JsBool(b: bool)
    | JsNumber(n: int)
    | JsStr(s: string)
    | JsObject

  /** JavaScript truthiness: `undefined`, `null`, `false`, `0` and `""` are falsy. */
  predicate Truthy(v: JsValue)
    ensures !Truthy(v) <==> v in {JsUndefined, JsNull, JsBool(false), JsNumber(0), JsStr("")}
  {
    match v
    case JsUndefined => false
    case JsNull => false
    case JsBool(b) => b
    case JsNumber(n) => n != 0
    case JsStr(s) => s != ""
    case JsObject => true
  }
}
