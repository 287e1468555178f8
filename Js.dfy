/**
 * The small part of JavaScript's value semantics that the launcher and the
 * dimension resolver rely on: values that may be `undefined` or `null`,
 * truthiness, template-string rendering, `Array.prototype.find` and
 * `String.prototype.includes`.
 */
module Js {

  datatype Option<+T> = None | Some(value: T)

  /** A JavaScript value as far as this model needs one. Numbers are the
      integral ones. */
  datatype Value = Undefined | Null | Bool(b: bool) | Num(n: int) | Str(text: string)

  /** A plain object: its own keys and their values. A key that was assigned
      `undefined` is still a key of the object. */
  type Object = map<string, Value>

  /** JavaScript truthiness (`if (v)`, `v || …`). */
  predicate Truthy(v: Value)
  {
    match v
    case Undefined => false
    case Null => false
    case Bool(b) => b
    case Num(n) => n != 0
    case Str(s) => s != ""
  }

  /** `v || w`: `v` itself when it is truthy, `w` otherwise. */
  function Or(v: Value, w: Value): Value
  {
    if Truthy(v) then v else w
  }

  /** `${v}` inside a template literal. */
  function Template(v: Value): string
  {
    match v
    case Undefined => "undefined"
    case Null => "null"
    case Bool(b) => if b then "true" else "false"
    case Num(n) => if n < 0 then "-" + Digits(-n) else Digits(n)
    case Str(s) => s
  }

  /** The decimal digits of `n`, most significant first, with no leading
      zero. */
  function Digits(n: nat): (d: string)
    ensures |d| > 0 && (forall i :: 0 <= i < |d| ==> '0' <= d[i] <= '9')
    ensures |d| > 1 ==> d[0] != '0'
  {
    if n < 10 then [Digit(n)] else Digits(n / 10) + [Digit(n % 10)]
  }

  function Digit(n: nat): (c: char)
    requires n < 10
    ensures '0' <= c <= '9'
  {
    "0123456789"[n]
  }

  /** Property access `obj[key]`: a missing key reads as `undefined`. */
  function Get(obj: Object, key: string): Value
  {
    if key in obj then obj[key] else Undefined
  }

  /** `s.find(p)`: the first element satisfying `p`, if any. */
  function Find<T>(s: seq<T>, p: T -> bool): (r: Option<T>)
    ensures r.None? <==> forall i :: 0 <= i < |s| ==> !p(s[i])
    ensures r.Some? ==> exists i :: 0 <= i < |s| && s[i] == r.value && p(s[i]) &&
                                    forall j :: 0 <= j < i ==> !p(s[j])
  {
    if s == [] then None
    else if p(s[0]) then Some(s[0])
    else
      var r := Find(s[1..], p);
      assert forall i :: 1 <= i < |s| ==> s[i] == s[1..][i - 1];
      r
  }

  /** `t` occurs in `s` starting at index `i`: the reference meaning of
      `includes`. */
  predicate OccursAt(s: string, t: string, i: int)
  {
    0 <= i && i + |t| <= |s| && forall j :: 0 <= j < |t| ==> s[i + j] == t[j]
  }

  /** `s.includes(t)`, computed by trying each start position in turn. */
  function Includes(s: string, t: string): bool
  {
    if t <= s then true
    else if s == [] then false
    else Includes(s[1..], t)
  }

  /** Occurrences in `s` at positions past the first are the occurrences
      in `s[1..]`, shifted by one. */
  lemma OccursAtTail(s: string, t: string, i: int)
    requires s != [] && 1 <= i
    ensures OccursAt(s, t, i) <==> OccursAt(s[1..], t, i - 1)
  {
    assert forall j :: 0 <= j < |s| - 1 ==> s[1..][j] == s[j + 1];
  }

  lemma {:induction false} IncludesIff(s: string, t: string)
    ensures Includes(s, t) <==> exists i :: OccursAt(s, t, i)
  {
    if t <= s {
      assert OccursAt(s, t, 0);
    } else if s == [] {
      assert forall i :: !OccursAt(s, t, i);
    } else {
      IncludesIff(s[1..], t);
      if Includes(s[1..], t) {
        var i :| OccursAt(s[1..], t, i);
        OccursAtTail(s, t, i + 1);
      } else {
        forall i | OccursAt(s, t, i) ensures false {
          if i != 0 {
            OccursAtTail(s, t, i);
          }
        }
      }
    }
  }

  /** A string built around `t` includes `t`. */
  lemma IncludesInfix(a: string, t: string, b: string)
    ensures Includes(a + t + b, t)
  {
    var s := a + t + b;
    assert forall j :: 0 <= j < |t| ==> s[|a| + j] == t[j];
    assert OccursAt(s, t, |a|);
    IncludesIff(s, t);
  }

  /** A string that ends with `t` includes `t`. */
  lemma IncludesSuffix(a: string, t: string)
    ensures Includes(a + t, t)
  {
    IncludesInfix(a, t, []);
    assert a + t + [] == a + t;
  }

  /** Appending to a string keeps what it includes. */
  lemma IncludesExtend(s: string, t: string, b: string)
    requires Includes(s, t)
    ensures Includes(s + b, t)
  {
    IncludesIff(s, t);
    var i :| OccursAt(s, t, i);
    assert OccursAt(s + b, t, i);
    IncludesIff(s + b, t);
  }
}
