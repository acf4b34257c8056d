/**
 * Numeric and wrapper conventions of the JavaScript runtime the application runs on.
 * Scores are reals; `Math.round`, `Math.min`/`Math.max` clamps and `Math.abs` are
 * written out here once and used by every scoring module.
 */
module JsCommon {

  datatype Option<+T> = None | Some(value: T)

  /** A call that either returns a value or throws/returns an error. */
  datatype Result<+T, +E> = Ok(value: T) | Err(error: E)

  /** The method of an incoming HTTP request, as far as the handlers distinguish them. */
  datatype HttpMethod = Options | Get | Post | Put | Delete | OtherMethod(name: string)

  function Min(a: real, b: real): (r: real)
    ensures r <= a && r <= b && (r == a || r == b)
  {
    if a <= b then a else b
  }

  function Max(a: real, b: real): (r: real)
    ensures r >= a && r >= b && (r == a || r == b)
  {
    if a >= b then a else b
  }

  function Abs(x: real): (r: real)
    ensures r >= 0.0 && (r == x || r == -x)
  {
    if x < 0.0 then -x else x
  }

  /** `Math.max(lo, Math.min(hi, x))`, the clamp idiom used throughout the scorers. */
  function Clamp(lo: real, hi: real, x: real): (r: real)
    requires lo <= hi
    ensures lo <= r <= hi
    ensures lo <= x <= hi ==> r == x
    ensures x < lo ==> r == lo
    ensures x > hi ==> r == hi
  {
    Max(lo, Min(hi, x))
  }

  /** `Math.round`: the nearest integer, with halves rounded towards +infinity. */
  function Round(x: real): (r: int)
    ensures x - 0.5 < r as real <= x + 0.5
  {
    (x + 0.5).Floor
  }

  lemma RoundOfInt(k: int)
    ensures Round(k as real) == k
  {
  }

  lemma RoundMonotone(x: real, y: real)
    requires x <= y
    ensures Round(x) <= Round(y)
  {
  }

  /** A value between two whole numbers rounds to a whole number between them. */
  lemma RoundWithin(x: real, lo: int, hi: int)
    requires lo as real <= x <= hi as real
    ensures lo <= Round(x) <= hi
  {
    RoundMonotone(lo as real, x);
    RoundMonotone(x, hi as real);
    RoundOfInt(lo);
    RoundOfInt(hi);
  }

  /** `Math.max(...xs)` of a non-empty list. */
  function MaxOf(xs: seq<real>): (m: real)
    requires |xs| >= 1
    ensures forall i :: 0 <= i < |xs| ==> xs[i] <= m
    ensures exists i :: 0 <= i < |xs| && xs[i] == m
  {
    if |xs| == 1 then xs[0]
    else
      var rest := MaxOf(xs[1..]);
      assert forall i :: 1 <= i < |xs| ==> xs[i] == xs[1..][i - 1];
      if xs[0] >= rest then xs[0] else rest
  }

  /** `xs.reduce((a, b) => a + b, 0)`. */
  function Sum(xs: seq<real>): (s: real)
    ensures (forall k :: 0 <= k < |xs| ==> xs[k] >= 0.0) ==> s >= 0.0
  {
    if xs == [] then 0.0 else Sum(xs[..|xs| - 1]) + xs[|xs| - 1]
  }

  /** `x` as a JavaScript number in a boolean context (NaN does not arise in this model). */
  predicate Truthy(x: real)
  {
    x != 0.0
  }

  function BoolToNat(b: bool): (n: nat)
    ensures n <= 1 && (n == 1 <==> b)
  {
    if b then 1 else 0
  }

  /** The one-element list `[x]` when `c` holds, else `[]`: one conditional `push`. */
  function When<T>(c: bool, x: T): (r: seq<T>)
    ensures |r| == if c then 1 else 0
  {
    if c then [x] else []
  }

  /** `if (c) list.push(x)`. */
  method PushIf<T>(list: seq<T>, c: bool, x: T) returns (r: seq<T>)
    ensures r == list + When(c, x)
  {
    r := list;
    if c {
      r := r + [x];
    }
  }

  /** `s.slice(0, n)`. */
  function First<T>(s: seq<T>, n: nat): (r: seq<T>)
    ensures |r| == if |s| <= n then |s| else n
    ensures r == s[..|r|]
  {
    if |s| <= n then s else s[..n]
  }
}
