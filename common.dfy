/** Shared vocabulary: error outcomes, the transcendental functions the
    numerical code calls (left uninterpreted), and extrema and sums over
    sequences of reals. */
module Common {

  datatype Option<T> = None | Some(value: T)

  /** The ways a generation or render attempt fails. */
  datatype Error =
    | InvalidParameter     // an input assert fails (A, B, C or color option out of range)
    | StabilityViolation   // a generator's guarded parameter region
    | DegenerateRange      // a coordinate span below 1e-6 in normalize_points
    | EmptyInput           // numpy's max/min of an empty array raises
    | NonFiniteColors      // min-max normalisation of a constant colour array (0/0)

  datatype Result<T> = Ok(value: T) | Err(error: Error)

  /** The floating-point library functions the source calls. They are
      parameters of the model: nothing is assumed about them. */
  datatype Transcendentals = Transcendentals(
    sin: real -> real,
    cos: real -> real,
    tan: real -> real,
    sqrt: real -> real,
    pow: (real, real) -> real,
    pi: real)

  function Abs(x: real): (r: real)
    ensures r >= 0.0 && (r == x || r == -x)
  {
    if x < 0.0 then -x else x
  }

  /** The largest element of a non-empty sequence (numpy `max`). */
  function Max(s: seq<real>): (m: real)
    requires |s| > 0
    ensures forall k :: 0 <= k < |s| ==> s[k] <= m
    ensures exists k :: 0 <= k < |s| && s[k] == m
  {
    if |s| == 1 then s[0]
    else
      var rest := Max(s[1..]);
      assert forall k :: 1 <= k < |s| ==> s[k] == s[1..][k - 1];
      if s[0] >= rest then s[0] else rest
  }

  /** The smallest element of a non-empty sequence (numpy `min`). */
  function Min(s: seq<real>): (m: real)
    requires |s| > 0
    ensures forall k :: 0 <= k < |s| ==> m <= s[k]
    ensures exists k :: 0 <= k < |s| && s[k] == m
  {
    if |s| == 1 then s[0]
    else
      var rest := Min(s[1..]);
      assert forall k :: 1 <= k < |s| ==> s[k] == s[1..][k - 1];
      if s[0] <= rest then s[0] else rest
  }

  /** An attained upper bound is the maximum. */
  lemma MaxIsAttainedBound(s: seq<real>, m: real, i: int)
    requires 0 <= i < |s| && s[i] == m
    requires forall k :: 0 <= k < |s| ==> s[k] <= m
    ensures Max(s) == m
  {
    var j :| 0 <= j < |s| && s[j] == Max(s);
  }

  /** An attained lower bound is the minimum. */
  lemma MinIsAttainedBound(s: seq<real>, m: real, i: int)
    requires 0 <= i < |s| && s[i] == m
    requires forall k :: 0 <= k < |s| ==> m <= s[k]
    ensures Min(s) == m
  {
    var j :| 0 <= j < |s| && s[j] == Min(s);
  }

  /** Elementwise image of a sequence, as numpy's vectorised arithmetic. */
  function MapReal(s: seq<real>, f: real -> real): (r: seq<real>)
    ensures |r| == |s|
    ensures forall k :: 0 <= k < |s| ==> r[k] == f(s[k])
  {
    seq(|s|, k requires 0 <= k < |s| => f(s[k]))
  }

  /** Sum of a sequence of reals. */
  function Sum(s: seq<real>): real
  {
    if s == [] then 0.0 else s[0] + Sum(s[1..])
  }

  /** Replacing one element changes the sum by the difference. */
  lemma {:induction false} SumUpdate(s: seq<real>, i: nat, v: real)
    requires i < |s|
    ensures Sum(s[i := v]) == Sum(s) - s[i] + v
  {
    if i == 0 {
      assert s[i := v][1..] == s[1..];
    } else {
      assert s[i := v][1..] == s[1..][i - 1 := v];
      SumUpdate(s[1..], i - 1, v);
    }
  }
}
