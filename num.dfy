/**
 * JavaScript numbers as the app uses them for Rupiah amounts and quantities:
 * integers, plus NaN, which every arithmetic operation propagates and every
 * comparison treats as false.
 */
module JsNumber {
  import opened Options
  import opened Seqs

  /** `Some(v)` is the integer `v`; `None` is NaN. */
  type Num = Option<int>

  function Add(a: Num, b: Num): (r: Num)
    ensures r.Some? <==> a.Some? && b.Some?
  {
    if a.Some? && b.Some? then Some(a.value + b.value) else None
  }

  function Sub(a: Num, b: Num): (r: Num)
    ensures r.Some? <==> a.Some? && b.Some?
  {
    if a.Some? && b.Some? then Some(a.value - b.value) else None
  }

  function Mul(a: Num, b: Num): (r: Num)
    ensures r.Some? <==> a.Some? && b.Some?
  {
    if a.Some? && b.Some? then Some(a.value * b.value) else None
  }

  /** Unary minus: NaN stays NaN. */
  function Neg(a: Num): (r: Num)
    ensures r.Some? <==> a.Some?
    ensures r.Some? ==> r.value == -a.value
  {
    if a.Some? then Some(-a.value) else None
  }

  /** `Math.max(0, a)`: NaN stays NaN. */
  function Max0(a: Num): (r: Num)
    ensures r.Some? <==> a.Some?
    ensures r.Some? ==> r.value >= 0 && r.value >= a.value
  {
    if a.Some? then Some(if a.value < 0 then 0 else a.value) else None
  }

  /** `a < b`, false when either side is NaN. */
  predicate Less(a: Num, b: Num) {
    a.Some? && b.Some? && a.value < b.value
  }

  /** `a || 0` (equally `+a || 0`): NaN and 0 both give 0. */
  function OrZero(a: Num): int {
    if a.Some? then a.value else 0
  }

  /** `!a`: NaN and 0 are falsy. */
  predicate IsFalsy(a: Num) {
    a.None? || a.value == 0
  }

  /** `s.reduce((acc, x) => acc + f(x), 0)` over numbers that may be NaN. */
  function SumNum<T>(s: seq<T>, f: T -> Num): Num {
    if s == [] then Some(0) else Add(SumNum(s[..|s| - 1], f), f(s[|s| - 1]))
  }

  function OrZeroOf<T>(f: T -> Num): T -> int {
    x => OrZero(f(x))
  }

  /** The sum is a number exactly when every term is, and it is then the ordinary sum. */
  lemma {:induction false} SumNumIsSum<T>(s: seq<T>, f: T -> Num)
    ensures SumNum(s, f).Some? <==> forall i :: 0 <= i < |s| ==> f(s[i]).Some?
    ensures SumNum(s, f).Some? ==> SumNum(s, f) == Some(SumOf(s, OrZeroOf(f)))
  {
    if s != [] {
      var init := s[..|s| - 1];
      SumNumIsSum(init, f);
      assert forall i :: 0 <= i < |init| ==> init[i] == s[i];
    }
  }
}
