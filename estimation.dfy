/**
 * The three-point (PERT) expected-value estimator of the calculator
 * (react-app/src/components/MPRIVCalculator.tsx, `pert`).
 */
module Estimation {

  function Min3(a: real, b: real, c: real): real {
    if a <= b && a <= c then a else if b <= c then b else c
  }

  function Max3(a: real, b: real, c: real): real {
    if a >= b && a >= c then a else if b >= c then b else c
  }

  /** Expected value of an optimistic/likely/pessimistic triple, the mode weighted four times. */
  function Pert(a: real, b: real, c: real): (r: real)
    ensures Min3(a, b, c) <= r <= Max3(a, b, c)
  {
    (a + 4.0 * b + c) / 6.0
  }

  /** For an ordered triple the estimate stays between the optimistic and pessimistic values. */
  lemma PertOrdered(a: real, b: real, c: real)
    requires a <= b <= c
    ensures a <= Pert(a, b, c) <= c
    ensures a < c ==> a < Pert(a, b, c) < c
  {
  }

  /** A triple whose three points all lie in [lo, hi] has its estimate in [lo, hi]. */
  lemma PertWithin(a: real, b: real, c: real, lo: real, hi: real)
    requires lo <= a <= hi && lo <= b <= hi && lo <= c <= hi
    ensures lo <= Pert(a, b, c) <= hi
  {
  }

  /** The estimate never decreases when any of the three points grows. */
  lemma PertMonotone(a: real, b: real, c: real, a': real, b': real, c': real)
    requires a <= a' && b <= b' && c <= c'
    ensures Pert(a, b, c) <= Pert(a', b', c')
  {
  }
}
