/** Averages updated one value at a time. */
module Averages {
  ghost function Sum(s: seq<real>): real {
    if s == [] then 0.0 else Sum(s[..|s| - 1]) + s[|s| - 1]
  }

  /** The average the code keeps is exact: it is the sum divided by the count. */
  ghost predicate IsMean(average: real, s: seq<real>) {
    if s == [] then average == 0.0 else average * |s| as real == Sum(s)
  }

  /** `(average * (n - 1) + x) / n` */
  function NextMean(average: real, n: nat, x: real): real
    requires n > 0
  {
    (average * (n - 1) as real + x) / n as real
  }

  lemma MeanStep(average: real, s: seq<real>, x: real)
    requires IsMean(average, s)
    ensures IsMean(NextMean(average, |s| + 1, x), s + [x])
  {
    var n := (|s| + 1) as real;
    assert (s + [x])[..|s|] == s;
    assert average * |s| as real == Sum(s);
    assert (Sum(s) + x) / n * n == Sum(s) + x;
  }
}
