/** Service metrics: percentiles over bounded windows of measurements, and running averages. */
module Metrics {
  import opened Averages
  import opened Prelude

  // Percentiles.

  function Insert(x: real, s: seq<real>): (r: seq<real>)
    ensures |r| == |s| + 1
  {
    if s == [] || x <= s[0] then [x] + s else [s[0]] + Insert(x, s[1..])
  }

  /** Python's `sorted`. */
  function Sort(s: seq<real>): (r: seq<real>)
    ensures |r| == |s|
  {
    if s == [] then [] else Insert(s[0], Sort(s[1..]))
  }

  /** `int((percentile / 100.0) * n)`, clamped to the last position. */
  function Index(n: nat, p: nat): nat
    requires n > 0
  {
    if p * n / 100 >= n then n - 1 else p * n / 100
  }

  function Percentile(values: seq<real>, p: nat): real {
    if values == [] then 0.0 else Sort(values)[Index(|values|, p)]
  }

  /** How many values lie strictly below `v`, and how many do not exceed it. */
  ghost function Below(s: seq<real>, v: real): nat {
    if s == [] then 0 else (if s[0] < v then 1 else 0) + Below(s[1..], v)
  }

  ghost function NotAbove(s: seq<real>, v: real): nat {
    if s == [] then 0 else (if s[0] <= v then 1 else 0) + NotAbove(s[1..], v)
  }

  ghost predicate Ascending(s: seq<real>) {
    |s| < 2 || (s[0] <= s[1] && Ascending(s[1..]))
  }

  lemma {:induction false} InsertSpec(x: real, s: seq<real>, v: real)
    ensures Ascending(s) ==> Ascending(Insert(x, s))
    ensures Below(Insert(x, s), v) == Below(s, v) + (if x < v then 1 else 0)
    ensures NotAbove(Insert(x, s), v) == NotAbove(s, v) + (if x <= v then 1 else 0)
  {
    if s == [] || x <= s[0] {
      assert ([x] + s)[1..] == s;
    } else {
      InsertSpec(x, s[1..], v);
      assert Insert(x, s)[1..] == Insert(x, s[1..]);
    }
  }

  /** Sorting puts values in order and loses none of them. */
  lemma {:induction false} SortSpec(s: seq<real>, v: real)
    ensures Ascending(Sort(s)) && Below(Sort(s), v) == Below(s, v) && NotAbove(Sort(s), v) == NotAbove(s, v)
  {
    if s != [] {
      SortSpec(s[1..], v);
      InsertSpec(s[0], Sort(s[1..]), v);
    }
  }

  lemma {:induction false} AscendingRank(s: seq<real>, i: nat)
    requires Ascending(s) && i < |s|
    ensures Below(s, s[i]) <= i < NotAbove(s, s[i]) && s[0] <= s[i]
    ensures Below(s, s[0]) == 0
  {
    if |s| > 1 {
      AscendingRank(s[1..], if i == 0 then 0 else i - 1);
      NothingBelow(s[1..], s[0]);
    }
  }

  lemma {:induction false} NothingBelow(s: seq<real>, v: real)
    requires Ascending(s) && (s == [] || v <= s[0])
    ensures Below(s, v) == 0
  {
    if s != [] {
      NothingBelow(s[1..], v);
    }
  }

  lemma {:induction false} RanksOrdered(s: seq<real>, v: real, w: real)
    ensures Below(s, v) <= NotAbove(s, v)
    ensures v < w ==> NotAbove(s, v) <= Below(s, w)
  {
    if s != [] {
      RanksOrdered(s[1..], v, w);
    }
  }

  /** The rank a percentile asks for: `k` values of a hundred percent of them, but not past the last. */
  ghost predicate IsRank(n: nat, p: nat, k: nat) {
    k < n && 100 * k <= p * n && (p * n < 100 * (k + 1) || k == n - 1)
  }

  /**
   The percentile is the order statistic of its rank, and the only value that is: at most `k` values lie
   below it and more than `k` values do not exceed it, where `k` is the percentage of their number.
   */
  lemma PercentileIsOrderStatistic(values: seq<real>, p: nat, k: nat, v: real)
    requires IsRank(|values|, p, k)
    ensures v == Percentile(values, p) <==> Below(values, v) <= k < NotAbove(values, v)
  {
    var i := Index(|values|, p);
    assert i == k;
    var r := Sort(values)[i];
    SortSpec(values, r);
    AscendingRank(Sort(values), i);
    RanksOrdered(values, v, r);
    RanksOrdered(values, r, v);
  }

  /** Every percentage has such a rank. */
  lemma RankExists(n: nat, p: nat)
    requires n > 0
    ensures IsRank(n, p, Index(n, p))
  {
  }

  /** A metric without recordings reports zero, for every percentage. */
  lemma NothingRecorded(m: map<string, seq<real>>, key: string, p: nat)
    requires key !in m
    ensures Percentile(Window(m, key), p) == 0.0
  {
  }

  lemma {:induction false} CountConcat(a: seq<real>, b: seq<real>, v: real)
    ensures Below(a + b, v) == Below(a, v) + Below(b, v) && NotAbove(a + b, v) == NotAbove(a, v) + NotAbove(b, v)
  {
    if a == [] {
      assert a + b == b;
    } else {
      assert (a + b)[1..] == a[1..] + b;
      CountConcat(a[1..], b, v);
    }
  }

  lemma {:induction false} CountPermutation(a: seq<real>, b: seq<real>, v: real)
    requires multiset(a) == multiset(b)
    ensures Below(a, v) == Below(b, v) && NotAbove(a, v) == NotAbove(b, v)
  {
    if a == [] {
      assert |multiset(b)| == 0;
    } else {
      var i := MatchHead(a, b);
      RemoveFromCount(b, i, v);
      CountPermutation(a[1..], b[..i] + b[i + 1..], v);
    }
  }

  lemma MatchHead(a: seq<real>, b: seq<real>) returns (i: nat)
    requires multiset(a) == multiset(b) && a != []
    ensures i < |b| && b[i] == a[0] && multiset(a[1..]) == multiset(b[..i] + b[i + 1..])
  {
    assert a[0] in multiset(b);
    i :| 0 <= i < |b| && b[i] == a[0];
    RemoveFromBag(b, i);
    RemoveFromBag(a, 0);
    assert a[..0] + a[1..] == a[1..];
    BagCancel(multiset(a[1..]), multiset(b[..i] + b[i + 1..]), a[0]);
  }

  lemma BagCancel(a: multiset<real>, b: multiset<real>, x: real)
    requires a + multiset{x} == b + multiset{x}
    ensures a == b
  {
    assert a == (a + multiset{x}) - multiset{x};
  }

  lemma RemoveFromBag(s: seq<real>, i: nat)
    requires i < |s|
    ensures multiset(s) == multiset(s[..i] + s[i + 1..]) + multiset{s[i]}
  {
    assert s == s[..i] + [s[i]] + s[i + 1..];
  }

  lemma RemoveFromCount(s: seq<real>, i: nat, v: real)
    requires i < |s|
    ensures var rest := s[..i] + s[i + 1..];
      && Below(s, v) == Below(rest, v) + (if s[i] < v then 1 else 0)
      && NotAbove(s, v) == NotAbove(rest, v) + (if s[i] <= v then 1 else 0)
  {
    assert s == s[..i] + [s[i]] + s[i + 1..];
    CountConcat(s[..i], s[i + 1..], v);
    CountConcat(s[..i] + [s[i]], s[i + 1..], v);
    CountConcat(s[..i], [s[i]], v);
  }

  /** The order in which values were recorded does not matter. */
  lemma PercentilePermutation(a: seq<real>, b: seq<real>, p: nat)
    requires multiset(a) == multiset(b)
    ensures Percentile(a, p) == Percentile(b, p)
  {
    assert |multiset(a)| == |a| && |multiset(b)| == |b|;
    if a != [] {
      RankExists(|a|, p);
      PercentileIsOrderStatistic(a, p, Index(|a|, p), Percentile(a, p));
      PercentileIsOrderStatistic(b, p, Index(|a|, p), Percentile(a, p));
      CountPermutation(a, b, Percentile(a, p));
    }
  }

  lemma IndexMonotone(n: nat, p: nat, q: nat)
    requires n > 0 && p <= q
    ensures Index(n, p) <= Index(n, q)
  {
    assert p * n <= q * n;
  }

  lemma {:induction false} AscendingPair(s: seq<real>, i: nat, j: nat)
    requires Ascending(s) && i <= j < |s|
    ensures s[i] <= s[j]
  {
    if i > 0 {
      AscendingPair(s[1..], i - 1, j - 1);
    } else {
      AscendingRank(s, j);
    }
  }

  /** Higher percentiles are no smaller, and all lie between the smallest and the largest value. */
  lemma {:induction false} PercentileMonotone(values: seq<real>, p: nat, q: nat)
    requires values != [] && p <= q
    ensures Percentile(values, 0) <= Percentile(values, p) <= Percentile(values, q) <= Percentile(values, 100)
    ensures Below(values, Percentile(values, 0)) == 0 && NotAbove(values, Percentile(values, 100)) == |values|
  {
    var s, n := Sort(values), |values|;
    SortSpec(values, s[0]);
    SortSpec(values, s[n - 1]);
    IndexMonotone(n, p, q);
    AscendingPair(s, 0, Index(n, p));
    AscendingPair(s, Index(n, p), Index(n, q));
    AscendingPair(s, Index(n, q), n - 1);
    AscendingRank(s, 0);
    AscendingRank(s, n - 1);
    AtMostAll(s, s[n - 1]);
  }

  lemma {:induction false} AtMostAll(s: seq<real>, v: real)
    ensures NotAbove(s, v) <= |s|
  {
    if s != [] {
      AtMostAll(s[1..], v);
    }
  }

  // Running averages and windows.

  const WINDOW := 1000

  datatype Op = Histogram(key: string, value: real) | Timer(key: string, duration: real) | Reset

  datatype State = State(histograms: map<string, seq<real>>, timers: map<string, seq<real>>, processed: nat,
                         average: real)

  function Window(m: map<string, seq<real>>, key: string): seq<real> {
    if key in m then m[key] else []
  }

  function Step(s: State, op: Op): State {
    match op
    case Histogram(k, v) => s.(histograms := s.histograms[k := LastN(WINDOW, Window(s.histograms, k) + [v])])
    case Timer(k, d) =>
      s.(timers := s.timers[k := LastN(WINDOW, Window(s.timers, k) + [d])],
         processed := s.processed + 1,
         average := NextMean(s.average, s.processed + 1, d))
    case Reset => State(map[], map[], 0, 0.0)
  }

  function Run(ops: seq<Op>): State {
    if ops == [] then State(map[], map[], 0, 0.0) else Step(Run(ops[..|ops| - 1]), ops[|ops| - 1])
  }

  class MetricsCollector {
    var histograms: map<string, seq<real>>
    var timers: map<string, seq<real>>
    var messagesProcessed: nat
    var averageProcessingTime: real

    ghost function Abs(): State
      reads this
    {
      State(histograms, timers, messagesProcessed, averageProcessingTime)
    }

    constructor ()
      ensures Abs() == Run([])
    {
      histograms, timers, messagesProcessed, averageProcessingTime := map[], map[], 0, 0.0;
    }

    method RecordHistogram(key: string, value: real)
      modifies this
      ensures Abs() == Step(old(Abs()), Histogram(key, value))
    {
      if key !in histograms {
        histograms := histograms[key := []];
      }
      histograms := histograms[key := histograms[key] + [value]];
      if |histograms[key]| > WINDOW {
        histograms := histograms[key := histograms[key][|histograms[key]| - WINDOW..]];
      }
    }

    method RecordTimer(key: string, duration: real)
      modifies this
      ensures Abs() == Step(old(Abs()), Timer(key, duration))
    {
      if key !in timers {
        timers := timers[key := []];
      }
      timers := timers[key := timers[key] + [duration]];
      if |timers[key]| > WINDOW {
        timers := timers[key := timers[key][|timers[key]| - WINDOW..]];
      }
      messagesProcessed := messagesProcessed + 1;
      averageProcessingTime := NextMean(averageProcessingTime, messagesProcessed, duration);
    }

    method ResetMetrics()
      modifies this
      ensures Abs() == Step(old(Abs()), Reset)
    {
      histograms, timers, messagesProcessed, averageProcessingTime := map[], map[], 0, 0.0;
    }
  }

  /** Everything recorded for one timer (or one histogram) since the last reset. */
  function Recorded(ops: seq<Op>, key: string, timer: bool): seq<real> {
    if ops == [] then []
    else
      var before := Recorded(ops[..|ops| - 1], key, timer);
      match ops[|ops| - 1]
      case Reset => []
      case Timer(k, d) => if timer && k == key then before + [d] else before
      case Histogram(k, v) => if !timer && k == key then before + [v] else before
  }

  /** All timer measurements since the last reset. */
  function Durations(ops: seq<Op>): seq<real> {
    if ops == [] then []
    else
      match ops[|ops| - 1]
      case Reset => []
      case Timer(_, d) => Durations(ops[..|ops| - 1]) + [d]
      case Histogram(_, _) => Durations(ops[..|ops| - 1])
  }

  /** Windows are the last 1000 recordings and the average is the exact mean, since the last reset. */
  lemma {:induction false} CollectorFaithful(ops: seq<Op>, key: string)
    ensures var s := Run(ops);
      && Window(s.histograms, key) == LastN(1000, Recorded(ops, key, false))
      && Window(s.timers, key) == LastN(1000, Recorded(ops, key, true))
      && s.processed == |Durations(ops)| && IsMean(s.average, Durations(ops))
  {
    if ops != [] {
      var prefix, s := ops[..|ops| - 1], Run(ops[..|ops| - 1]);
      CollectorFaithful(prefix, key);
      match ops[|ops| - 1] {
        case Reset =>
        case Timer(k, d) =>
          LastNAppend(WINDOW, Recorded(prefix, key, true), d);
          MeanStep(s.average, Durations(prefix), d);
        case Histogram(k, v) =>
          LastNAppend(WINDOW, Recorded(prefix, key, false), v);
      }
    }
  }
}
