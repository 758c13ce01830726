/**
 Pipeline metrics: per-stage counters and last-activity stamps kept in Redis under textual keys,
 the stamps expiring after five minutes, and the health verdicts read back from them.
 */
module PipelineMetrics {
  import opened Prelude
  import opened Redis

  datatype Stage = MarketTicks | Signals | SignalsValidated | SignalsRejected | Orders | PortfolioUpdates

  function Name(stage: Stage): string {
    match stage
    case MarketTicks => "market_ticks"
    case Signals => "signals"
    case SignalsValidated => "signals_validated"
    case SignalsRejected => "signals_rejected"
    case Orders => "orders"
    case PortfolioUpdates => "portfolio_updates"
  }

  const ALL_STAGES := [MarketTicks, Signals, SignalsValidated, SignalsRejected, Orders, PortfolioUpdates]
  const HEALTH_STAGES := [MarketTicks, Signals, SignalsValidated, Orders, PortfolioUpdates]

  const TTL := 300 * SECOND

  function Threshold(stage: Stage): int {
    if stage == MarketTicks then 5 * SECOND else 60 * SECOND
  }

  const LEGACY := "market"

  function Key(stage: string, broker: string, metric: string): string {
    "pipeline:" + stage + ":" + broker + ":" + metric
  }

  datatype Value = Count(n: nat) | Stamp(at: int)

  type Metrics = Store<Value>

  /** INCR keeps a live key's expiry and creates a missing key without one. */
  function Incr(store: Metrics, now: int, key: string): Metrics {
    if !Live(store, now, key) then store[key := Slot(Count(1), None)]
    else match store[key].value
      case Count(n) => store[key := store[key].(value := Count(n + 1))]
      case Stamp(_) => store
  }

  /** The commands for one stage of one broker that reached Redis. */
  function Hit(store: Metrics, now: int, stage: string, broker: string, counted: bool, stamped: bool): Metrics {
    var store' := if counted then Incr(store, now, Key(stage, broker, "count")) else store;
    if stamped then Setex(store', now, Key(stage, broker, "last"), TTL, Stamp(now)) else store'
  }

  /** A call on the collector. A record sends its commands in a pipeline without a transaction, and
      `sent` of them reach Redis before the connection fails, if it does. */
  datatype Op =
    | Record(stage: Stage, broker: string, sent: nat)
    | Increment(metric: string, broker: string)
    | Reset(broker: string)

  datatype Timed = Timed(op: Op, at: int)

  function ResetKeys(broker: string): set<string> {
    (set s | s in ALL_STAGES :: Key(Name(s), broker, "last")) +
      (set s | s in ALL_STAGES :: Key(Name(s), broker, "count"))
  }

  /** A tick is written to the shared legacy keys first, then to the broker's own. */
  function Apply(store: Metrics, t: Timed): Metrics {
    match t.op
    case Record(stage, broker, sent) =>
      if stage == MarketTicks then
        Hit(Hit(store, t.at, Name(stage), LEGACY, sent >= 1, sent >= 2), t.at, Name(stage), broker, sent >= 3,
            sent >= 4)
      else Hit(store, t.at, Name(stage), broker, sent >= 1, sent >= 2)
    case Increment(metric, broker) => Hit(store, t.at, metric, broker, true, false)
    case Reset(broker) => store - ResetKeys(broker)
  }

  function Run(trace: seq<Timed>): Metrics {
    if trace == [] then map[] else Apply(Run(trace[..|trace| - 1]), trace[|trace| - 1])
  }

  datatype Health = Health(healthy: bool, total: nat)

  /** The verdict the collector reads from the store. */
  function StageHealth(store: Metrics, now: int, stage: Stage, broker: string): Health {
    var last, count := Key(Name(stage), broker, "last"), Key(Name(stage), broker, "count");
    var total := if Live(store, now, count) && store[count].value.Count? then store[count].value.n else 0;
    if Live(store, now, last) && store[last].value.Stamp?
    then Health(now - store[last].value.at < Threshold(stage), total)
    else Health(false, total)
  }

  // Keys.

  predicate Plain(text: string) {
    ':' !in text
  }

  lemma StageNamesPlain(a: Stage, b: Stage)
    ensures Plain(Name(a)) && (Name(a) == Name(b) ==> a == b)
  {
  }

  /** The part of a key in front of the metric. */
  function Place(stage: string, broker: string): string {
    stage + ":" + broker
  }

  /** Keys meet exactly where place and metric do. */
  lemma KeysMeetIff(s: string, b: string, m: string, s': string, b': string, m': string)
    requires Plain(m) && Plain(m')
    ensures Key(s, b, m) == Key(s', b', m') <==> Place(s, b) == Place(s', b') && m == m'
  {
    assert Key(s, b, m) == "pipeline:" + Place(s, b) + ":" + m;
    assert Key(s', b', m') == "pipeline:" + Place(s', b') + ":" + m';
    if Key(s, b, m) == Key(s', b', m') {
      SplitAtLast("pipeline:" + Place(s, b), m, "pipeline:" + Place(s', b'), m', ':');
      assert ("pipeline:" + Place(s, b))[9..] == Place(s, b) && ("pipeline:" + Place(s', b'))[9..] == Place(s', b');
    }
  }

  lemma PlacesMeetIff(s: string, b: string, s': string, b': string)
    requires Plain(s) && Plain(s')
    ensures Place(s, b) == Place(s', b') <==> s == s' && b == b'
  {
    if Place(s, b) == Place(s', b') {
      SplitAtFirst(s, b, s', b', ':');
    }
  }

  /** Keys are injective for every broker name, when stage and metric carry no separator. */
  lemma KeyInjective(s: string, b: string, m: string, s': string, b': string, m': string)
    requires Plain(s) && Plain(s') && Plain(m) && Plain(m')
    ensures Key(s, b, m) == Key(s', b', m') <==> s == s' && b == b' && m == m'
  {
    KeysMeetIff(s, b, m, s', b', m');
    PlacesMeetIff(s, b, s', b');
  }

  // What a broker sees of a stage, and how each call changes it.

  datatype View = View(count: Option<Slot<Value>>, last: Option<Slot<Value>>)

  function Lookup(store: Metrics, key: string): Option<Slot<Value>> {
    if key in store then Some(store[key]) else None
  }

  function ViewOf(store: Metrics, stage: string, broker: string): View {
    View(Lookup(store, Key(stage, broker, "count")), Lookup(store, Key(stage, broker, "last")))
  }

  lemma HitView(store: Metrics, now: int, s': string, b': string, counted: bool, stamped: bool, s: string, b: string)
    ensures var v, v' := ViewOf(store, s, b), ViewOf(Hit(store, now, s', b', counted, stamped), s, b);
      if Place(s', b') == Place(s, b) then
        && v'.count == (if counted then Lookup(Incr(store, now, Key(s, b, "count")), Key(s, b, "count")) else v.count)
        && v'.last == (if stamped then Some(Slot(Stamp(now), Some(now + TTL))) else v.last)
      else v' == v
  {
    KeysMeetIff(s', b', "count", s, b, "count");
    KeysMeetIff(s', b', "last", s, b, "last");
    KeysMeetIff(s', b', "count", s, b, "last");
    KeysMeetIff(s', b', "last", s, b, "count");
  }

  /** The keys of two stages of two brokers meet only where stage and broker do. */
  lemma StageKeysMeet(a: Stage, x: string, b: Stage, y: string)
    ensures Key(Name(a), x, "last") == Key(Name(b), y, "last") <==> a == b && x == y
    ensures Key(Name(a), x, "count") == Key(Name(b), y, "count") <==> a == b && x == y
    ensures Key(Name(a), x, "last") != Key(Name(b), y, "count")
  {
    StageNamesPlain(a, b);
    StageNamesPlain(b, a);
    KeyInjective(Name(a), x, "last", Name(b), y, "last");
    KeyInjective(Name(a), x, "count", Name(b), y, "count");
    KeyInjective(Name(a), x, "last", Name(b), y, "count");
  }

  /** A reset deletes a stage's keys exactly when it is for that broker. */
  lemma ResetKeysOf(reset: string, stage: Stage, broker: string)
    ensures Key(Name(stage), broker, "last") in ResetKeys(reset) <==> reset == broker
    ensures Key(Name(stage), broker, "count") in ResetKeys(reset) <==> reset == broker
  {
    forall s | s in ALL_STAGES
      ensures Key(Name(s), reset, "last") == Key(Name(stage), broker, "last") <==> s == stage && reset == broker
      ensures Key(Name(s), reset, "count") == Key(Name(stage), broker, "count") <==> s == stage && reset == broker
      ensures Key(Name(s), reset, "last") != Key(Name(stage), broker, "count")
      ensures Key(Name(s), reset, "count") != Key(Name(stage), broker, "last")
    {
      StageKeysMeet(s, reset, stage, broker);
      StageKeysMeet(stage, broker, s, reset);
    }
    assert stage in ALL_STAGES;
  }

  lemma ResetView(store: Metrics, b': string, stage: Stage, b: string)
    ensures ViewOf(store - ResetKeys(b'), Name(stage), b) ==
            if b == b' then View(None, None) else ViewOf(store, Name(stage), b)
  {
    ResetKeysOf(b', stage, b);
  }

  // The reference: the same questions asked of the whole call log.

  /** How often a call counts for a stage of a broker; ticks count for the legacy name as well. */
  function Counts(op: Op, stage: Stage, broker: string): nat {
    match op
    case Record(s, b, sent) =>
      if s != stage then 0
      else if s != MarketTicks then (if b == broker && sent >= 1 then 1 else 0)
      else (if broker == LEGACY && sent >= 1 then 1 else 0) + (if b == broker && sent >= 3 then 1 else 0)
    case Increment(m, b) => if Place(m, b) == Place(Name(stage), broker) then 1 else 0
    case Reset(_) => 0
  }

  predicate Stamps(op: Op, stage: Stage, broker: string) {
    op.Record? && op.stage == stage &&
    if stage != MarketTicks then op.broker == broker && op.sent >= 2
    else (broker == LEGACY && op.sent >= 2) || (op.broker == broker && op.sent >= 4)
  }

  /** Increments since the broker's last reset. */
  function CountSince(trace: seq<Timed>, stage: Stage, broker: string): nat {
    if trace == [] then 0
    else
      var op := trace[|trace| - 1].op;
      if op == Reset(broker) then 0 else CountSince(trace[..|trace| - 1], stage, broker) + Counts(op, stage, broker)
  }

  /** The time of the last recorded activity since the broker's last reset; it never expires. */
  function LastActivity(trace: seq<Timed>, stage: Stage, broker: string): Option<int> {
    if trace == [] then None
    else
      var t := trace[|trace| - 1];
      if t.op == Reset(broker) then None
      else if Stamps(t.op, stage, broker) then Some(t.at)
      else LastActivity(trace[..|trace| - 1], stage, broker)
  }

  ghost function Expected(trace: seq<Timed>, stage: Stage, broker: string): View {
    var n, last := CountSince(trace, stage, broker), LastActivity(trace, stage, broker);
    View(if n == 0 then None else Some(Slot(Count(n), None)),
         if last.None? then None else Some(Slot(Stamp(last.value), Some(last.value + TTL))))
  }

  predicate Counting(v: View) {
    v.count.Some? ==> v.count.value.value.Count? && v.count.value.value.n > 0 && v.count.value.expires.None?
  }

  /** One call, seen from one stage of one broker. */
  ghost function Advance(v: View, t: Timed, stage: Stage, broker: string): View
    requires Counting(v)
  {
    var n := (if v.count.None? then 0 else v.count.value.value.n) + Counts(t.op, stage, broker);
    if t.op == Reset(broker) then View(None, None)
    else View(if n == 0 then None else Some(Slot(Count(n), None)),
              if Stamps(t.op, stage, broker) then Some(Slot(Stamp(t.at), Some(t.at + TTL))) else v.last)
  }

  lemma ExpectedAdvances(trace: seq<Timed>, stage: Stage, broker: string)
    requires trace != []
    ensures var before := Expected(trace[..|trace| - 1], stage, broker);
      Counting(before) && Expected(trace, stage, broker) == Advance(before, trace[|trace| - 1], stage, broker)
  {
  }

  lemma TickView(store: Metrics, now: int, b: string, sent: nat, stage: Stage, broker: string)
    requires Counting(ViewOf(store, Name(stage), broker))
    ensures var t := Timed(Record(MarketTicks, b, sent), now);
      ViewOf(Apply(store, t), Name(stage), broker) == Advance(ViewOf(store, Name(stage), broker), t, stage, broker)
  {
    StageNamesPlain(MarketTicks, stage);
    StageNamesPlain(stage, MarketTicks);
    PlacesMeetIff(Name(MarketTicks), LEGACY, Name(stage), broker);
    PlacesMeetIff(Name(MarketTicks), b, Name(stage), broker);
    var mid := Hit(store, now, Name(MarketTicks), LEGACY, sent >= 1, sent >= 2);
    HitView(store, now, Name(MarketTicks), LEGACY, sent >= 1, sent >= 2, Name(stage), broker);
    HitView(mid, now, Name(MarketTicks), b, sent >= 3, sent >= 4, Name(stage), broker);
  }

  lemma StageView(store: Metrics, now: int, s: Stage, b: string, sent: nat, stage: Stage, broker: string)
    requires s != MarketTicks && Counting(ViewOf(store, Name(stage), broker))
    ensures var t := Timed(Record(s, b, sent), now);
      ViewOf(Apply(store, t), Name(stage), broker) == Advance(ViewOf(store, Name(stage), broker), t, stage, broker)
  {
    StageNamesPlain(s, stage);
    StageNamesPlain(stage, s);
    PlacesMeetIff(Name(s), b, Name(stage), broker);
    HitView(store, now, Name(s), b, sent >= 1, sent >= 2, Name(stage), broker);
  }

  lemma IncrementView(store: Metrics, now: int, m: string, b: string, stage: Stage, broker: string)
    requires Counting(ViewOf(store, Name(stage), broker))
    ensures var t := Timed(Increment(m, b), now);
      ViewOf(Apply(store, t), Name(stage), broker) == Advance(ViewOf(store, Name(stage), broker), t, stage, broker)
  {
    HitView(store, now, m, b, true, false, Name(stage), broker);
  }

  lemma ApplyView(store: Metrics, t: Timed, stage: Stage, broker: string)
    requires Counting(ViewOf(store, Name(stage), broker))
    ensures ViewOf(Apply(store, t), Name(stage), broker) ==
            Advance(ViewOf(store, Name(stage), broker), t, stage, broker)
  {
    match t.op {
      case Record(s, b, sent) =>
        if s == MarketTicks {
          TickView(store, t.at, b, sent, stage, broker);
        } else {
          StageView(store, t.at, s, b, sent, stage, broker);
        }
      case Increment(m, b) =>
        IncrementView(store, t.at, m, b, stage, broker);
      case Reset(b) =>
        ResetView(store, b, stage, broker);
    }
  }

  lemma {:induction false} StoreMatchesLog(trace: seq<Timed>, stage: Stage, broker: string)
    ensures ViewOf(Run(trace), Name(stage), broker) == Expected(trace, stage, broker)
  {
    if trace != [] {
      StoreMatchesLog(trace[..|trace| - 1], stage, broker);
      ExpectedAdvances(trace, stage, broker);
      ApplyView(Run(trace[..|trace| - 1]), trace[|trace| - 1], stage, broker);
    }
  }

  /**
   Expiry is invisible: after any calls at any times, the verdict read from the expiring keys is
   the verdict over the never-expiring call log, because every threshold (five seconds for ticks, a minute
   for the other stages) is below the time to live.
   */
  lemma HealthMatchesLog(trace: seq<Timed>, now: int, stage: Stage, broker: string)
    ensures var last := LastActivity(trace, stage, broker);
      StageHealth(Run(trace), now, stage, broker) ==
      Health(last.Some? && now - last.value < (if stage == MarketTicks then 5_000_000 else 60_000_000),
             CountSince(trace, stage, broker))
  {
    StoreMatchesLog(trace, stage, broker);
  }

  /** A stamp lives for exactly five minutes, a count until it is reset. */
  lemma {:induction false} StampsLapse(trace: seq<Timed>, now: int, stage: Stage, broker: string)
    ensures var store, last := Run(trace), LastActivity(trace, stage, broker);
      && (Live(store, now, Key(Name(stage), broker, "last")) <==> last.Some? && now < last.value + 300_000_000)
      && (Live(store, now, Key(Name(stage), broker, "count")) <==> CountSince(trace, stage, broker) > 0)
  {
    StoreMatchesLog(trace, stage, broker);
  }

  lemma KeyReads(stage: string, prefix: string, b: string, m: string)
    requires |prefix| == |stage| + 10 && prefix[..9] == "pipeline:" && prefix[9..|stage| + 9] == stage
    requires prefix[|stage| + 9] == ':'
    ensures Key(stage, b, m) == prefix + b + ":" + m
  {
    assert prefix == "pipeline:" + stage + ":";
    assert "pipeline:" + stage + ":" + b + ":" + m == ("pipeline:" + stage + ":") + b + ":" + m;
  }

  /** The keys that other components read and write by their text. */
  lemma KeysRead(b: string, m: string)
    ensures Key(Name(MarketTicks), b, m) == "pipeline:market_ticks:" + b + ":" + m
    ensures Key(Name(Signals), b, m) == "pipeline:signals:" + b + ":" + m
    ensures Key(Name(Orders), b, m) == "pipeline:orders:" + b + ":" + m
  {
    KeyReads("market_ticks", "pipeline:market_ticks:", b, m);
    KeyReads("signals", "pipeline:signals:", b, m);
    KeyReads("orders", "pipeline:orders:", b, m);
  }

  lemma MoreKeysRead(b: string, m: string)
    ensures Key(Name(SignalsValidated), b, m) == "pipeline:signals_validated:" + b + ":" + m
    ensures Key(Name(SignalsRejected), b, m) == "pipeline:signals_rejected:" + b + ":" + m
    ensures Key(Name(PortfolioUpdates), b, m) == "pipeline:portfolio_updates:" + b + ":" + m
  {
    KeyReads("signals_validated", "pipeline:signals_validated:", b, m);
    KeyReads("signals_rejected", "pipeline:signals_rejected:", b, m);
    KeyReads("portfolio_updates", "pipeline:portfolio_updates:", b, m);
  }

  /** The calls made on behalf of one broker. */
  function Own(trace: seq<Timed>, broker: string): seq<Timed> {
    if trace == [] then []
    else
      var t := trace[|trace| - 1];
      if t.op.broker == broker then Own(trace[..|trace| - 1], broker) + [t] else Own(trace[..|trace| - 1], broker)
  }

  /** A call for another broker that shows all the same: a tick under the shared legacy name, or an
      increment whose metric and broker read like the stage and the broker. */
  predicate Intrudes(op: Op, stage: Stage, broker: string) {
    && op.broker != broker
    && match op
       case Record(s, _, sent) => s == MarketTicks && stage == MarketTicks && broker == LEGACY && sent >= 1
       case Increment(m, b) => Place(m, b) == Place(Name(stage), broker)
       case Reset(_) => false
  }

  ghost predicate Undisturbed(trace: seq<Timed>, stage: Stage, broker: string) {
    forall i :: 0 <= i < |trace| ==> !Intrudes(trace[i].op, stage, broker)
  }

  lemma {:induction false} OwnLog(trace: seq<Timed>, stage: Stage, broker: string)
    requires Undisturbed(trace, stage, broker)
    ensures var own := Own(trace, broker);
      && LastActivity(own, stage, broker) == LastActivity(trace, stage, broker)
      && CountSince(own, stage, broker) == CountSince(trace, stage, broker)
  {
    if trace != [] {
      var n := |trace| - 1;
      var t, own := trace[n], Own(trace[..n], broker);
      OwnLog(trace[..n], stage, broker);
      assert trace[..n] + [t] == trace;
      LogAppended(trace[..n], t, stage, broker);
      LogAppended(own, t, stage, broker);
    }
  }

  /** The references look at the last call first; a call for another broker does not show. */
  lemma LogAppended(trace: seq<Timed>, t: Timed, stage: Stage, broker: string)
    ensures CountSince(trace + [t], stage, broker) ==
            if t.op == Reset(broker) then 0 else CountSince(trace, stage, broker) + Counts(t.op, stage, broker)
    ensures LastActivity(trace + [t], stage, broker) ==
            if t.op == Reset(broker) then None
            else if Stamps(t.op, stage, broker) then Some(t.at)
            else LastActivity(trace, stage, broker)
    ensures t.op.broker != broker ==> (Counts(t.op, stage, broker) > 0 <==> Intrudes(t.op, stage, broker))
    ensures t.op.broker != broker && !Intrudes(t.op, stage, broker) ==> !Stamps(t.op, stage, broker)
  {
    assert (trace + [t])[..|trace|] == trace;
  }

  /** Broker isolation: other brokers' calls change no verdict and no count of a broker, unless one of
      them intrudes. */
  lemma {:induction false} BrokersIsolated(trace: seq<Timed>, now: int, stage: Stage, broker: string)
    requires Undisturbed(trace, stage, broker)
    ensures StageHealth(Run(trace), now, stage, broker) == StageHealth(Run(Own(trace, broker)), now, stage, broker)
  {
    OwnLog(trace, stage, broker);
    HealthMatchesLog(trace, now, stage, broker);
    HealthMatchesLog(Own(trace, broker), now, stage, broker);
  }

  /** What a stage of a broker reports does not change when a call is added, whatever came before. */
  ghost predicate Unseen(op: Op, stage: Stage, broker: string) {
    forall trace: seq<Timed>, at, now ::
      StageHealth(Run(trace + [Timed(op, at)]), now, stage, broker) == StageHealth(Run(trace), now, stage, broker)
  }

  /** Exactly which calls for other brokers are never seen: those that do not intrude. */
  lemma {:induction false} UnseenIff(op: Op, stage: Stage, broker: string)
    requires op.broker != broker
    ensures Unseen(op, stage, broker) <==> !Intrudes(op, stage, broker)
  {
    if Intrudes(op, stage, broker) {
      var trace: seq<Timed> := [];
      HealthMatchesLog(trace, 0, stage, broker);
      HealthMatchesLog(trace + [Timed(op, 0)], 0, stage, broker);
      LogAppended(trace, Timed(op, 0), stage, broker);
      assert StageHealth(Run(trace + [Timed(op, 0)]), 0, stage, broker) != StageHealth(Run(trace), 0, stage, broker);
    } else {
      forall trace: seq<Timed>, at, now
        ensures StageHealth(Run(trace + [Timed(op, at)]), now, stage, broker) ==
                StageHealth(Run(trace), now, stage, broker)
      {
        HealthMatchesLog(trace, now, stage, broker);
        HealthMatchesLog(trace + [Timed(op, at)], now, stage, broker);
        LogAppended(trace, Timed(op, at), stage, broker);
      }
    }
  }

  /** The exception is real: any other broker's tick shows up under the legacy name. */
  lemma LegacyNotIsolated(broker: string, now: int)
    requires broker != LEGACY
    ensures var trace := [Timed(Record(MarketTicks, broker, 4), now)];
      && Own(trace, LEGACY) == []
      && StageHealth(Run(trace), now, MarketTicks, LEGACY) == Health(true, 1)
      && StageHealth(Run(Own(trace, LEGACY)), now, MarketTicks, LEGACY) == Health(false, 0)
  {
    var trace := [Timed(Record(MarketTicks, broker, 4), now)];
    HealthMatchesLog(trace, now, MarketTicks, LEGACY);
    HealthMatchesLog([], now, MarketTicks, LEGACY);
    assert trace[..0] == [];
  }

  /** Separators in metric names intrude on other brokers: such a counter lands on their key. */
  lemma SeparatorCollides(stage: Stage, x: string, y: string)
    ensures Place(Name(stage) + ":" + x, y) == Place(Name(stage), x + ":" + y)
    ensures Intrudes(Increment(Name(stage) + ":" + x, y), stage, x + ":" + y)
  {
    assert Name(stage) + ":" + x + ":" + y == Name(stage) + ":" + (x + ":" + y);
    assert |x + ":" + y| == |x| + 1 + |y|;
  }

  /** The collector over a shared Redis server. */
  class PipelineMetricsCollector {
    const redis: Server<Value>

    constructor (redis: Server<Value>)
      ensures this.redis == redis
    {
      this.redis := redis;
    }

    /** INCR and SETEX of one stage, as far as `sent` commands get. */
    method Send(stage: string, broker: string, sent: nat)
      modifies redis`store
      ensures redis.store == Hit(old(redis.store), redis.now, stage, broker, sent >= 1, sent >= 2)
    {
      if sent >= 1 {
        redis.store := Incr(redis.store, redis.now, Key(stage, broker, "count"));
      }
      if sent >= 2 {
        redis.store := Setex(redis.store, redis.now, Key(stage, broker, "last"), TTL, Stamp(redis.now));
      }
    }

    method RecordMarketTick(broker: string, sent: nat)
      modifies redis`store
      ensures redis.store == Apply(old(redis.store), Timed(Record(MarketTicks, broker, sent), redis.now))
    {
      Send("market_ticks", "market", sent);
      Send("market_ticks", broker, if sent < 2 then 0 else sent - 2);
    }

    method RecordSignalGenerated(broker: string, sent: nat)
      modifies redis`store
      ensures redis.store == Apply(old(redis.store), Timed(Record(Signals, broker, sent), redis.now))
    {
      Send("signals", broker, sent);
    }

    method RecordSignalValidated(passed: bool, broker: string, sent: nat)
      modifies redis`store
      ensures redis.store == Apply(old(redis.store),
                Timed(Record(if passed then SignalsValidated else SignalsRejected, broker, sent), redis.now))
    {
      if passed {
        Send("signals_validated", broker, sent);
      } else {
        Send("signals_rejected", broker, sent);
      }
    }

    method RecordOrderProcessed(broker: string, sent: nat)
      modifies redis`store
      ensures redis.store == Apply(old(redis.store), Timed(Record(Orders, broker, sent), redis.now))
    {
      Send("orders", broker, sent);
    }

    method RecordPortfolioUpdate(broker: string, sent: nat)
      modifies redis`store
      ensures redis.store == Apply(old(redis.store), Timed(Record(PortfolioUpdates, broker, sent), redis.now))
    {
      Send("portfolio_updates", broker, sent);
    }

    method IncrementCount(metric: string, broker: string)
      modifies redis`store
      ensures redis.store == Apply(old(redis.store), Timed(Increment(metric, broker), redis.now))
    {
      Send(metric, broker, 1);
    }

    method ResetMetrics(broker: string)
      modifies redis`store
      ensures redis.store == Apply(old(redis.store), Timed(Reset(broker), redis.now))
    {
      var keysToDelete: set<string> := {};
      for i := 0 to |ALL_STAGES|
        invariant forall k :: k in keysToDelete ==> k in ResetKeys(broker)
        invariant forall j :: 0 <= j < i ==>
          Key(Name(ALL_STAGES[j]), broker, "last") in keysToDelete &&
            Key(Name(ALL_STAGES[j]), broker, "count") in keysToDelete
      {
        var stage := ALL_STAGES[i];
        keysToDelete := keysToDelete + {Key(Name(stage), broker, "last"), Key(Name(stage), broker, "count")};
      }
      assert keysToDelete == ResetKeys(broker);
      redis.store := redis.store - keysToDelete;
    }

    method GetPipelineHealth(broker: string) returns (overall: bool, stages: map<Stage, Health>)
      ensures stages.Keys == {MarketTicks, Signals, SignalsValidated, Orders, PortfolioUpdates}
      ensures forall s :: s in stages ==> stages[s] == StageHealth(redis.store, redis.now, s, broker)
      ensures overall <==> forall s :: s in stages ==> stages[s].healthy
    {
      stages, overall := map[], true;
      for i := 0 to |HEALTH_STAGES|
        invariant stages.Keys == set j | 0 <= j < i :: HEALTH_STAGES[j]
        invariant forall s :: s in stages ==> stages[s] == StageHealth(redis.store, redis.now, s, broker)
        invariant overall <==>
          forall j :: 0 <= j < i ==> StageHealth(redis.store, redis.now, HEALTH_STAGES[j], broker).healthy
      {
        var health := StageHealth(redis.store, redis.now, HEALTH_STAGES[i], broker);
        stages := stages[HEALTH_STAGES[i] := health];
        overall := overall && health.healthy;
      }
      assert HEALTH_STAGES[0] == MarketTicks && HEALTH_STAGES[1] == Signals && HEALTH_STAGES[2] == SignalsValidated;
      assert HEALTH_STAGES[3] == Orders && HEALTH_STAGES[4] == PortfolioUpdates;
    }
  }
}
