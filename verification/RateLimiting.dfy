/**
 The two sliding-window rate limiters: per-client deques of admissions in memory, and per-client
 sorted sets of attempts in Redis with an expiring key. Both are shown to decide as a reference
 that keeps the whole request log, and through the references they are compared.
 */
module RateLimiting {
  import opened Prelude

  /** The wall clock, in microseconds since the epoch. */
  type Time = nat

  datatype Request = Request(client: string, at: Time)

  // In-memory limiter.

  type Clients = map<string, seq<Time>>

  function Queue(clients: Clients, client: string): seq<Time> {
    if client in clients then clients[client] else []
  }

  /** Pops everything at the head that is not newer than `cutoff`. */
  function Evict(q: seq<Time>, cutoff: int): seq<Time> {
    if q != [] && q[0] <= cutoff then Evict(q[1..], cutoff) else q
  }

  predicate MemoryAllows(clients: Clients, calls: int, period: int, r: Request) {
    |Evict(Queue(clients, r.client), r.at - period * SECOND)| < calls
  }

  function MemoryStep(clients: Clients, calls: int, period: int, r: Request): Clients {
    var q := Evict(Queue(clients, r.client), r.at - period * SECOND);
    clients[r.client := if |q| < calls then q + [r.at] else q]
  }

  class MemoryLimiter {
    const calls: int
    const period: int
    var clients: Clients

    constructor (calls: int, period: int)
      ensures this.calls == calls && this.period == period && clients == map[]
    {
      this.calls, this.period, clients := calls, period, map[];
    }

    method Check(client: string, now: Time) returns (allowed: bool)
      modifies this
      ensures allowed == MemoryAllows(old(clients), calls, period, Request(client, now))
      ensures clients == MemoryStep(old(clients), calls, period, Request(client, now))
    {
      var q := Queue(clients, client);
      while q != [] && q[0] <= now - period * SECOND
        invariant Evict(q, now - period * SECOND) == Evict(Queue(clients, client), now - period * SECOND)
        invariant clients == old(clients)
        decreases |q|
      {
        q := q[1..];
      }
      clients := clients[client := q];
      if |q| >= calls {
        return false;
      }
      clients := clients[client := q + [now]];
      return true;
    }
  }

  /** The limiter after a stream of requests, with the log of the requests it admitted. */
  datatype Memory = Memory(clients: Clients, admitted: seq<Request>)

  function Take(m: Memory, calls: int, period: int, r: Request): Memory {
    Memory(MemoryStep(m.clients, calls, period, r),
           if MemoryAllows(m.clients, calls, period, r) then m.admitted + [r] else m.admitted)
  }

  function MemoryRun(calls: int, period: int, reqs: seq<Request>): Memory {
    if reqs == [] then Memory(map[], [])
    else Take(MemoryRun(calls, period, reqs[..|reqs| - 1]), calls, period, reqs[|reqs| - 1])
  }

  // Redis limiter.

  /** A sorted set whose members are named after their scores, with the key's expiry time. */
  datatype Window = Window(members: set<Time>, expires: int)

  type Keys = map<string, Window>

  function RedisKey(client: string): string {
    "rate_limit:" + client
  }

  function Members(keys: Keys, key: string, now: Time, expiring: bool): set<Time> {
    if key in keys && (expiring ==> now < keys[key].expires) then keys[key].members else {}
  }

  /** ZREMRANGEBYSCORE key 0 now-period, then ZADD of the request itself. */
  function Slide(keys: Keys, period: int, expiring: bool, r: Request): set<Time> {
    (set t | t in Members(keys, RedisKey(r.client), r.at, expiring) && !(0 <= t <= r.at - period * SECOND)) + {r.at}
  }

  /** ZCARD after EXPIRE; a non-positive expiry has already deleted the key. */
  predicate RedisAllows(keys: Keys, calls: int, period: int, expiring: bool, r: Request) {
    (if period + 1 <= 0 then 0 else |Slide(keys, period, expiring, r)|) <= calls
  }

  function RedisStep(keys: Keys, period: int, expiring: bool, r: Request): Keys {
    if period + 1 <= 0 then keys - {RedisKey(r.client)}
    else keys[RedisKey(r.client) := Window(Slide(keys, period, expiring, r), r.at + (period + 1) * SECOND)]
  }

  class RedisLimiter {
    const calls: int
    const period: int
    var keys: Keys

    constructor (calls: int, period: int)
      ensures this.calls == calls && this.period == period && keys == map[]
    {
      this.calls, this.period, keys := calls, period, map[];
    }

    /** `up` says whether the pipeline reaches Redis; a failure admits the request. */
    method Check(client: string, now: Time, up: bool) returns (allowed: bool)
      modifies this
      ensures up ==> allowed == RedisAllows(old(keys), calls, period, true, Request(client, now))
      ensures up ==> keys == RedisStep(old(keys), period, true, Request(client, now))
      ensures !up ==> allowed && keys == old(keys)
    {
      if !up {
        return true;
      }
      var key := "rate_limit:" + client;
      var members := Members(keys, key, now, true);
      members := set t | t in members && !(0 <= t <= now - period * SECOND);
      members := members + {now};
      if period + 1 <= 0 {
        keys := keys - {key};
        return 0 <= calls;
      }
      keys := keys[key := Window(members, now + (period + 1) * SECOND)];
      return |members| <= calls;
    }
  }

  function RedisRun(period: int, expiring: bool, reqs: seq<Request>): Keys {
    if reqs == [] then map[]
    else RedisStep(RedisRun(period, expiring, reqs[..|reqs| - 1]), period, expiring, reqs[|reqs| - 1])
  }

  // References over the whole request log.

  /** The times of one client's requests. */
  function Times(reqs: seq<Request>, client: string): seq<Time> {
    if reqs == [] then []
    else
      var r := reqs[|reqs| - 1];
      if r.client == client then Times(reqs[..|reqs| - 1], client) + [r.at] else Times(reqs[..|reqs| - 1], client)
  }

  /** How many of the times lie in the window (lo, hi]. */
  function InWindow(times: seq<Time>, lo: int, hi: int): nat {
    if times == [] then 0
    else
      var t := times[|times| - 1];
      InWindow(times[..|times| - 1], lo, hi) + if lo < t <= hi then 1 else 0
  }

  /** The clock never runs backwards over the stream. */
  ghost predicate Chronological(reqs: seq<Request>) {
    forall i, j :: 0 <= i < j < |reqs| ==> reqs[i].at <= reqs[j].at
  }

  ghost predicate By(reqs: seq<Request>, now: int) {
    forall i :: 0 <= i < |reqs| ==> reqs[i].at <= now
  }

  ghost predicate UpTo(times: seq<Time>, now: int) {
    forall i :: 0 <= i < |times| ==> times[i] <= now
  }

  ghost predicate Sorted(times: seq<Time>) {
    forall i, j :: 0 <= i < j < |times| ==> times[i] <= times[j]
  }

  // Eviction.

  lemma {:induction false} EvictTwice(q: seq<Time>, a: int, b: int)
    requires a <= b
    ensures Evict(Evict(q, a), b) == Evict(q, b)
  {
    if q != [] && q[0] <= a {
      EvictTwice(q[1..], a, b);
    }
  }

  lemma {:induction false} EvictAppend(q: seq<Time>, t: Time, cutoff: int)
    ensures Evict(q + [t], cutoff) == if Evict(q, cutoff) == [] then Evict([t], cutoff) else Evict(q, cutoff) + [t]
  {
    if q == [] {
      assert q + [t] == [t];
    } else if q[0] <= cutoff {
      assert (q + [t])[1..] == q[1..] + [t];
      EvictAppend(q[1..], t, cutoff);
    }
  }

  /** In a sorted log the evicted prefix is exactly what lies outside the window. */
  lemma {:induction false} EvictCounts(times: seq<Time>, lo: int, hi: int)
    requires Sorted(times) && UpTo(times, hi)
    ensures |Evict(times, lo)| == InWindow(times, lo, hi)
  {
    if times != [] {
      var n := |times| - 1;
      EvictCounts(times[..n], lo, hi);
      EvictLast(times[..n], times[n], lo);
      assert times == times[..n] + [times[n]];
    }
  }

  lemma EvictLast(q: seq<Time>, t: Time, lo: int)
    requires UpTo(q, t)
    ensures |Evict(q + [t], lo)| == |Evict(q, lo)| + if lo < t then 1 else 0
  {
    EvictAppend(q, t, lo);
    if Evict(q, lo) != [] {
      EvictHead(q, lo);
    }
  }

  lemma {:induction false} EvictHead(q: seq<Time>, lo: int)
    requires Evict(q, lo) != []
    ensures Evict(q, lo)[0] in q && lo < Evict(q, lo)[0]
  {
    if q[0] <= lo {
      EvictHead(q[1..], lo);
    }
  }

  // The memory limiter against its reference.

  lemma TimesAppend(reqs: seq<Request>, r: Request, client: string)
    ensures Times(reqs + [r], client) ==
            if r.client == client then Times(reqs, client) + [r.at] else Times(reqs, client)
  {
    assert (reqs + [r])[..|reqs|] == reqs;
  }

  /** Admissions happen in clock order. */
  lemma {:induction false} AdmittedSorted(calls: int, period: int, reqs: seq<Request>, client: string, now: int)
    requires Chronological(reqs) && By(reqs, now)
    ensures var log := Times(MemoryRun(calls, period, reqs).admitted, client); Sorted(log) && UpTo(log, now)
  {
    if reqs != [] {
      var n := |reqs| - 1;
      AdmittedSorted(calls, period, reqs[..n], client, reqs[n].at);
      TimesAppend(MemoryRun(calls, period, reqs[..n]).admitted, reqs[n], client);
    }
  }

  /** A deque as good as the log from one cutoff on is as good from any later one, also after both
      took in the same admission. */
  lemma EvictTracks(q: seq<Time>, log: seq<Time>, t: Time, own: int, cutoff: int)
    requires own <= cutoff && Evict(q, own) == Evict(log, own)
    ensures Evict(Evict(q, own), cutoff) == Evict(log, cutoff)
    ensures Evict(Evict(q, own) + [t], cutoff) == Evict(log + [t], cutoff)
  {
    EvictTwice(log, own, cutoff);
    EvictAppend(Evict(log, own), t, cutoff);
    EvictAppend(log, t, cutoff);
  }

  ghost predicate Agrees(m: Memory, client: string, cutoff: int) {
    Evict(Queue(m.clients, client), cutoff) == Evict(Times(m.admitted, client), cutoff)
  }

  /** What one more request does to a client's deque and to the log of its admissions. */
  lemma {:induction false} TakeEffect(m: Memory, calls: int, period: int, r: Request, client: string)
    ensures var q, log := Evict(Queue(m.clients, r.client), r.at - period * SECOND), Times(m.admitted, client);
      var after := Take(m, calls, period, r);
      if r.client != client then
        Queue(after.clients, client) == Queue(m.clients, client) && Times(after.admitted, client) == log
      else if |q| < calls then
        Queue(after.clients, client) == q + [r.at] && Times(after.admitted, client) == log + [r.at]
      else Queue(after.clients, client) == q && Times(after.admitted, client) == log
  {
    TimesAppend(m.admitted, r, client);
  }

  /** One more request keeps the deque as good as the log. */
  lemma {:induction false} TakeAgrees(m: Memory, calls: int, period: int, r: Request, client: string, cutoff: int)
    requires r.at - period * SECOND <= cutoff
    requires Agrees(m, client, if r.client == client then r.at - period * SECOND else cutoff)
    ensures Agrees(Take(m, calls, period, r), client, cutoff)
  {
    TakeEffect(m, calls, period, r, client);
    if r.client == client {
      EvictTracks(Queue(m.clients, client), Times(m.admitted, client), r.at, r.at - period * SECOND, cutoff);
    }
  }

  /** From any cutoff that the latest requests have reached, the deque is as good as the log. */
  lemma {:induction false} QueueTracksLog(calls: int, period: int, reqs: seq<Request>, client: string, cutoff: int)
    requires Chronological(reqs) && By(reqs, cutoff + period * SECOND)
    ensures Agrees(MemoryRun(calls, period, reqs), client, cutoff)
  {
    if reqs != [] {
      var n := |reqs| - 1;
      var r := reqs[n];
      QueueTracksLog(calls, period, reqs[..n], client, if r.client == client then r.at - period * SECOND else cutoff);
      TakeAgrees(MemoryRun(calls, period, reqs[..n]), calls, period, r, client, cutoff);
    }
  }

  /** After any history, the memory limiter's decision counts exactly the admissions in the
      request's own window. */
  lemma {:induction false} MemoryExact(calls: int, period: int, reqs: seq<Request>, r: Request)
    requires Chronological(reqs) && By(reqs, r.at)
    ensures var m := MemoryRun(calls, period, reqs);
      MemoryAllows(m.clients, calls, period, r) <==>
      InWindow(Times(m.admitted, r.client), r.at - period * SECOND, r.at) < calls
  {
    var m, lo := MemoryRun(calls, period, reqs), r.at - period * SECOND;
    assert Agrees(m, r.client, lo) by { QueueTracksLog(calls, period, reqs, r.client, lo); }
    assert |Evict(Times(m.admitted, r.client), lo)| == InWindow(Times(m.admitted, r.client), lo, r.at) by {
      AdmittedSorted(calls, period, reqs, r.client, r.at);
      EvictCounts(Times(m.admitted, r.client), lo, r.at);
    }
  }

  /** Sliding the window past the newest time can only lose members. */
  lemma {:induction false} LaterWindowSmaller(times: seq<Time>, width: int, now: int, later: int)
    requires UpTo(times, now) && now <= later
    ensures InWindow(times, later - width, later) <= InWindow(times, now - width, now)
  {
    if times != [] {
      LaterWindowSmaller(times[..|times| - 1], width, now, later);
    }
  }

  lemma AdmittedHadRoom(calls: int, period: int, reqs: seq<Request>, r: Request)
    requires Chronological(reqs) && By(reqs, r.at)
    requires MemoryAllows(MemoryRun(calls, period, reqs).clients, calls, period, r)
    ensures var log := Times(MemoryRun(calls, period, reqs).admitted, r.client);
      InWindow(log, r.at - period * SECOND, r.at) < calls && UpTo(log, r.at)
  {
    MemoryExact(calls, period, reqs, r);
    AdmittedSorted(calls, period, reqs, r.client, r.at);
  }

  /** One more request keeps the limit over a given window. */
  lemma {:induction false} RequestKeepsBound(calls: int, period: int, reqs: seq<Request>, r: Request, client: string,
                                             end: int)
    requires Chronological(reqs) && By(reqs, r.at)
    requires InWindow(Times(MemoryRun(calls, period, reqs).admitted, client), end - period * SECOND, end) <= calls
    ensures InWindow(Times(MemoryRun(calls, period, reqs + [r]).admitted, client), end - period * SECOND, end) <= calls
  {
    var m := MemoryRun(calls, period, reqs);
    if r.client == client && MemoryAllows(m.clients, calls, period, r) {
      AdmittedHadRoom(calls, period, reqs, r);
    }
    TakeKeepsBound(m, calls, period, r, client, end);
    assert (reqs + [r])[..|reqs|] == reqs;
  }

  lemma {:induction false} TakeKeepsBound(m: Memory, calls: int, period: int, r: Request, client: string, end: int)
    requires var log := Times(m.admitted, client);
      && InWindow(log, end - period * SECOND, end) <= calls
      && (r.client == client && MemoryAllows(m.clients, calls, period, r) ==>
            UpTo(log, r.at) && InWindow(log, r.at - period * SECOND, r.at) < calls)
    ensures InWindow(Times(Take(m, calls, period, r).admitted, client), end - period * SECOND, end) <= calls
  {
    TimesAppend(m.admitted, r, client);
    if r.client == client && MemoryAllows(m.clients, calls, period, r) {
      AdmissionKeepsBound(Times(m.admitted, client), r.at, period * SECOND, end, calls);
    }
  }

  /** The limit holds over every window of the given width, not only those ending at a request. */
  lemma {:induction false} MemoryWindowBound(calls: int, period: int, reqs: seq<Request>, client: string, end: int)
    requires Chronological(reqs) && calls >= 0
    ensures InWindow(Times(MemoryRun(calls, period, reqs).admitted, client), end - period * SECOND, end) <= calls
  {
    if reqs != [] {
      var n := |reqs| - 1;
      MemoryWindowBound(calls, period, reqs[..n], client, end);
      RequestKeepsBound(calls, period, reqs[..n], reqs[n], client, end);
      assert reqs[..n] + [reqs[n]] == reqs;
    }
  }

  /** An admission into a window with room left overfills no other window. */
  lemma AdmissionKeepsBound(log: seq<Time>, at: Time, width: int, end: int, calls: int)
    requires UpTo(log, at) && InWindow(log, at - width, at) < calls && InWindow(log, end - width, end) <= calls
    ensures InWindow(log + [at], end - width, end) <= calls
  {
    WindowAppend(log, at, end - width, end);
    if at <= end {
      LaterWindowSmaller(log, width, at, end);
    }
  }

  lemma WindowAppend(times: seq<Time>, t: Time, lo: int, hi: int)
    ensures InWindow(times + [t], lo, hi) == InWindow(times, lo, hi) + if lo < t <= hi then 1 else 0
  {
    assert (times + [t])[..|times|] == times;
  }

  /** A request is turned away exactly when its own window already holds `calls` admissions. */
  lemma {:induction false} MemoryRejectsAtLimit(calls: int, period: int, reqs: seq<Request>, r: Request)
    requires Chronological(reqs) && By(reqs, r.at) && calls >= 0
    ensures var m := MemoryRun(calls, period, reqs);
      !MemoryAllows(m.clients, calls, period, r) <==>
      InWindow(Times(m.admitted, r.client), r.at - period * SECOND, r.at) == calls
  {
    var held := InWindow(Times(MemoryRun(calls, period, reqs).admitted, r.client), r.at - period * SECOND, r.at);
    assert held <= calls by { MemoryWindowBound(calls, period, reqs, r.client, r.at); }
    MemoryExact(calls, period, reqs, r);
  }

  function Only(reqs: seq<Request>, client: string): seq<Request> {
    if reqs == [] then []
    else
      var r := reqs[|reqs| - 1];
      Only(reqs[..|reqs| - 1], client) + if r.client == client then [r] else []
  }

  /** Clients never affect each other: dropping everybody else's requests changes neither the
      client's deque nor its admissions. */
  lemma {:induction false} MemoryIsolation(calls: int, period: int, reqs: seq<Request>, client: string)
    ensures var m, alone := MemoryRun(calls, period, reqs), MemoryRun(calls, period, Only(reqs, client));
      Queue(m.clients, client) == Queue(alone.clients, client) &&
        Times(m.admitted, client) == Times(alone.admitted, client)
  {
    if reqs != [] {
      var n := |reqs| - 1;
      MemoryIsolation(calls, period, reqs[..n], client);
      var own, r := Only(reqs[..n], client), reqs[n];
      TimesAppend(MemoryRun(calls, period, reqs[..n]).admitted, r, client);
      if r.client == client {
        assert Only(reqs, client)[..|own|] == own;
        TimesAppend(MemoryRun(calls, period, own).admitted, r, client);
      } else {
        assert Only(reqs, client) == own;
      }
    }
  }

  // The Redis limiter against its reference.

  lemma RedisKeyInjective(a: string, b: string)
    requires RedisKey(a) == RedisKey(b)
    ensures a == b
  {
    assert RedisKey(a)[11..] == a && RedisKey(b)[11..] == b;
  }

  function Attempts(reqs: seq<Request>, client: string): set<Time> {
    set i | 0 <= i < |reqs| && reqs[i].client == client :: reqs[i].at
  }

  function Newer(times: set<Time>, lo: int): set<Time> {
    set t | t in times && lo < t
  }

  /** The sorted set holds the attempts of the last window and the key outlives that window. */
  ghost predicate Tracks(keys: Keys, reqs: seq<Request>, period: int, client: string, last: Time) {
    var key := RedisKey(client);
    if Attempts(reqs, client) == {} then key !in keys
    else
      && last in Attempts(reqs, client) && (forall t :: t in Attempts(reqs, client) ==> t <= last)
      && key in keys && keys[key].expires == last + (period + 1) * SECOND
      && keys[key].members == Newer(Attempts(reqs, client), last - period * SECOND) + {last}
  }

  /** Both with and without key expiry, a slide keeps exactly the window's attempts. */
  lemma SlideExact(keys: Keys, reqs: seq<Request>, period: int, expiring: bool, last: Time, r: Request)
    requires period >= 0 && By(reqs, r.at) && Tracks(keys, reqs, period, r.client, last)
    ensures Slide(keys, period, expiring, r) == Newer(Attempts(reqs, r.client), r.at - period * SECOND) + {r.at}
  {
  }

  lemma {:induction false} RedisTracksLog(period: int, expiring: bool, reqs: seq<Request>,
                                          client: string) returns (last: Time)
    requires Chronological(reqs) && period >= 0
    ensures Tracks(RedisRun(period, expiring, reqs), reqs, period, client, last)
  {
    last := 0;
    if reqs != [] {
      var n := |reqs| - 1;
      last := RedisTracksLog(period, expiring, reqs[..n], client);
      AttemptsAppend(reqs[..n], reqs[n], client);
      assert reqs[..n] + [reqs[n]] == reqs;
      RedisStepTracks(RedisRun(period, expiring, reqs[..n]), reqs[..n], period, expiring, client, last, reqs[n]);
      last := if reqs[n].client == client then reqs[n].at else last;
    }
  }

  lemma AttemptsAppend(reqs: seq<Request>, r: Request, client: string)
    ensures Attempts(reqs + [r], client) ==
            if r.client == client then Attempts(reqs, client) + {r.at} else Attempts(reqs, client)
  {
    forall t | t in Attempts(reqs, client) ensures t in Attempts(reqs + [r], client) {
      var i :| 0 <= i < |reqs| && reqs[i].client == client && reqs[i].at == t;
      assert (reqs + [r])[i] == reqs[i];
    }
    assert (reqs + [r])[|reqs|] == r;
  }

  lemma RedisStepTracks(keys: Keys, reqs: seq<Request>, period: int, expiring: bool, client: string, last: Time,
                        r: Request)
    requires period >= 0 && By(reqs, r.at) && Tracks(keys, reqs, period, client, last)
    ensures Tracks(RedisStep(keys, period, expiring, r), reqs + [r], period, client,
                   if r.client == client then r.at else last)
  {
    AttemptsAppend(reqs, r, client);
    if r.client == client {
      SlideExact(keys, reqs, period, expiring, last, r);
    } else if RedisKey(r.client) == RedisKey(client) {
      RedisKeyInjective(r.client, client);
    }
  }

  /** After any history, the Redis limiter's decision counts the distinct attempt times in the
      request's own window, admitted or not; expiring the key changes nothing. */
  lemma {:induction false} RedisExact(calls: int, period: int, expiring: bool, reqs: seq<Request>, r: Request)
    requires Chronological(reqs) && By(reqs, r.at) && period >= 0
    ensures RedisAllows(RedisRun(period, expiring, reqs), calls, period, expiring, r) <==>
            |Newer(Attempts(reqs, r.client), r.at - period * SECOND) + {r.at}| <= calls
  {
    var last := RedisTracksLog(period, expiring, reqs, r.client);
    SlideExact(RedisRun(period, expiring, reqs), reqs, period, expiring, last, r);
  }

  /** With a negative period the expiry deletes the key at once: nothing is counted or kept, and every request
      is admitted unless the limit is negative too. */
  lemma {:induction false} RedisNegativePeriod(calls: int, period: int, expiring: bool, reqs: seq<Request>, r: Request)
    requires period < 0
    ensures RedisAllows(RedisRun(period, expiring, reqs), calls, period, expiring, r) <==> calls >= 0
    ensures RedisRun(period, expiring, reqs) == map[]
  {
    if reqs != [] {
      RedisNegativePeriod(calls, period, expiring, reqs[..|reqs| - 1], r);
    }
  }

  /** The expiry of `period + 1` seconds never changes a decision. */
  lemma {:induction false} ExpiryInvisible(calls: int, period: int, reqs: seq<Request>, r: Request)
    requires Chronological(reqs) && By(reqs, r.at) && period >= 0
    ensures RedisAllows(RedisRun(period, true, reqs), calls, period, true, r) ==
            RedisAllows(RedisRun(period, false, reqs), calls, period, false, r)
  {
    RedisExact(calls, period, true, reqs, r);
    RedisExact(calls, period, false, reqs, r);
  }

  // Comparison.

  /** The client makes no two requests at the same instant after `lo`. */
  ghost predicate Distinct(reqs: seq<Request>, client: string, lo: int) {
    forall i, j :: 0 <= i < j < |reqs| && reqs[i].client == client && reqs[j].client == client && lo < reqs[i].at ==>
      reqs[i].at != reqs[j].at
  }

  /** Admissions are attempts, so a window holds no more admissions than distinct attempts. */
  lemma {:induction false} AdmissionsWithinAttempts(calls: int, period: int, reqs: seq<Request>, client: string,
                                                    lo: int, hi: int)
    requires Distinct(reqs, client, lo)
    ensures InWindow(Times(MemoryRun(calls, period, reqs).admitted, client), lo, hi) <=
            |Newer(Attempts(reqs, client), lo)|
  {
    if reqs != [] {
      var before, r := reqs[..|reqs| - 1], reqs[|reqs| - 1];
      assert before + [r] == reqs;
      AdmissionsWithinAttempts(calls, period, before, client, lo, hi);
      TakeWithinAttempts(MemoryRun(calls, period, before), calls, period, before, r, client, lo, hi);
    }
  }

  lemma {:induction false} TakeWithinAttempts(m: Memory, calls: int, period: int, reqs: seq<Request>, r: Request,
                                              client: string, lo: int, hi: int)
    requires Distinct(reqs + [r], client, lo)
    requires InWindow(Times(m.admitted, client), lo, hi) <= |Newer(Attempts(reqs, client), lo)|
    ensures InWindow(Times(Take(m, calls, period, r).admitted, client), lo, hi) <=
            |Newer(Attempts(reqs + [r], client), lo)|
  {
    TimesAppend(m.admitted, r, client);
    WindowAppend(Times(m.admitted, client), r.at, lo, hi);
    NewAttempt(reqs, r, client, lo);
  }

  lemma {:induction false} NewTime(reqs: seq<Request>, r: Request, client: string, lo: int)
    requires Distinct(reqs + [r], client, lo) && r.client == client
    ensures r.at !in Newer(Attempts(reqs, client), lo)
  {
    forall i | 0 <= i < |reqs| && reqs[i].client == client && lo < reqs[i].at ensures reqs[i].at != r.at {
      assert (reqs + [r])[i] == reqs[i] && (reqs + [r])[|reqs|] == r;
    }
  }

  lemma {:induction false} NewAttempt(reqs: seq<Request>, r: Request, client: string, lo: int)
    requires Distinct(reqs + [r], client, lo)
    ensures |Newer(Attempts(reqs + [r], client), lo)| ==
            |Newer(Attempts(reqs, client), lo)| + if r.client == client && lo < r.at then 1 else 0
  {
    AttemptsAppend(reqs, r, client);
    if r.client == client {
      NewerPlus(Attempts(reqs, client), r.at, lo);
      NewTime(reqs, r, client, lo);
    }
  }

  lemma NewerPlus(times: set<Time>, t: Time, lo: int)
    ensures Newer(times + {t}, lo) == if lo < t then Newer(times, lo) + {t} else Newer(times, lo)
  {
  }

  /** The Redis limiter is the stricter one: after the same history, whatever it admits the memory
      limiter admits as well. Only ties of the same client inside the request's own window matter. */
  lemma {:induction false} RedisStricter(calls: int, period: int, reqs: seq<Request>, r: Request)
    requires Chronological(reqs) && By(reqs, r.at) && period >= 0
    requires Distinct(reqs + [r], r.client, r.at - period * SECOND)
    requires RedisAllows(RedisRun(period, true, reqs), calls, period, true, r)
    ensures MemoryAllows(MemoryRun(calls, period, reqs).clients, calls, period, r)
  {
    var lo := r.at - period * SECOND;
    AttemptsLeaveRoom(calls, period, reqs, r);
    assert InWindow(Times(MemoryRun(calls, period, reqs).admitted, r.client), lo, r.at) <=
           |Newer(Attempts(reqs, r.client), lo)| by {
      DistinctPrefix(reqs, r, r.client, lo);
      AdmissionsWithinAttempts(calls, period, reqs, r.client, lo, r.at);
    }
    MemoryExact(calls, period, reqs, r);
  }

  lemma DistinctPrefix(reqs: seq<Request>, r: Request, client: string, lo: int)
    requires Distinct(reqs + [r], client, lo)
    ensures Distinct(reqs, client, lo)
  {
    assert forall i :: 0 <= i < |reqs| ==> (reqs + [r])[i] == reqs[i];
  }

  lemma AttemptsLeaveRoom(calls: int, period: int, reqs: seq<Request>, r: Request)
    requires Chronological(reqs) && By(reqs, r.at) && period >= 0
    requires Distinct(reqs + [r], r.client, r.at - period * SECOND)
    requires RedisAllows(RedisRun(period, true, reqs), calls, period, true, r)
    ensures |Newer(Attempts(reqs, r.client), r.at - period * SECOND)| < calls
  {
    RedisExact(calls, period, true, reqs, r);
    NewTime(reqs, r, r.client, r.at - period * SECOND);
    var others := Newer(Attempts(reqs, r.client), r.at - period * SECOND);
    assert |others + {r.at}| == |others| + 1;
  }

  /** What the two exact statements give together, with or without ties: Redis admits what memory rejects
      exactly when few distinct instants hide many admissions. */
  lemma {:induction false} RedisLaxerIff(calls: int, period: int, reqs: seq<Request>, r: Request)
    requires Chronological(reqs) && By(reqs, r.at) && period >= 0
    ensures var m, lo := MemoryRun(calls, period, reqs), r.at - period * SECOND;
      && RedisAllows(RedisRun(period, true, reqs), calls, period, true, r)
      && !MemoryAllows(m.clients, calls, period, r)
      <==>
      |Newer(Attempts(reqs, r.client), lo) + {r.at}| <= calls <= InWindow(Times(m.admitted, r.client), lo, r.at)
  {
    RedisExact(calls, period, true, reqs, r);
    MemoryExact(calls, period, reqs, r);
  }

  /** Two requests of one client at the same instant are one member of the sorted set: the second
      is admitted by Redis and rejected in memory, so distinct instants cannot be dropped above. */
  lemma TiesFoolRedis(client: string, at: Time)
    ensures var first := [Request(client, at)];
      && RedisAllows(RedisRun(60, true, first), 1, 60, true, first[0])
      && !MemoryAllows(MemoryRun(1, 60, first).clients, 1, 60, first[0])
  {
    var first := [Request(client, at)];
    RedisExact(1, 60, true, first, first[0]);
    assert Attempts(first, client) == {at};
    assert Newer({at}, at - 60 * SECOND) + {at} == {at};
    assert first[..0] == [];
    assert MemoryRun(1, 60, first[..0]) == Memory(map[], []);
  }

  /** Rejected attempts count in Redis only: a client that retries once too early is still shut out
      when the memory limiter already lets it back in. */
  lemma RejectedAttemptsCountInRedis(client: string, at: Time)
    ensures var reqs := [Request(client, at), Request(client, at + 50 * SECOND)];
      var third := Request(client, at + 61 * SECOND);
      && MemoryAllows(MemoryRun(1, 60, reqs).clients, 1, 60, third)
      && !RedisAllows(RedisRun(60, true, reqs), 1, 60, true, third)
  {
    var reqs := [Request(client, at), Request(client, at + 50 * SECOND)];
    var third := Request(client, at + 61 * SECOND);
    assert !RedisAllows(RedisRun(60, true, reqs), 1, 60, true, third) by {
      RedisExact(1, 60, true, reqs, third);
      assert reqs[1].at in Attempts(reqs, client);
      SubsetSize({reqs[1].at, third.at}, Newer(Attempts(reqs, client), third.at - 60 * SECOND) + {third.at});
    }
    assert MemoryAllows(MemoryRun(1, 60, reqs).clients, 1, 60, third) by { SecondRejectedInMemory(client, at); }
  }

  lemma SecondRejectedInMemory(client: string, at: Time)
    ensures MemoryRun(1, 60, [Request(client, at), Request(client, at + 50 * SECOND)]).clients == map[client := [at]]
  {
    var reqs := [Request(client, at), Request(client, at + 50 * SECOND)];
    var one := [reqs[0]];
    assert one[..0] == [] && reqs[..1] == one;
    assert MemoryRun(1, 60, one[..0]).clients == map[];
    assert [] + [at] == [at];
    assert MemoryRun(1, 60, one).clients == map[client := [at]];
  }

  lemma {:induction false} SubsetSize<T>(a: set<T>, b: set<T>)
    requires a <= b
    ensures |a| <= |b|
  {
    if a != {} {
      var x :| x in a;
      SubsetSize(a - {x}, b - {x});
    }
  }

  // Failing open.

  /** A request to the Redis limiter and whether its pipeline reaches Redis. */
  datatype Call = Call(request: Request, up: bool)

  /** The requests Redis gets to see. */
  function Reaching(calls: seq<Call>): seq<Request> {
    if calls == [] then []
    else
      var before, c := Reaching(calls[..|calls| - 1]), calls[|calls| - 1];
      if c.up then before + [c.request] else before
  }

  function KeysAfter(period: int, calls: seq<Call>): Keys {
    if calls == [] then map[]
    else
      var keys, c := KeysAfter(period, calls[..|calls| - 1]), calls[|calls| - 1];
      if c.up then RedisStep(keys, period, true, c.request) else keys
  }

  /** Failed calls leave no trace in Redis, so every statement about runs holds of the others. */
  lemma {:induction false} KeysOfReaching(period: int, calls: seq<Call>)
    ensures KeysAfter(period, calls) == RedisRun(period, true, Reaching(calls))
  {
    if calls != [] {
      var before, c := calls[..|calls| - 1], calls[|calls| - 1];
      KeysOfReaching(period, before);
      assert (Reaching(before) + [c.request])[..|Reaching(before)|] == Reaching(before);
    }
  }

  predicate Admits(limit: int, period: int, before: seq<Call>, c: Call) {
    c.up ==> RedisAllows(KeysAfter(period, before), limit, period, true, c.request)
  }

  /** The times at which a client was admitted, by a verdict of Redis or by its failure. */
  function Admitted(limit: int, period: int, calls: seq<Call>, client: string, up: bool): seq<Time> {
    if calls == [] then []
    else
      var before, c := calls[..|calls| - 1], calls[|calls| - 1];
      var log := Admitted(limit, period, before, client, up);
      if c.request.client == client && c.up == up && Admits(limit, period, before, c) then log + [c.request.at] else log
  }

  /** Admissions by verdict are attempts that Redis saw. */
  lemma {:induction false} VerdictsWithinAttempts(limit: int, period: int, calls: seq<Call>, client: string, lo: int,
                                                  hi: int)
    requires Distinct(Reaching(calls), client, lo)
    ensures InWindow(Admitted(limit, period, calls, client, true), lo, hi) <=
            |Newer(Attempts(Reaching(calls), client), lo)|
  {
    if calls != [] {
      var before, c := calls[..|calls| - 1], calls[|calls| - 1];
      var log := Admitted(limit, period, before, client, true);
      if c.up {
        DistinctPrefix(Reaching(before), c.request, client, lo);
        VerdictsWithinAttempts(limit, period, before, client, lo, hi);
        NewAttempt(Reaching(before), c.request, client, lo);
        WindowAppend(log, c.request.at, lo, hi);
      } else {
        assert Reaching(calls) == Reaching(before);
        VerdictsWithinAttempts(limit, period, before, client, lo, hi);
      }
    }
  }

  /** A verdict that admits leaves room for itself in every window that ends later. */
  lemma {:induction false} VerdictKeepsBound(limit: int, period: int, reqs: seq<Request>, r: Request, end: int,
                                             log: nat)
    requires Chronological(reqs) && By(reqs, r.at) && period >= 0 && r.at <= end
    requires Distinct(reqs + [r], r.client, end - period * SECOND) && end - period * SECOND < r.at
    requires RedisAllows(RedisRun(period, true, reqs), limit, period, true, r)
    requires log <= |Newer(Attempts(reqs, r.client), end - period * SECOND)|
    ensures log + 1 <= limit
  {
    var wide, narrow := Newer(Attempts(reqs, r.client), r.at - period * SECOND),
      Newer(Attempts(reqs, r.client), end - period * SECOND);
    RedisExact(limit, period, true, reqs, r);
    NewTime(reqs, r, r.client, end - period * SECOND);
    assert |narrow + {r.at}| == |narrow| + 1;
    SubsetSize(narrow + {r.at}, wide + {r.at});
  }

  lemma ReachingAppend(calls: seq<Call>)
    requires calls != [] && calls[|calls| - 1].up
    ensures Reaching(calls) == Reaching(calls[..|calls| - 1]) + [calls[|calls| - 1].request]
  {
  }

  lemma ChronologicalPrefix(reqs: seq<Request>, r: Request)
    requires Chronological(reqs + [r])
    ensures Chronological(reqs) && By(reqs, r.at)
  {
    assert forall i :: 0 <= i < |reqs| ==> (reqs + [r])[i] == reqs[i];
    assert (reqs + [r])[|reqs|] == r;
  }

  lemma {:induction false} VerdictsBounded(limit: int, period: int, calls: seq<Call>, client: string, end: int)
    requires Chronological(Reaching(calls)) && period >= 0 && limit >= 0
    requires Distinct(Reaching(calls), client, end - period * SECOND)
    ensures InWindow(Admitted(limit, period, calls, client, true), end - period * SECOND, end) <= limit
  {
    if calls != [] {
      var before, c, lo := calls[..|calls| - 1], calls[|calls| - 1], end - period * SECOND;
      if !c.up {
        assert Reaching(calls) == Reaching(before);
        VerdictsBounded(limit, period, before, client, end);
      } else {
        ReachingAppend(calls);
        ChronologicalPrefix(Reaching(before), c.request);
        DistinctPrefix(Reaching(before), c.request, client, lo);
        VerdictsBounded(limit, period, before, client, end);
        AdmissionBounded(limit, period, before, c.request, client, end);
      }
    }
  }

  lemma {:induction false} AdmissionBounded(limit: int, period: int, before: seq<Call>, r: Request, client: string,
                                            end: int)
    requires Chronological(Reaching(before)) && By(Reaching(before), r.at) && period >= 0
    requires Distinct(Reaching(before) + [r], client, end - period * SECOND)
    requires InWindow(Admitted(limit, period, before, client, true), end - period * SECOND, end) <= limit
    ensures var log, lo := Admitted(limit, period, before, client, true), end - period * SECOND;
      r.client == client && RedisAllows(KeysAfter(period, before), limit, period, true, r) ==>
      InWindow(log + [r.at], lo, end) <= limit
  {
    var log, lo := Admitted(limit, period, before, client, true), end - period * SECOND;
    WindowAppend(log, r.at, lo, end);
    if r.client == client && RedisAllows(KeysAfter(period, before), limit, period, true, r) && lo < r.at <= end {
      KeysOfReaching(period, before);
      DistinctPrefix(Reaching(before), r, client, lo);
      VerdictsWithinAttempts(limit, period, before, client, lo, end);
      VerdictKeepsBound(limit, period, Reaching(before), r, end, InWindow(log, lo, end));
    }
  }

  /**
   The Redis limiter with failures: in any window of the period it admits at most the limit by verdict,
   so at most the limit plus the number of calls that failed, as long as no two calls of the client that
   reach Redis fall on one instant of the window.
   */
  lemma {:induction false} RedisWindowBound(limit: int, period: int, calls: seq<Call>, client: string, end: int)
    requires Chronological(Reaching(calls)) && period >= 0 && limit >= 0
    requires Distinct(Reaching(calls), client, end - period * SECOND)
    ensures var lo := end - period * SECOND;
      InWindow(AllAdmitted(limit, period, calls, client), lo, end) <= limit + InWindow(Failed(calls, client), lo, end)
  {
    FailedAreAdmitted(limit, period, calls, client);
    VerdictsBounded(limit, period, calls, client, end);
    AdmittedSplits(limit, period, calls, client, end - period * SECOND, end);
  }

  /** The times of a client's calls that did not reach Redis. */
  function Failed(calls: seq<Call>, client: string): seq<Time> {
    if calls == [] then []
    else
      var log, c := Failed(calls[..|calls| - 1], client), calls[|calls| - 1];
      if c.request.client == client && !c.up then log + [c.request.at] else log
  }

  /** The limiter fails open: all of them are admitted. */
  lemma {:induction false} FailedAreAdmitted(limit: int, period: int, calls: seq<Call>, client: string)
    ensures Admitted(limit, period, calls, client, false) == Failed(calls, client)
  {
    if calls != [] {
      FailedAreAdmitted(limit, period, calls[..|calls| - 1], client);
    }
  }

  /** All admissions of a client, in order. */
  function AllAdmitted(limit: int, period: int, calls: seq<Call>, client: string): seq<Time> {
    if calls == [] then []
    else
      var before, c := calls[..|calls| - 1], calls[|calls| - 1];
      var log := AllAdmitted(limit, period, before, client);
      if c.request.client == client && Admits(limit, period, before, c) then log + [c.request.at] else log
  }

  lemma {:induction false} AdmittedSplits(limit: int, period: int, calls: seq<Call>, client: string, lo: int, hi: int)
    ensures InWindow(AllAdmitted(limit, period, calls, client), lo, hi) ==
            InWindow(Admitted(limit, period, calls, client, true), lo, hi) +
            InWindow(Admitted(limit, period, calls, client, false), lo, hi)
  {
    if calls != [] {
      var before, c := calls[..|calls| - 1], calls[|calls| - 1];
      AdmittedSplits(limit, period, before, client, lo, hi);
      WindowAppend(AllAdmitted(limit, period, before, client), c.request.at, lo, hi);
      WindowAppend(Admitted(limit, period, before, client, c.up), c.request.at, lo, hi);
    }
  }
}
