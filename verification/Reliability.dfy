/**
 The reliability layer that the services wrap around their handlers. Unlike the older stream processor
 it commits a message before it marks it, commits message by message, looks ids up in a local cache
 before it asks Redis, and lets failing checks end the flow and failing marks reach the error handler.
 Messages stand for the ids under which they are deduplicated; an empty id is not checked or marked.
 */
module Reliability {
  import opened Prelude
  import opened Redis

  datatype Phase =
    | Idle
    | Fresh(id: string)     // checked, not handled yet
    | Handled(id: string)   // to be committed
    | Committed(id: string) // to be marked
    | Failing(id: string)   // in the error handler
    | Closing               // only a commit is left

  /** What sent a message to the error handler. */
  datatype Cause = Handler | Commit | Marking

  /** How the error handler lets go of a message. */
  datatype Ending = Retried | DeadLettered | LeftBehind | Died

  /** What the layer did, in order; `Die` is a death after a handling and before its mark. */
  datatype Act =
    | Check(id: string, at: int)
    | Handle(id: string)
    | Mark(id: string, at: int)
    | Die(id: string)
    | Fail(id: string, cause: Cause)
    | End(id: string, how: Ending)

  /** The partitions, positions and committed offsets, the partition of the message in hand, Redis and
      the local cache. */
  datatype System = System(
    target: seq<seq<string>>, pos: seq<nat>, committed: seq<nat>, phase: Phase, part: nat,
    store: Store<int>, cache: set<string>, now: int, ttl: int, acts: seq<Act>)

  datatype Event =
    | Produce(id: string, part: nat)
    | Tick(elapsed: nat)
    | Take(part: nat, up: bool)
    | HandleIt(ok: bool)
    | CommitIt(ok: bool)
    | MarkIt(up: bool)
    | RetryIt(ok: bool)
    | DeadLetterIt(ok: bool)
    | Evict(ids: set<string>) // the cache drops what it likes when it is full
    | FlowDies
    | Rebalance

  function Init(parts: nat, ttl: int): System {
    System(seq(parts, i => []), seq(parts, i => 0), seq(parts, i => 0), Idle, 0, map[], {}, 0, ttl, [])
  }

  predicate Shaped(s: System) {
    && |s.pos| == |s.target| && |s.committed| == |s.target|
    && (forall p :: 0 <= p < |s.target| ==> s.committed[p] <= s.pos[p] <= |s.target[p]|)
    && (!s.phase.Idle? ==> s.part < |s.target|)
  }

  /** The key prefix names the service and the broker, so within a flow the id decides. */
  function KeyOf(id: string): string {
    "dedup:" + id
  }

  lemma KeyOfInjective(a: string, b: string)
    requires KeyOf(a) == KeyOf(b)
    ensures a == b
  {
    assert KeyOf(a)[6..] == a && KeyOf(b)[6..] == b;
  }

  function Do(s: System, a: Act, phase: Phase): System {
    s.(acts := s.acts + [a], phase := phase)
  }

  /** The next process has an empty cache and resumes at the committed offsets. */
  function DieStep(s: System): System {
    var r := s.(pos := s.committed, cache := {});
    if (s.phase.Handled? || s.phase.Committed?) && s.phase.id != "" then Do(r, Die(s.phase.id), Idle)
    else if s.phase.Failing? then Do(r, End(s.phase.id, Died), Idle)
    else r.(phase := Idle)
  }

  /** A fetched message with its check: found in the cache, found in Redis and cached, or fresh. A check
      that does not reach Redis ends the flow. */
  function Arrival(s: System, id: string, up: bool): System {
    if id == "" then s.(phase := Fresh(""))
    else if id in s.cache then s.(phase := Closing)
    else if !up then DieStep(s)
    else if Live(s.store, s.now, KeyOf(id)) then s.(phase := Closing, cache := s.cache + {id})
    else Do(s, Check(id, s.now), Fresh(id))
  }

  function TakeStep(s: System, p: nat, up: bool): System
    requires |s.pos| == |s.target|
  {
    if !s.phase.Idle? || p >= |s.target| || s.pos[p] >= |s.target[p]| then s
    else Arrival(s.(pos := s.pos[p := s.pos[p] + 1], part := p), s.target[p][s.pos[p]], up)
  }

  function HandleStep(s: System, ok: bool): System {
    if !s.phase.Fresh? then s
    else if ok then Do(s, Handle(s.phase.id), Handled(s.phase.id))
    else Do(s, Fail(s.phase.id, Handler), Failing(s.phase.id))
  }

  /** A commit is for the message in hand: its partition's position. */
  function CommitStep(s: System, ok: bool): System
    requires |s.pos| == |s.target| && |s.committed| == |s.target| && (!s.phase.Idle? ==> s.part < |s.target|)
  {
    if !s.phase.Handled? && !s.phase.Closing? then s
    else if ok then
      s.(committed := s.committed[s.part := s.pos[s.part]],
         phase := if s.phase.Handled? then Committed(s.phase.id) else Idle)
    else if s.phase.Handled? then Do(s, Fail(s.phase.id, Commit), Failing(s.phase.id))
    else s.(phase := Idle)
  }

  function MarkStep(s: System, up: bool): System {
    if !s.phase.Committed? then s
    else if s.phase.id == "" then s.(phase := Idle)
    else if up && s.ttl > 0 then
      Do(s.(store := Setex(s.store, s.now, KeyOf(s.phase.id), s.ttl, s.now), cache := s.cache + {s.phase.id}),
         Mark(s.phase.id, s.now), Idle)
    else Do(s, Fail(s.phase.id, Marking), Failing(s.phase.id))
  }

  function RecoverStep(s: System, how: Ending): System {
    if !s.phase.Failing? then s
    else Do(s, End(s.phase.id, how), if how == LeftBehind then Idle else Closing)
  }

  function Step(s: System, e: Event): (r: System)
    requires Shaped(s)
    ensures Shaped(r) && r.ttl == s.ttl && |r.target| == |s.target|
  {
    match e
    case Produce(id, p) => if p < |s.target| then s.(target := s.target[p := s.target[p] + [id]]) else s
    case Tick(d) => s.(now := s.now + d)
    case Take(p, up) => TakeStep(s, p, up)
    case HandleIt(ok) => HandleStep(s, ok)
    case CommitIt(ok) => CommitStep(s, ok)
    case MarkIt(up) => MarkStep(s, up)
    case RetryIt(ok) => RecoverStep(s, if ok then Retried else LeftBehind)
    case DeadLetterIt(ok) => RecoverStep(s, if ok then DeadLettered else LeftBehind)
    case Evict(ids) => s.(cache := s.cache - ids)
    case FlowDies => DieStep(s)
    case Rebalance => if s.phase.Idle? then s.(pos := s.committed) else s
  }

  function Run(s: System, events: seq<Event>): (r: System)
    requires Shaped(s)
    ensures Shaped(r) && r.ttl == s.ttl && |r.target| == |s.target|
  {
    if events == [] then s else Step(Run(s, events[..|events| - 1]), events[|events| - 1])
  }

  // Counting over the layer's acts.

  function Count(acts: seq<Act>, a: Act): nat {
    multiset(acts)[a]
  }

  /** Completed handlings of `id`, by the flow or by the error handler's retry. */
  function Handlings(acts: seq<Act>, id: string): nat {
    Count(acts, Handle(id)) + Count(acts, End(id, Retried))
  }

  function GivenUp(acts: seq<Act>, id: string): nat {
    Count(acts, End(id, DeadLettered)) + Count(acts, End(id, LeftBehind))
  }

  /** Handlings that never led to a mark: their commit or their mark failed, or the flow died first. */
  function Unmarked(acts: seq<Act>, id: string): nat {
    Count(acts, Fail(id, Commit)) + Count(acts, Fail(id, Marking)) + Count(acts, Die(id))
  }

  ghost function LastMark(acts: seq<Act>, id: string): Option<int> {
    if acts == [] then None
    else
      var a := acts[|acts| - 1];
      if a.Mark? && a.id == id then Some(a.at) else LastMark(acts[..|acts| - 1], id)
  }

  /** Deliveries of `id` let through a full time to live or more after its last mark. */
  ghost function Late(acts: seq<Act>, id: string, ttl: int): nat {
    if acts == [] then 0
    else
      var a := acts[|acts| - 1];
      var before := LastMark(acts[..|acts| - 1], id);
      Late(acts[..|acts| - 1], id, ttl)
      + if a.Check? && a.id == id && before.Some? && a.at >= before.value + ttl then 1 else 0
  }

  /** All that the invariant needs to know of a history for one id. */
  datatype Tally = Tally(
    handled: nat, retried: nat, deadLettered: nat, leftBehind: nat, died: nat, failedHandlers: nat,
    unmarked: nat, failedCommits: nat, failedMarks: nat, late: nat, lastMark: Option<int>)

  ghost function Tallied(t: Tally, a: Act, id: string, ttl: int): Tally {
    if a.id != id then t
    else match a
      case Check(_, at) => t.(late := t.late + if t.lastMark.Some? && at >= t.lastMark.value + ttl then 1 else 0)
      case Handle(_) => t.(handled := t.handled + 1)
      case Mark(_, at) => t.(lastMark := Some(at))
      case Die(_) => t.(unmarked := t.unmarked + 1)
      case Fail(_, Handler) => t.(failedHandlers := t.failedHandlers + 1)
      case Fail(_, Commit) => t.(failedCommits := t.failedCommits + 1, unmarked := t.unmarked + 1)
      case Fail(_, Marking) => t.(failedMarks := t.failedMarks + 1, unmarked := t.unmarked + 1)
      case End(_, Retried) => t.(retried := t.retried + 1)
      case End(_, DeadLettered) => t.(deadLettered := t.deadLettered + 1)
      case End(_, LeftBehind) => t.(leftBehind := t.leftBehind + 1)
      case End(_, Died) => t.(died := t.died + 1)
  }

  ghost function TallyOf(acts: seq<Act>, id: string, ttl: int): Tally {
    if acts == [] then Tally(0, 0, 0, 0, 0, 0, 0, 0, 0, 0, None)
    else Tallied(TallyOf(acts[..|acts| - 1], id, ttl), acts[|acts| - 1], id, ttl)
  }

  lemma {:induction false} TallyAppended(acts: seq<Act>, a: Act, id: string, ttl: int)
    ensures TallyOf(acts + [a], id, ttl) == Tallied(TallyOf(acts, id, ttl), a, id, ttl)
  {
    assert (acts + [a])[..|acts|] == acts;
  }

  /** The tally counts what its fields say. */
  ghost predicate CountsActs(t: Tally, acts: seq<Act>, id: string) {
    && t.handled == Count(acts, Handle(id)) && t.retried == Count(acts, End(id, Retried))
    && t.deadLettered == Count(acts, End(id, DeadLettered)) && t.leftBehind == Count(acts, End(id, LeftBehind))
    && t.died == Count(acts, End(id, Died)) && t.failedHandlers == Count(acts, Fail(id, Handler))
    && t.failedCommits == Count(acts, Fail(id, Commit)) && t.failedMarks == Count(acts, Fail(id, Marking))
    && t.unmarked == Unmarked(acts, id)
  }

  lemma CountAppended(acts: seq<Act>, a: Act, b: Act)
    ensures Count(acts + [a], b) == Count(acts, b) + if a == b then 1 else 0
  {
  }

  lemma {:induction false} CountsActsAppended(t: Tally, acts: seq<Act>, a: Act, id: string, ttl: int)
    requires CountsActs(t, acts, id)
    ensures CountsActs(Tallied(t, a, id, ttl), acts + [a], id)
  {
    CountAppended(acts, a, Handle(id));
    CountAppended(acts, a, Die(id));
    CountAppended(acts, a, Fail(id, Handler));
    CountAppended(acts, a, Fail(id, Commit));
    CountAppended(acts, a, Fail(id, Marking));
    CountAppended(acts, a, End(id, Retried));
    CountAppended(acts, a, End(id, DeadLettered));
    CountAppended(acts, a, End(id, LeftBehind));
    CountAppended(acts, a, End(id, Died));
  }

  ghost predicate CountsHistory(t: Tally, acts: seq<Act>, id: string, ttl: int) {
    t.late == Late(acts, id, ttl) && t.lastMark == LastMark(acts, id)
  }

  lemma {:induction false} TallyCountsActs(acts: seq<Act>, id: string, ttl: int)
    ensures CountsActs(TallyOf(acts, id, ttl), acts, id)
  {
    if acts != [] {
      var before, a := acts[..|acts| - 1], acts[|acts| - 1];
      assert before + [a] == acts;
      TallyCountsActs(before, id, ttl);
      CountsActsAppended(TallyOf(before, id, ttl), before, a, id, ttl);
    }
  }

  lemma {:induction false} TallyCountsHistory(acts: seq<Act>, id: string, ttl: int)
    ensures CountsHistory(TallyOf(acts, id, ttl), acts, id, ttl)
  {
    if acts != [] {
      TallyCountsHistory(acts[..|acts| - 1], id, ttl);
    }
  }

  lemma {:induction false} TallyCounts(acts: seq<Act>, id: string, ttl: int)
    ensures CountsActs(TallyOf(acts, id, ttl), acts, id) && CountsHistory(TallyOf(acts, id, ttl), acts, id, ttl)
  {
    TallyCountsActs(acts, id, ttl);
    TallyCountsHistory(acts, id, ttl);
  }

  // The invariant.

  /** Handlings by the flow are paid for by the mark, by handlings that were not marked and by late
      deliveries. */
  ghost predicate Explained(t: Tally, phase: Phase, id: string) {
    var allowance := (if t.lastMark.Some? then 1 else 0) + t.unmarked + t.late;
    if phase == Fresh(id) then t.handled + 1 <= allowance || (t.handled <= allowance && t.lastMark.None?)
    else if phase in {Handled(id), Committed(id)} then
      t.handled <= allowance || (t.handled <= allowance + 1 && t.lastMark.None?)
    else t.handled <= allowance
  }

  /** Every failure that reached the error handler ends in exactly one way. */
  ghost predicate Accounted(t: Tally, phase: Phase, id: string) {
    t.failedHandlers + t.failedCommits + t.failedMarks ==
    t.retried + t.deadLettered + t.leftBehind + t.died + if phase == Failing(id) then 1 else 0
  }

  /** Marks and failures past the handler follow a handling. */
  ghost predicate Ordered(t: Tally, phase: Phase, cached: bool, id: string) {
    (cached || t.lastMark.Some? || t.unmarked > 0 || t.failedCommits + t.failedMarks > 0
     || phase in {Handled(id), Committed(id)}) ==> t.handled >= 1
  }

  /** The event was handled or given up. */
  ghost predicate Done(t: Tally) {
    t.handled + t.retried + t.deadLettered + t.leftBehind >= 1
  }

  function MarkedUntil(store: Store<int>, id: string): Option<int> {
    if KeyOf(id) in store then store[KeyOf(id)].expires else None
  }

  /** The invariant for one id: `cached` and `until` are what cache and Redis hold of it, `committed` and
      `passed` say whether a message with the id lies below the committed offsets and the positions. */
  ghost predicate Good(t: Tally, phase: Phase, cached: bool, until: Option<int>, ttl: int, committed: bool,
                       passed: bool, id: string) {
    && until == (if t.lastMark.None? then None else Some(t.lastMark.value + ttl))
    && Explained(t, phase, id) && Accounted(t, phase, id) && Ordered(t, phase, cached, id)
    && (committed ==> Done(t))
    && (passed ==> Done(t) || phase == Fresh(id) || phase == Failing(id))
  }

  ghost predicate Passed(target: seq<seq<string>>, offsets: seq<nat>, id: string) {
    exists p, i :: 0 <= p < |target| && p < |offsets| && 0 <= i < offsets[p] && i < |target[p]| && target[p][i] == id
  }

  predicate Expiring(store: Store<int>) {
    forall k :: k in store ==> store[k].expires.Some?
  }

  ghost predicate Inv(s: System, id: string) {
    && Expiring(s.store)
    && Good(TallyOf(s.acts, id, s.ttl), s.phase, id in s.cache, MarkedUntil(s.store, id), s.ttl,
            Passed(s.target, s.committed, id), Passed(s.target, s.pos, id), id)
  }

  lemma {:induction false} PassedAppend(target: seq<seq<string>>, offsets: seq<nat>, p: nat, x: string, id: string)
    requires p < |target| && |offsets| == |target| && forall q :: 0 <= q < |target| ==> offsets[q] <= |target[q]|
    ensures Passed(target[p := target[p] + [x]], offsets, id) ==> Passed(target, offsets, id)
  {
    var longer := target[p := target[p] + [x]];
    if Passed(longer, offsets, id) {
      var q, i :| 0 <= q < |longer| && q < |offsets| && 0 <= i < offsets[q] && i < |longer[q]| && longer[q][i] == id;
      assert longer[q][i] == target[q][i];
    }
  }

  lemma {:induction false} PassedNext(target: seq<seq<string>>, pos: seq<nat>, p: nat, id: string)
    requires p < |target| && |pos| == |target| && pos[p] < |target[p]|
    ensures Passed(target, pos[p := pos[p] + 1], id) ==> Passed(target, pos, id) || target[p][pos[p]] == id
  {
    var next := pos[p := pos[p] + 1];
    if Passed(target, next, id) {
      var q, i :| 0 <= q < |target| && q < |next| && 0 <= i < next[q] && i < |target[q]| && target[q][i] == id;
      assert q != p || i != pos[p] ==> i < pos[q];
    }
  }

  lemma {:induction false} PassedCommit(target: seq<seq<string>>, committed: seq<nat>, pos: seq<nat>, p: nat,
                                        id: string)
    requires |committed| == |target| && |pos| == |target| && p < |target|
    ensures Passed(target, committed[p := pos[p]], id) ==> Passed(target, committed, id) || Passed(target, pos, id)
  {
    var next := committed[p := pos[p]];
    if Passed(target, next, id) {
      var q, i :| 0 <= q < |target| && q < |next| && 0 <= i < next[q] && i < |target[q]| && target[q][i] == id;
      assert i < committed[q] || i < pos[q];
    }
  }

  /** A step that does `a` keeps the invariant if the tally after it is good. */
  lemma {:induction false} ActKeepsInv(s: System, r: System, a: Act, id: string)
    requires r.acts == s.acts + [a] && r.ttl == s.ttl && Expiring(r.store)
    requires Good(Tallied(TallyOf(s.acts, id, s.ttl), a, id, s.ttl), r.phase, id in r.cache, MarkedUntil(r.store, id),
                  r.ttl,
                  Passed(r.target, r.committed, id), Passed(r.target, r.pos, id), id)
    ensures Inv(r, id)
  {
    TallyAppended(s.acts, a, id, s.ttl);
  }

  /** A death resumes at the committed offsets with an empty cache. */
  lemma DieGood(t: Tally, phase: Phase, cached: bool, until: Option<int>, ttl: int, committed: bool, passed: bool,
                id: string)
    requires Good(t, phase, cached, until, ttl, committed, passed, id) && id != ""
    ensures phase.Handled? || phase.Committed? ==>
      Good(Tallied(t, Die(phase.id), id, ttl), Idle, false, until, ttl, committed, committed, id)
    ensures phase.Failing? ==>
      Good(Tallied(t, End(phase.id, Died), id, ttl), Idle, false, until, ttl, committed, committed, id)
    ensures !((phase.Handled? || phase.Committed?) && phase.id != "") && !phase.Failing? ==>
      Good(t, Idle, false, until, ttl, committed, committed, id)
  {
  }

  lemma {:induction false} DieKeepsInv(s: System, id: string)
    requires Inv(s, id) && id != ""
    ensures Inv(DieStep(s), id)
  {
    DieGood(TallyOf(s.acts, id, s.ttl), s.phase, id in s.cache, MarkedUntil(s.store, id), s.ttl,
            Passed(s.target, s.committed, id), Passed(s.target, s.pos, id), id);
    if (s.phase.Handled? || s.phase.Committed?) && s.phase.id != "" {
      ActKeepsInv(s, DieStep(s), Die(s.phase.id), id);
    } else if s.phase.Failing? {
      ActKeepsInv(s, DieStep(s), End(s.phase.id, Died), id);
    }
  }

  /** A message that is let through has no live mark. */
  lemma CheckGood(t: Tally, cached: bool, until: Option<int>, ttl: int, committed: bool, passed: bool, passed': bool,
                  x: string, now: int, id: string)
    requires Good(t, Idle, cached, until, ttl, committed, passed, id) && (passed' ==> passed || x == id)
    requires x == id ==> t.lastMark.None? || now >= t.lastMark.value + ttl
    ensures Good(Tallied(t, Check(x, now), id, ttl), Fresh(x), cached, until, ttl, committed, passed', id)
  {
  }

  /** A message that is skipped was handled before. */
  lemma SkipGood(t: Tally, cached: bool, until: Option<int>, ttl: int, committed: bool, passed: bool, passed': bool,
                 x: string, id: string)
    requires Good(t, Idle, cached, until, ttl, committed, passed, id) && (passed' ==> passed || x == id)
    requires x == id ==> cached || t.lastMark.Some?
    ensures Good(t, Closing, cached || x == id, until, ttl, committed, passed', id)
  {
  }

  lemma {:induction false} LiveIffMarked(s: System, x: string, id: string)
    requires Inv(s, id)
    ensures x == id ==>
      var last := TallyOf(s.acts, id, s.ttl).lastMark;
      Live(s.store, s.now, KeyOf(x)) <==> last.Some? && s.now < last.value + s.ttl
  {
  }

  lemma {:induction false} SkipKeepsInv(s: System, taken: System, x: string, cache: set<string>, id: string)
    requires Inv(s, id) && s.phase.Idle? && taken == s.(pos := taken.pos, part := taken.part)
    requires Passed(s.target, taken.pos, id) ==> Passed(s.target, s.pos, id) || x == id
    requires x in s.cache || Live(s.store, s.now, KeyOf(x))
    requires s.cache <= cache <= s.cache + {x}
    ensures Inv(taken.(phase := Closing, cache := cache), id)
  {
    LiveIffMarked(s, x, id);
    SkipGood(TallyOf(s.acts, id, s.ttl), id in s.cache, MarkedUntil(s.store, id), s.ttl,
             Passed(s.target, s.committed, id),
             Passed(s.target, s.pos, id), Passed(s.target, taken.pos, id), x, id);
  }

  lemma {:induction false} CheckKeepsInv(s: System, taken: System, x: string, id: string)
    requires Inv(s, id) && s.phase.Idle? && taken == s.(pos := taken.pos, part := taken.part)
    requires Passed(s.target, taken.pos, id) ==> Passed(s.target, s.pos, id) || x == id
    requires !Live(s.store, s.now, KeyOf(x))
    ensures Inv(Do(taken, Check(x, s.now), Fresh(x)), id)
  {
    LiveIffMarked(s, x, id);
    CheckGood(TallyOf(s.acts, id, s.ttl), id in s.cache, MarkedUntil(s.store, id), s.ttl,
              Passed(s.target, s.committed, id),
              Passed(s.target, s.pos, id), Passed(s.target, taken.pos, id), x, s.now, id);
    ActKeepsInv(s, Do(taken, Check(x, s.now), Fresh(x)), Check(x, s.now), id);
  }

  lemma {:induction false} ArrivalKeepsInv(s: System, pos: seq<nat>, part: nat, x: string, up: bool, id: string)
    requires Inv(s, id) && id != "" && s.phase.Idle?
    requires Passed(s.target, pos, id) ==> Passed(s.target, s.pos, id) || x == id
    ensures Inv(Arrival(s.(pos := pos, part := part), x, up), id)
  {
    var taken := s.(pos := pos, part := part);
    if x != "" {
      if x in s.cache {
        SkipKeepsInv(s, taken, x, s.cache, id);
      } else if up && Live(s.store, s.now, KeyOf(x)) {
        SkipKeepsInv(s, taken, x, s.cache + {x}, id);
      } else if up {
        CheckKeepsInv(s, taken, x, id);
      } else {
        assert DieStep(taken) == DieStep(s).(part := part);
        DieKeepsInv(s, id);
      }
    }
  }

  lemma {:induction false} TakeKeepsInv(s: System, p: nat, up: bool, id: string)
    requires |s.pos| == |s.target| && Inv(s, id) && id != ""
    ensures Inv(TakeStep(s, p, up), id)
  {
    if s.phase.Idle? && p < |s.target| && s.pos[p] < |s.target[p]| {
      var pos, x := s.pos[p := s.pos[p] + 1], s.target[p][s.pos[p]];
      var r := Arrival(s.(pos := pos, part := p), x, up);
      assert Inv(r, id) by {
        PassedNext(s.target, s.pos, p, id);
        ArrivalKeepsInv(s, pos, p, x, up, id);
      }
      assert TakeStep(s, p, up) == r;
    }
  }

  /** The phase before an act that moves neither offsets nor marks, and the one after it. */
  function PhaseBefore(a: Act): Phase {
    match a
    case Fail(x, Commit) => Handled(x)
    case Fail(x, Marking) => Committed(x)
    case End(x, _) => Failing(x)
    case _ => Fresh(a.id)
  }

  function PhaseAfter(a: Act): Phase {
    match a
    case Handle(x) => Handled(x)
    case Fail(x, _) => Failing(x)
    case End(_, LeftBehind) => Idle
    case _ => Closing
  }

  predicate IsPlain(a: Act) {
    a.Handle? || a.Fail? || (a.End? && a.how != Died)
  }

  lemma PlainGood(t: Tally, cached: bool, until: Option<int>, ttl: int, committed: bool, passed: bool, a: Act,
                  id: string)
    requires IsPlain(a) && Good(t, PhaseBefore(a), cached, until, ttl, committed, passed, id)
    ensures Good(Tallied(t, a, id, ttl), PhaseAfter(a), cached, until, ttl, committed, passed, id)
  {
  }

  lemma {:induction false} PlainKeepsInv(s: System, a: Act, id: string)
    requires Inv(s, id) && IsPlain(a) && s.phase == PhaseBefore(a)
    ensures Inv(Do(s, a, PhaseAfter(a)), id)
  {
    PlainGood(TallyOf(s.acts, id, s.ttl), id in s.cache, MarkedUntil(s.store, id), s.ttl,
              Passed(s.target, s.committed, id),
              Passed(s.target, s.pos, id), a, id);
    ActKeepsInv(s, Do(s, a, PhaseAfter(a)), a, id);
  }

  lemma CommitGood(t: Tally, phase: Phase, cached: bool, until: Option<int>, ttl: int, committed: bool,
                   committed': bool, passed: bool,
                   id: string)
    requires Good(t, phase, cached, until, ttl, committed, passed, id) && (committed' ==> committed || passed)
    ensures phase.Handled? ==> Good(t, Committed(phase.id), cached, until, ttl, committed', passed, id)
    ensures phase.Closing? ==> Good(t, Idle, cached, until, ttl, committed', passed, id)
  {
  }

  lemma {:induction false} CommitKeepsInv(s: System, ok: bool, id: string)
    requires Shaped(s) && Inv(s, id) && (s.phase.Handled? || s.phase.Closing?)
    ensures Inv(CommitStep(s, ok), id)
  {
    if ok {
      var committed := s.committed[s.part := s.pos[s.part]];
      PassedCommit(s.target, s.committed, s.pos, s.part, id);
      CommitGood(TallyOf(s.acts, id, s.ttl), s.phase, id in s.cache, MarkedUntil(s.store, id), s.ttl,
                 Passed(s.target, s.committed, id), Passed(s.target, committed, id), Passed(s.target, s.pos, id), id);
    } else if s.phase.Handled? {
      PlainKeepsInv(s, Fail(s.phase.id, Commit), id);
    }
  }

  lemma MarkGood(t: Tally, cached: bool, until: Option<int>, ttl: int, committed: bool, passed: bool, x: string,
                 now: int, id: string)
    requires Good(t, Committed(x), cached, until, ttl, committed, passed, id)
    ensures Good(Tallied(t, Mark(x, now), id, ttl), Idle, cached || x == id,
                 if x == id then Some(now + ttl) else until, ttl,
                 committed, passed, id)
  {
  }

  lemma SetexEffect(store: Store<int>, now: int, ttl: int, x: string, id: string)
    requires Expiring(store)
    ensures var r := Setex(store, now, KeyOf(x), ttl, now);
      Expiring(r) && MarkedUntil(r, id) == if x == id then Some(now + ttl) else MarkedUntil(store, id)
  {
    if KeyOf(x) == KeyOf(id) {
      KeyOfInjective(x, id);
    }
  }

  lemma {:induction false} MarkKeepsInv(s: System, up: bool, id: string)
    requires Inv(s, id) && id != "" && s.phase.Committed?
    ensures Inv(MarkStep(s, up), id)
  {
    var x := s.phase.id;
    if x != "" && up && s.ttl > 0 {
      SetexEffect(s.store, s.now, s.ttl, x, id);
      MarkGood(TallyOf(s.acts, id, s.ttl), id in s.cache, MarkedUntil(s.store, id), s.ttl,
               Passed(s.target, s.committed, id),
               Passed(s.target, s.pos, id), x, s.now, id);
      ActKeepsInv(s, MarkStep(s, up), Mark(x, s.now), id);
    } else if x != "" {
      PlainKeepsInv(s, Fail(x, Marking), id);
    }
  }

  lemma {:induction false} RecoverKeepsInv(s: System, how: Ending, id: string)
    requires Inv(s, id) && s.phase.Failing? && how != Died
    ensures Inv(RecoverStep(s, how), id)
  {
    PlainKeepsInv(s, End(s.phase.id, how), id);
  }

  lemma {:induction false} HandleKeepsInv(s: System, ok: bool, id: string)
    requires Inv(s, id) && s.phase.Fresh?
    ensures Inv(HandleStep(s, ok), id)
  {
    PlainKeepsInv(s, if ok then Handle(s.phase.id) else Fail(s.phase.id, Handler), id);
  }

  lemma {:induction false} StepKeepsInv(s: System, e: Event, id: string)
    requires Shaped(s) && Inv(s, id) && id != ""
    ensures Inv(Step(s, e), id)
  {
    match e {
      case Produce(x, p) =>
        if p < |s.target| {
          PassedAppend(s.target, s.committed, p, x, id);
          PassedAppend(s.target, s.pos, p, x, id);
        }
      case Take(p, up) => TakeKeepsInv(s, p, up, id);
      case HandleIt(ok) => if s.phase.Fresh? { HandleKeepsInv(s, ok, id); }
      case CommitIt(ok) => if s.phase.Handled? || s.phase.Closing? { CommitKeepsInv(s, ok, id); }
      case MarkIt(up) => if s.phase.Committed? { MarkKeepsInv(s, up, id); }
      case RetryIt(ok) => if s.phase.Failing? { RecoverKeepsInv(s, if ok then Retried else LeftBehind, id); }
      case DeadLetterIt(ok) => if s.phase.Failing? { RecoverKeepsInv(s, if ok then DeadLettered else LeftBehind, id); }
      case FlowDies => DieKeepsInv(s, id);
      case _ =>
    }
  }

  lemma {:induction false} RunKeepsInv(parts: nat, ttl: int, events: seq<Event>, id: string)
    requires id != ""
    ensures Inv(Run(Init(parts, ttl), events), id)
  {
    if events != [] {
      RunKeepsInv(parts, ttl, events[..|events| - 1], id);
      StepKeepsInv(Run(Init(parts, ttl), events[..|events| - 1]), events[|events| - 1], id);
    }
  }

  /**
   The count of handlings for this order of steps: over every run, an event is handled at most once, plus
   once per handling of its own whose commit or mark failed or whose flow died before the mark, plus once
   per delivery let through a full time to live after its last mark, plus once per retry. Failed checks
   cost no handling. Every failure that reaches the error handler ends in exactly one way.
   */
  lemma {:induction false} HandlingsBounded(parts: nat, ttl: int, events: seq<Event>, id: string)
    requires id != ""
    ensures var acts, phase := Run(Init(parts, ttl), events).acts, Run(Init(parts, ttl), events).phase;
      && Handlings(acts, id) <= 1 + Unmarked(acts, id) + Late(acts, id, ttl) + Count(acts, End(id, Retried))
      && Count(acts, Fail(id, Handler)) + Count(acts, Fail(id, Commit)) + Count(acts, Fail(id, Marking)) ==
           Count(acts, End(id, Retried)) + GivenUp(acts, id) + Count(acts, End(id, Died))
           + if phase == Failing(id) then 1 else 0
  {
    RunKeepsInv(parts, ttl, events, id);
    TallyCounts(Run(Init(parts, ttl), events).acts, id, ttl);
  }

  /** An event below the committed offsets was handled or given up, and exactly once handled when nothing of
      its own failed, no flow died over it and no copy came late. */
  lemma {:induction false} CommittedEventHandled(parts: nat, ttl: int, events: seq<Event>, p: nat, i: nat)
    requires var s := Run(Init(parts, ttl), events); p < |s.target| && i < s.committed[p] && s.target[p][i] != ""
    ensures var s := Run(Init(parts, ttl), events);
      var id := s.target[p][i];
      && Handlings(s.acts, id) + GivenUp(s.acts, id) >= 1
      && (Count(s.acts, Fail(id, Handler)) == 0 ==> Handlings(s.acts, id) >= 1)
      && (Count(s.acts, Fail(id, Handler)) + Unmarked(s.acts, id) + Late(s.acts, id, ttl) == 0 ==>
          Handlings(s.acts, id) == 1)
  {
    var s := Run(Init(parts, ttl), events);
    var id := s.target[p][i];
    RunKeepsInv(parts, ttl, events, id);
    TallyCounts(s.acts, id, ttl);
    assert Passed(s.target, s.committed, id);
  }

  /** The price of this order of steps: a flow that dies between commit and mark is not delivered the
      message again, yet does not recognize a copy of it. */
  lemma {:induction false} DeathAfterCommit(s: System, id: string)
    requires Shaped(s) && Inv(s, id) && id != "" && s.phase == Committed(id) && LastMark(s.acts, id).None?
    ensures var r := DieStep(s);
      && id !in r.cache && !Live(r.store, r.now, KeyOf(id)) && r.pos == s.committed
      && Unmarked(r.acts, id) == Unmarked(s.acts, id) + 1 && Handlings(r.acts, id) == Handlings(s.acts, id)
  {
    TallyCounts(s.acts, id, s.ttl);
    assert multiset(s.acts + [Die(id)]) == multiset(s.acts) + multiset{Die(id)};
  }

  /** What becomes of a message that arrives: without an id it is handled unchecked; known to the cache or
      to Redis it is skipped, and remembered; unknown it is handled; unchecked it ends the flow. */
  lemma {:induction false} ArrivalIs(s: System, id: string, up: bool)
    requires Inv(s, id)
    ensures var r, last := Arrival(s, id, up), LastMark(s.acts, id);
      var live := last.Some? && s.now < last.value + s.ttl;
      && (id == "" ==> r == s.(phase := Fresh("")))
      && (id != "" && (id in s.cache || (up && live)) ==>
            r.phase == Closing && r.acts == s.acts && id in r.cache && s.cache <= r.cache)
      && (id != "" && id !in s.cache && up && !live ==> r == Do(s, Check(id, s.now), Fresh(id)))
      && (id != "" && id !in s.cache && !up ==> r.phase == Idle && r.pos == s.committed)
  {
    LiveIffMarked(s, id, id);
    TallyCounts(s.acts, id, s.ttl);
  }

  /** What a commit is for: the flow may die afterwards and still does not go back in that partition; the
      other partitions are not committed. */
  lemma CommitHolds(s: System)
    requires Shaped(s) && (s.phase.Handled? || s.phase.Closing?)
    ensures var r := Step(s, CommitIt(true));
      && DieStep(r).pos[s.part] == s.pos[s.part]
      && forall p :: 0 <= p < |s.target| && p != s.part ==> DieStep(r).pos[p] == s.committed[p]
  {
  }

  /** What a mark is for: a later copy is skipped, by Redis for a full time to live, even after a death, and by
      the cache as long as the process lives and does not evict the id. */
  lemma {:induction false} MarkHolds(s: System, id: string, up: bool, later: int)
    requires Shaped(s) && Inv(s, id) && id != "" && s.phase == Committed(id) && s.ttl > 0
    ensures var r := Step(s, MarkIt(true));
      && r.phase == Idle && r.acts == s.acts + [Mark(id, s.now)]
      && Arrival(r.(now := later), id, up).phase == Closing
      && (later < s.now + s.ttl ==> Arrival(DieStep(r).(now := later), id, true).phase == Closing)
  {
  }

  /** A full time to live later, a copy is recognized only as long as the cache holds its id: neither after a
      death nor after an eviction. */
  lemma {:induction false} CopyAfterTtl(s: System, id: string)
    requires Shaped(s) && Inv(s, id) && id != "" && s.phase == Committed(id) && s.ttl > 0
    ensures var r := Step(Step(s, MarkIt(true)), Tick(s.ttl));
      && Arrival(r, id, true).phase == Closing
      && Arrival(Step(r, FlowDies), id, true).phase == Fresh(id)
      && Arrival(Step(r, Evict({id})), id, true).phase == Fresh(id)
  {
  }

  /** How the error handler lets go: after a successful retry or dead letter the message is committed, after a
      failed one or a failed commit nothing is. */
  lemma RecoveryCommits(s: System, retry: bool, ok: bool, commit: bool)
    requires Shaped(s) && s.phase.Failing?
    ensures var r := Step(s, if retry then RetryIt(ok) else DeadLetterIt(ok));
      var t := Step(r, CommitIt(commit));
      && t.phase == Idle && t.pos == s.pos
      && t.committed == if ok && commit then s.committed[s.part := s.pos[s.part]] else s.committed
  {
  }

  /** What was not committed comes back, after a death and after a rebalance between messages. */
  lemma UncommittedComesBack(s: System, p: nat, up: bool)
    requires Shaped(s) && s.phase.Idle? && p < |s.target| && s.committed[p] < |s.target[p]|
    ensures var id, again := s.target[p][s.committed[p]], s.(pos := s.committed[p := s.committed[p] + 1], part := p);
      && Step(Step(s, Rebalance), Take(p, up)) == Arrival(again, id, up)
      && Step(Step(s, FlowDies), Take(p, up)) == Arrival(again.(cache := {}), id, up)
  {
    assert Step(s, Rebalance) == s.(pos := s.committed);
    NextTaken(s.(pos := s.committed), p, up);
    assert Step(s, FlowDies) == s.(pos := s.committed, cache := {});
    NextTaken(s.(pos := s.committed, cache := {}), p, up);
  }

  lemma NextTaken(s: System, p: nat, up: bool)
    requires Shaped(s) && s.phase.Idle? && p < |s.target| && s.pos[p] < |s.target[p]|
    ensures Step(s, Take(p, up)) == Arrival(s.(pos := s.pos[p := s.pos[p] + 1], part := p), s.target[p][s.pos[p]], up)
  {
  }

  /** The way of a new message when nothing fails: taken, handled, committed and marked, once. */
  lemma {:induction false} NewMessage(s: System, p: nat, id: string)
    requires Shaped(s) && Inv(s, id) && s.phase.Idle? && s.ttl > 0
    requires p < |s.target| && s.pos[p] < |s.target[p]| && s.target[p][s.pos[p]] == id && id != ""
    requires id !in s.cache && LastMark(s.acts, id).None?
    ensures var taken := Step(s, Take(p, true));
      var r := Step(Step(Step(taken, HandleIt(true)), CommitIt(true)), MarkIt(true));
      && r.phase == Idle && r.acts == s.acts + [Check(id, s.now)] + [Handle(id)] + [Mark(id, s.now)]
      && r.pos == s.pos[p := s.pos[p] + 1] && r.committed == s.committed[p := s.pos[p] + 1]
  {
    var taken := Step(s, Take(p, true));
    assert taken == Do(s.(pos := s.pos[p := s.pos[p] + 1], part := p), Check(id, s.now), Fresh(id)) by {
      LiveIffMarked(s, id, id);
      TallyCounts(s.acts, id, s.ttl);
    }
  }
}
