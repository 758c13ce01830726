/**
 The replay tool and a deduplicating consumer of one target topic, composed: every interleaving of
 tool events, consumer steps, other producers, clock ticks, failures and crashes is a run.
 The consumer takes a message, asks the deduplicator, handles, marks and commits it. A handler that
 fails, or a commit that fails after the mark, hands the message to the error handler, which tries
 it once more without check or mark, or dead-letters it.
 */
module Delivery {
  import opened Prelude
  import opened JsonValues
  import opened Redis
  import opened Deduplication
  import Replay = DlqReplay

  datatype Phase =
    | Idle
    | Fresh(id: string)   // checked, not handled yet
    | Handled(id: string)
    | Marked(id: string)  // a commit that fails here goes to the error handler
    | Failing(id: string) // in the error handler
    | Closing             // only a commit is left, and its failure has no consequence

  /** How the error handler lets go of a message. */
  datatype Ending = Retried | DeadLettered | LeftBehind | Died

  /** What the consumer did, in order; an attempt to mark that died with the process failed. */
  datatype Act =
    | Check(id: string, at: int, ok: bool)
    | Handle(id: string)
    | Mark(id: string, at: int, ok: bool)
    | Fail(id: string, handled: bool) // the handler failed, or the commit after handling and mark
    | End(id: string, how: Ending)

  /** The topic's partitions, the consumer's positions in them and its committed offsets. */
  datatype System = System(
    replay: Replay.State, topic: string, target: seq<seq<Json>>, pos: seq<nat>, committed: seq<nat>,
    phase: Phase, store: Store<int>, now: int, ttl: int, acts: seq<Act>)

  datatype Event =
    | Tool(event: Replay.Event, part: nat) // `part` is where a record goes that the tool publishes
    | Produce(payload: Json, part: nat)
    | Tick(elapsed: nat)
    | Take(part: nat, up: bool)
    | HandleIt(ok: bool)
    | MarkIt(up: bool)
    | CommitIt(ok: bool)
    | RetryIt(ok: bool)      // the error handler's one retry
    | DeadLetterIt(ok: bool) // or its dead-letter send
    | ConsumerDies
    | Rebalance              // the partitions come back to the same process

  function Init(dlq: seq<seq<Replay.Entry>>, topic: string, parts: nat, ttl: int): System {
    System(Replay.Init(dlq), topic, seq(parts, i => []), seq(parts, i => 0), seq(parts, i => 0),
           Idle, map[], 0, ttl, [])
  }

  predicate Shaped(s: System) {
    && Replay.Shaped(s.replay)
    && |s.target| > 0 && |s.pos| == |s.target| && |s.committed| == |s.target|
    && forall p :: 0 <= p < |s.target| ==> s.committed[p] <= s.pos[p] <= |s.target[p]|
  }

  /** Appends messages to a partition; the producer picks one that exists. */
  function Append(target: seq<seq<Json>>, part: nat, messages: seq<Json>): seq<seq<Json>>
    requires |target| > 0
  {
    var p := part % |target|;
    target[p := target[p] + messages]
  }

  /** The messages a tool step adds to the target topic. */
  function Sent(s: System, r: Replay.State): seq<Json> {
    if |r.published| > |s.replay.published| && r.published[|r.published| - 1].topic == s.topic
    then [r.published[|r.published| - 1].data] else []
  }

  function Do(s: System, a: Act, phase: Phase): System {
    s.(acts := s.acts + [a], phase := phase)
  }

  /** The phase a fetched message starts in, and the check made, if any. */
  function Arrival(s: System, message: Json, up: bool): System {
    if !IsEvent(message) then s.(phase := Closing)
    else if EventId(message) == "" then s.(phase := Fresh(""))
    else Do(s, Check(EventId(message), s.now, up),
            if Seen(s.store, s.now, EventId(message), up) then Closing else Fresh(EventId(message)))
  }

  function TakeStep(s: System, p: nat, up: bool): (r: System)
    requires Shaped(s)
    ensures Shaped(r) && r.target == s.target && r.replay == s.replay && r.topic == s.topic && r.ttl == s.ttl
  {
    if !s.phase.Idle? || p >= |s.target| || s.pos[p] >= |s.target[p]| then s
    else Arrival(s.(pos := s.pos[p := s.pos[p] + 1]), s.target[p][s.pos[p]], up)
  }

  function HandleStep(s: System, ok: bool): System {
    if !s.phase.Fresh? then s
    else if ok then Do(s, Handle(s.phase.id), Handled(s.phase.id))
    else Do(s, Fail(s.phase.id, false), Failing(s.phase.id))
  }

  function MarkStep(s: System, up: bool): System {
    if !s.phase.Handled? then s
    else if s.phase.id == "" then s.(phase := Marked(""))
    else Do(s.(store := Deduplication.Mark(s.store, s.now, s.ttl, s.phase.id, up)),
            Mark(s.phase.id, s.now, up && s.ttl > 0), Marked(s.phase.id))
  }

  /** A commit commits all positions. */
  function CommitStep(s: System, ok: bool): System {
    if !s.phase.Marked? && !s.phase.Closing? then s
    else if ok then s.(phase := Idle, committed := s.pos)
    else if s.phase.Marked? then Do(s, Fail(s.phase.id, true), Failing(s.phase.id))
    else s.(phase := Idle)
  }

  function RetryStep(s: System, ok: bool): System {
    if !s.phase.Failing? then s
    else if ok then Do(s, End(s.phase.id, Retried), Closing)
    else Do(s, End(s.phase.id, LeftBehind), Idle)
  }

  function DeadLetterStep(s: System, ok: bool): System {
    if !s.phase.Failing? then s
    else if ok then Do(s, End(s.phase.id, DeadLettered), Closing)
    else Do(s, End(s.phase.id, LeftBehind), Idle)
  }

  /** The next process resumes at the committed offsets. */
  function DieStep(s: System): System {
    var r := s.(pos := s.committed);
    if s.phase.Handled? && s.phase.id != "" then Do(r, Mark(s.phase.id, s.now, false), Idle)
    else if s.phase.Failing? then Do(r, End(s.phase.id, Died), Idle)
    else r.(phase := Idle)
  }

  function ConsumerStep(s: System, e: Event): (r: System)
    requires Shaped(s)
    ensures Shaped(r) && r.topic == s.topic && r.ttl == s.ttl && r.target == s.target && r.replay == s.replay
  {
    match e
    case Take(p, up) => TakeStep(s, p, up)
    case HandleIt(ok) => HandleStep(s, ok)
    case MarkIt(up) => MarkStep(s, up)
    case CommitIt(ok) => CommitStep(s, ok)
    case RetryIt(ok) => RetryStep(s, ok)
    case DeadLetterIt(ok) => DeadLetterStep(s, ok)
    case ConsumerDies => DieStep(s)
    case Rebalance => s.(pos := s.committed)
    case _ => s
  }

  function Step(s: System, e: Event): (r: System)
    requires Shaped(s)
    ensures Shaped(r) && r.topic == s.topic && r.ttl == s.ttl && |r.target| == |s.target|
  {
    match e
    case Tool(event, p) =>
      var r := Replay.Step(s.replay, event);
      s.(replay := r, target := Append(s.target, p, Sent(s, r)))
    case Produce(message, p) => s.(target := Append(s.target, p, [message]))
    case Tick(d) => s.(now := s.now + d)
    case _ => ConsumerStep(s, e)
  }

  function Run(s: System, events: seq<Event>): (r: System)
    requires Shaped(s)
    ensures Shaped(r) && r.topic == s.topic && r.ttl == s.ttl && |r.target| == |s.target|
  {
    if events == [] then s else Step(Run(s, events[..|events| - 1]), events[|events| - 1])
  }

  // Counting over the consumer's acts.

  function Count(acts: seq<Act>, a: Act): nat {
    multiset(acts)[a]
  }

  /** Completed handlings of `id`, by the loop or by the error handler's retry. */
  function Handlings(acts: seq<Act>, id: string): nat {
    Count(acts, Handle(id)) + Count(acts, End(id, Retried))
  }

  function FailedHandlers(acts: seq<Act>, id: string): nat {
    Count(acts, Fail(id, false))
  }

  function FailedCommits(acts: seq<Act>, id: string): nat {
    Count(acts, Fail(id, true))
  }

  /** How often `id` was given up: dead-lettered, or left behind in the topic. */
  function GivenUp(acts: seq<Act>, id: string): nat {
    Count(acts, End(id, DeadLettered)) + Count(acts, End(id, LeftBehind))
  }

  /** Redis calls for `id` that failed, and marks that died with the process. */
  ghost function Faults(acts: seq<Act>, id: string): nat {
    if acts == [] then 0
    else
      var a := acts[|acts| - 1];
      Faults(acts[..|acts| - 1], id) + if (a.Check? || a.Mark?) && a.id == id && !a.ok then 1 else 0
  }

  ghost function LastMark(acts: seq<Act>, id: string): Option<int> {
    if acts == [] then None
    else
      var a := acts[|acts| - 1];
      if a.Mark? && a.id == id && a.ok then Some(a.at) else LastMark(acts[..|acts| - 1], id)
  }

  /** Deliveries of `id` checked a full time to live or more after its last successful mark. */
  ghost function Late(acts: seq<Act>, id: string, ttl: int): nat {
    if acts == [] then 0
    else
      var a := acts[|acts| - 1];
      var before := LastMark(acts[..|acts| - 1], id);
      Late(acts[..|acts| - 1], id, ttl)
      + if a.Check? && a.id == id && before.Some? && a.at >= before.value + ttl then 1 else 0
  }

  /** All that the invariant needs to know of a history for one id. */
  datatype Tally = Tally(
    handled: nat, retried: nat, deadLettered: nat, leftBehind: nat, died: nat, failedHandlers: nat, failedCommits: nat,
    faults: nat, late: nat, lastMark: Option<int>)

  /** The tally after one more act. */
  ghost function Tallied(t: Tally, a: Act, id: string, ttl: int): Tally {
    if a.id != id then t
    else match a
      case Check(_, at, ok) =>
        t.(faults := t.faults + (if ok then 0 else 1),
           late := t.late + if t.lastMark.Some? && at >= t.lastMark.value + ttl then 1 else 0)
      case Handle(_) => t.(handled := t.handled + 1)
      case Mark(_, at, ok) => if ok then t.(lastMark := Some(at)) else t.(faults := t.faults + 1)
      case Fail(_, handled) =>
        if handled then t.(failedCommits := t.failedCommits + 1) else t.(failedHandlers := t.failedHandlers + 1)
      case End(_, Retried) => t.(retried := t.retried + 1)
      case End(_, DeadLettered) => t.(deadLettered := t.deadLettered + 1)
      case End(_, LeftBehind) => t.(leftBehind := t.leftBehind + 1)
      case End(_, Died) => t.(died := t.died + 1)
  }

  ghost function TallyOf(acts: seq<Act>, id: string, ttl: int): Tally {
    if acts == [] then Tally(0, 0, 0, 0, 0, 0, 0, 0, 0, None)
    else Tallied(TallyOf(acts[..|acts| - 1], id, ttl), acts[|acts| - 1], id, ttl)
  }

  lemma {:induction false} TallyAppended(acts: seq<Act>, a: Act, id: string, ttl: int)
    ensures TallyOf(acts + [a], id, ttl) == Tallied(TallyOf(acts, id, ttl), a, id, ttl)
  {
    assert (acts + [a])[..|acts|] == acts;
  }

  lemma CountAppended(acts: seq<Act>, a: Act, b: Act)
    ensures Count(acts + [a], b) == Count(acts, b) + if a == b then 1 else 0
  {
  }

  /** The tally counts what its fields say. */
  ghost predicate CountsActs(t: Tally, acts: seq<Act>, id: string) {
    && t.handled == Count(acts, Handle(id)) && t.retried == Count(acts, End(id, Retried))
    && t.deadLettered == Count(acts, End(id, DeadLettered)) && t.leftBehind == Count(acts, End(id, LeftBehind))
    && t.died == Count(acts, End(id, Died))
    && t.failedHandlers == FailedHandlers(acts, id) && t.failedCommits == FailedCommits(acts, id)
  }

  lemma {:induction false} CountsActsAppended(t: Tally, acts: seq<Act>, a: Act, id: string, ttl: int)
    requires CountsActs(t, acts, id)
    ensures CountsActs(Tallied(t, a, id, ttl), acts + [a], id)
  {
    CountAppended(acts, a, Handle(id));
    CountAppended(acts, a, Fail(id, false));
    CountAppended(acts, a, Fail(id, true));
    CountAppended(acts, a, End(id, Retried));
    CountAppended(acts, a, End(id, DeadLettered));
    CountAppended(acts, a, End(id, LeftBehind));
    CountAppended(acts, a, End(id, Died));
  }

  ghost predicate CountsHistory(t: Tally, acts: seq<Act>, id: string, ttl: int) {
    t.faults == Faults(acts, id) && t.late == Late(acts, id, ttl) && t.lastMark == LastMark(acts, id)
  }

  lemma {:induction false} TallyCountsActs(acts: seq<Act>, id: string, ttl: int)
    ensures CountsActs(TallyOf(acts, id, ttl), acts, id)
  {
    if acts != [] {
      var before, a := acts[..|acts| - 1], acts[|acts| - 1];
      assert before + [a] == acts;
      TallyCountsActs(before, id, ttl);
      CountsActsAppended(TallyOf(before, id, ttl), before, a, id, ttl);
    }
  }

  lemma {:induction false} TallyCountsHistory(acts: seq<Act>, id: string, ttl: int)
    ensures CountsHistory(TallyOf(acts, id, ttl), acts, id, ttl)
  {
    if acts != [] {
      TallyCountsHistory(acts[..|acts| - 1], id, ttl);
    }
  }

  lemma {:induction false} TallyCounts(acts: seq<Act>, id: string, ttl: int)
    ensures CountsActs(TallyOf(acts, id, ttl), acts, id) && CountsHistory(TallyOf(acts, id, ttl), acts, id, ttl)
  {
    TallyCountsActs(acts, id, ttl);
    TallyCountsHistory(acts, id, ttl);
  }

  // The invariant, over the tally and the phase.

  /** Handlings by the loop are paid for by marks, faults and late deliveries. */
  ghost predicate Explained(t: Tally, phase: Phase, id: string) {
    var allowance := (if t.lastMark.Some? then 1 else 0) + t.faults + t.late;
    if phase == Fresh(id) then t.handled + 1 <= allowance || (t.handled <= allowance && t.lastMark.None?)
    else if phase == Handled(id) then t.handled <= allowance || (t.handled <= allowance + 1 && t.lastMark.None?)
    else t.handled <= allowance
  }

  /** Every failure that reached the error handler ends in exactly one way. */
  ghost predicate Accounted(t: Tally, phase: Phase, id: string) {
    t.failedHandlers + t.failedCommits ==
    t.retried + t.deadLettered + t.leftBehind + t.died + if phase == Failing(id) then 1 else 0
  }

  /** Marks, failed commits and the phases between follow a handling. */
  ghost predicate Ordered(t: Tally, phase: Phase, id: string) {
    t.lastMark.Some? || t.failedCommits > 0 || phase == Handled(id) || phase == Marked(id) ==> t.handled >= 1
  }

  /** The event was handled or given up. */
  ghost predicate Done(t: Tally) {
    t.handled + t.retried + t.deadLettered + t.leftBehind >= 1
  }

  ghost predicate Sound(t: Tally, phase: Phase, id: string) {
    Explained(t, phase, id) && Accounted(t, phase, id) && Ordered(t, phase, id)
  }

  predicate Carries(message: Json, id: string) {
    IsEvent(message) && EventId(message) == id
  }

  /** Some message with this id lies below the given offsets. */
  ghost predicate Passed(target: seq<seq<Json>>, offsets: seq<nat>, id: string) {
    exists p, i :: 0 <= p < |target| && p < |offsets| && 0 <= i < offsets[p] && i < |target[p]| &&
      Carries(target[p][i], id)
  }

  /** The invariant for one id: `until` is when its mark expires, `committed` and `passed` say whether
      a message with the id lies below the committed offsets and below the positions. */
  ghost predicate Good(t: Tally, phase: Phase, until: Option<int>, ttl: int, committed: bool, passed: bool,
                       id: string) {
    && until == (if t.lastMark.None? then None else Some(t.lastMark.value + ttl))
    && Sound(t, phase, id)
    && (committed ==> Done(t))
    && (passed ==> Done(t) || phase == Fresh(id) || phase == Failing(id))
  }

  ghost predicate Inv(s: System, id: string) {
    && Expiring(s.store)
    && Good(TallyOf(s.acts, id, s.ttl), s.phase, MarkedUntil(s.store, id), s.ttl,
            Passed(s.target, s.committed, id), Passed(s.target, s.pos, id), id)
  }

  lemma {:induction false} PassedAppend(target: seq<seq<Json>>, offsets: seq<nat>, part: nat, messages: seq<Json>,
                                        id: string)
    requires |target| > 0 && |offsets| == |target| && forall p :: 0 <= p < |target| ==> offsets[p] <= |target[p]|
    ensures Passed(Append(target, part, messages), offsets, id) ==> Passed(target, offsets, id)
  {
    var longer := Append(target, part, messages);
    if Passed(longer, offsets, id) {
      var p, i :| 0 <= p < |longer| && p < |offsets| && 0 <= i < offsets[p] && i < |longer[p]| &&
        Carries(longer[p][i], id);
      assert longer[p][i] == target[p][i];
    }
  }

  /** Steps of the tool, of other producers and of the clock leave the consumer alone. */
  lemma {:induction false} ProducerStepKeepsInv(s: System, e: Event, id: string)
    requires Shaped(s) && Inv(s, id)
    requires e.Tool? || e.Produce? || e.Tick?
    ensures Inv(Step(s, e), id)
  {
    if !e.Tick? {
      var messages := if e.Tool? then Sent(s, Replay.Step(s.replay, e.event)) else [e.payload];
      PassedAppend(s.target, s.committed, e.part, messages, id);
      PassedAppend(s.target, s.pos, e.part, messages, id);
    }
  }

  /** A step that does `a` keeps the invariant if the tally after it is good. */
  lemma {:induction false} ActKeepsInv(s: System, r: System, a: Act, id: string)
    requires r.acts == s.acts + [a] && r.ttl == s.ttl && Expiring(r.store)
    requires Good(Tallied(TallyOf(s.acts, id, s.ttl), a, id, s.ttl), r.phase, MarkedUntil(r.store, id), r.ttl,
                  Passed(r.target, r.committed, id), Passed(r.target, r.pos, id), id)
    ensures Inv(r, id)
  {
    TallyAppended(s.acts, a, id, s.ttl);
  }

  /** The verdict of a check is read off the last mark. */
  lemma SeenIffMarked(s: System, id: string, up: bool)
    requires Inv(s, id)
    ensures var last := TallyOf(s.acts, id, s.ttl).lastMark;
      Seen(s.store, s.now, id, up) <==> up && last.Some? && s.now < last.value + s.ttl
  {
  }

  lemma {:induction false} PassedNext(target: seq<seq<Json>>, pos: seq<nat>, p: nat, id: string)
    requires p < |target| && |pos| == |target| && pos[p] < |target[p]|
    ensures Passed(target, pos[p := pos[p] + 1], id) ==> Passed(target, pos, id) || Carries(target[p][pos[p]], id)
  {
    var next := pos[p := pos[p] + 1];
    if Passed(target, next, id) {
      var q, i :| 0 <= q < |target| && q < |next| && 0 <= i < next[q] && i < |target[q]| && Carries(target[q][i], id);
      assert q != p || i != pos[p] ==> i < pos[q];
    }
  }

  /** A check of a message with id `x`. */
  lemma CheckGood(t: Tally, until: Option<int>, ttl: int, committed: bool, passed: bool, passed': bool,
                  x: string, now: int, up: bool, seen: bool, id: string)
    requires Good(t, Idle, until, ttl, committed, passed, id) && (passed' ==> passed || x == id)
    requires x == id ==> (seen <==> up && t.lastMark.Some? && now < t.lastMark.value + ttl)
    ensures Good(Tallied(t, Check(x, now, up), id, ttl), if seen then Closing else Fresh(x), until, ttl,
                 committed, passed', id)
  {
  }

  lemma {:induction false} ArrivalKeepsInv(s: System, pos: seq<nat>, message: Json, up: bool, id: string)
    requires Inv(s, id) && id != "" && s.phase.Idle?
    requires Passed(s.target, pos, id) ==> Passed(s.target, s.pos, id) || Carries(message, id)
    ensures Inv(Arrival(s.(pos := pos), message, up), id)
  {
    if IsEvent(message) && EventId(message) != "" {
      var x := EventId(message);
      SeenIffMarked(s, id, up);
      CheckGood(TallyOf(s.acts, id, s.ttl), MarkedUntil(s.store, id), s.ttl, Passed(s.target, s.committed, id),
                Passed(s.target, s.pos, id), Passed(s.target, pos, id), x, s.now, up, Seen(s.store, s.now, x, up), id);
      ActKeepsInv(s, Arrival(s.(pos := pos), message, up), Check(x, s.now, up), id);
    }
  }

  lemma {:induction false} TakeKeepsInv(s: System, p: nat, up: bool, id: string)
    requires Shaped(s) && Inv(s, id) && id != ""
    ensures Inv(TakeStep(s, p, up), id)
  {
    if s.phase.Idle? && p < |s.target| && s.pos[p] < |s.target[p]| {
      var pos, message := s.pos[p := s.pos[p] + 1], s.target[p][s.pos[p]];
      assert TakeStep(s, p, up) == Arrival(s.(pos := pos), message, up);
      assert Inv(Arrival(s.(pos := pos), message, up), id) by {
        PassedNext(s.target, s.pos, p, id);
        ArrivalKeepsInv(s, pos, message, up, id);
      }
    }
  }

  /** A handling, a failure or its end, that moves no mark and no offset. */
  lemma PlainGood(t: Tally, phase: Phase, until: Option<int>, ttl: int, committed: bool, passed: bool, a: Act,
                  id: string)
    requires Good(t, phase, until, ttl, committed, passed, id)
    requires a.Handle? || a.Fail? || (a.End? && a.how != Died)
    requires phase == match a case Fail(x, true) => Marked(x) case End(x, _) => Failing(x) case _ => Fresh(a.id)
    ensures Good(Tallied(t, a, id, ttl), match a
                 case Handle(x) => Handled(x)
                 case Fail(x, _) => Failing(x)
                 case End(_, LeftBehind) => Idle
                 case _ => Closing, until, ttl, committed, passed, id)
  {
  }

  lemma {:induction false} PlainKeepsInv(s: System, a: Act, r: System, id: string)
    requires Inv(s, id) && (a.Handle? || a.Fail? || (a.End? && a.how != Died))
    requires s.phase == match a case Fail(x, true) => Marked(x) case End(x, _) => Failing(x) case _ => Fresh(a.id)
    requires r == Do(s, a, match a
                 case Handle(x) => Handled(x)
                 case Fail(x, _) => Failing(x)
                 case End(_, LeftBehind) => Idle
                 case _ => Closing)
    ensures Inv(r, id)
  {
    PlainGood(TallyOf(s.acts, id, s.ttl), s.phase, MarkedUntil(s.store, id), s.ttl, Passed(s.target, s.committed, id),
              Passed(s.target, s.pos, id), a, id);
    ActKeepsInv(s, r, a, id);
  }

  lemma {:induction false} HandleKeepsInv(s: System, ok: bool, id: string)
    requires Inv(s, id) && s.phase.Fresh?
    ensures Inv(HandleStep(s, ok), id)
  {
    PlainKeepsInv(s, if ok then Handle(s.phase.id) else Fail(s.phase.id, false), HandleStep(s, ok), id);
  }

  lemma MarkGood(t: Tally, until: Option<int>, ttl: int, committed: bool, passed: bool, x: string, now: int, ok: bool,
                 id: string)
    requires Good(t, Handled(x), until, ttl, committed, passed, id)
    ensures Good(Tallied(t, Mark(x, now, ok), id, ttl), Marked(x),
                 if ok && x == id then Some(now + ttl) else until, ttl,
                 committed, passed, id)
  {
  }

  lemma {:induction false} MarkKeepsInv(s: System, up: bool, id: string)
    requires Inv(s, id) && id != "" && s.phase.Handled?
    ensures Inv(MarkStep(s, up), id)
  {
    if s.phase.id != "" {
      var x, ok := s.phase.id, up && s.ttl > 0;
      MarkEffect(s.store, s.now, s.ttl, x, up, id);
      MarkGood(TallyOf(s.acts, id, s.ttl), MarkedUntil(s.store, id), s.ttl, Passed(s.target, s.committed, id),
               Passed(s.target, s.pos, id), x, s.now, ok, id);
      ActKeepsInv(s, MarkStep(s, up), Mark(x, s.now, ok), id);
    }
  }

  lemma {:induction false} CommitKeepsInv(s: System, ok: bool, id: string)
    requires Inv(s, id) && (s.phase.Marked? || s.phase.Closing?)
    ensures Inv(CommitStep(s, ok), id)
  {
    if !ok && s.phase.Marked? {
      PlainKeepsInv(s, Fail(s.phase.id, true), CommitStep(s, ok), id);
    }
  }

  lemma {:induction false} RecoveryKeepsInv(s: System, ok: bool, id: string)
    requires Inv(s, id) && s.phase.Failing?
    ensures Inv(RetryStep(s, ok), id) && Inv(DeadLetterStep(s, ok), id)
  {
    PlainKeepsInv(s, End(s.phase.id, if ok then Retried else LeftBehind), RetryStep(s, ok), id);
    PlainKeepsInv(s, End(s.phase.id, if ok then DeadLettered else LeftBehind), DeadLetterStep(s, ok), id);
  }

  /** A death resumes at the committed offsets, losing a mark that was due. */
  lemma DieGood(t: Tally, phase: Phase, until: Option<int>, ttl: int, committed: bool, passed: bool, now: int,
                id: string)
    requires Good(t, phase, until, ttl, committed, passed, id) && id != ""
    ensures phase.Handled? ==>
            Good(Tallied(t, Mark(phase.id, now, false), id, ttl), Idle, until, ttl, committed, committed, id)
    ensures phase.Failing? ==>
            Good(Tallied(t, End(phase.id, Died), id, ttl), Idle, until, ttl, committed, committed, id)
    ensures !(phase.Handled? && phase.id != "") && !phase.Failing? ==>
            Good(t, Idle, until, ttl, committed, committed, id)
  {
  }

  lemma {:induction false} DieKeepsInv(s: System, id: string)
    requires Inv(s, id) && id != ""
    ensures Inv(DieStep(s), id)
  {
    DieGood(TallyOf(s.acts, id, s.ttl), s.phase, MarkedUntil(s.store, id), s.ttl, Passed(s.target, s.committed, id),
            Passed(s.target, s.pos, id), s.now, id);
    if s.phase.Handled? && s.phase.id != "" {
      ActKeepsInv(s, DieStep(s), Mark(s.phase.id, s.now, false), id);
    } else if s.phase.Failing? {
      ActKeepsInv(s, DieStep(s), End(s.phase.id, Died), id);
    }
  }

  lemma {:induction false} LoopStepKeepsInv(s: System, e: Event, id: string)
    requires Shaped(s) && Inv(s, id) && id != "" && (e.Take? || e.HandleIt? || e.MarkIt? || e.CommitIt?)
    ensures Inv(ConsumerStep(s, e), id)
  {
    if e.Take? {
      TakeKeepsInv(s, e.part, e.up, id);
    } else if e.HandleIt? && s.phase.Fresh? {
      HandleKeepsInv(s, e.ok, id);
    } else if e.MarkIt? && s.phase.Handled? {
      MarkKeepsInv(s, e.up, id);
    } else if e.CommitIt? && (s.phase.Marked? || s.phase.Closing?) {
      CommitKeepsInv(s, e.ok, id);
    } else {
      assert ConsumerStep(s, e) == s;
    }
  }

  lemma {:induction false} RecoveryStepKeepsInv(s: System, e: Event, id: string)
    requires Shaped(s) && Inv(s, id) && id != "" && (e.RetryIt? || e.DeadLetterIt? || e.ConsumerDies? || e.Rebalance?)
    ensures Inv(ConsumerStep(s, e), id)
  {
    if e.RetryIt? {
      assert Inv(RetryStep(s, e.ok), id) by { if s.phase.Failing? { RecoveryKeepsInv(s, e.ok, id); } }
    } else if e.DeadLetterIt? {
      assert Inv(DeadLetterStep(s, e.ok), id) by { if s.phase.Failing? { RecoveryKeepsInv(s, e.ok, id); } }
    } else if e.ConsumerDies? {
      DieKeepsInv(s, id);
    } else {
      RebalanceKeepsInv(s, id);
    }
  }

  lemma {:induction false} RebalanceKeepsInv(s: System, id: string)
    requires Inv(s, id)
    ensures Inv(s.(pos := s.committed), id)
  {
  }

  lemma {:induction false} StepKeepsInv(s: System, e: Event, id: string)
    requires Shaped(s) && Inv(s, id) && id != ""
    ensures Inv(Step(s, e), id)
  {
    if e.Tool? || e.Produce? || e.Tick? {
      ProducerStepKeepsInv(s, e, id);
    } else if e.Take? || e.HandleIt? || e.MarkIt? || e.CommitIt? {
      LoopStepKeepsInv(s, e, id);
    } else {
      RecoveryStepKeepsInv(s, e, id);
    }
  }

  /** What the tool published to the target topic is in the target topic. */
  ghost predicate Linked(s: System) {
    forall i :: 0 <= i < |s.replay.published| && s.replay.published[i].topic == s.topic ==>
      Contains(s.target, s.replay.published[i].data)
  }

  ghost predicate Contains(target: seq<seq<Json>>, message: Json) {
    exists p :: 0 <= p < |target| && message in target[p]
  }

  lemma {:induction false} ContainsAppend(target: seq<seq<Json>>, part: nat, messages: seq<Json>, message: Json)
    requires |target| > 0
    ensures Contains(target, message) || message in messages ==> Contains(Append(target, part, messages), message)
  {
    var q, longer := part % |target|, Append(target, part, messages);
    assert longer[q] == target[q] + messages;
    if Contains(target, message) {
      var p :| 0 <= p < |target| && message in target[p];
      assert message in longer[p];
    } else if message in messages {
      assert message in longer[q];
    }
  }

  lemma {:induction false} ToolStepKeepsLinked(s: System, event: Replay.Event, part: nat)
    requires Shaped(s) && Linked(s)
    ensures Linked(Step(s, Tool(event, part)))
  {
    var r := Replay.Step(s.replay, event);
    Replay.StepPublishes(s.replay, event);
    forall i | 0 <= i < |r.published| && r.published[i].topic == s.topic
      ensures Contains(Append(s.target, part, Sent(s, r)), r.published[i].data)
    {
      ContainsAppend(s.target, part, Sent(s, r), r.published[i].data);
      if i < |s.replay.published| {
        assert r.published[i] == s.replay.published[i];
      }
    }
  }

  lemma {:induction false} ProduceKeepsLinked(s: System, message: Json, part: nat)
    requires Shaped(s) && Linked(s)
    ensures Linked(s.(target := Append(s.target, part, [message])))
  {
    forall i | 0 <= i < |s.replay.published| && s.replay.published[i].topic == s.topic
      ensures Contains(Append(s.target, part, [message]), s.replay.published[i].data)
    {
      ContainsAppend(s.target, part, [message], s.replay.published[i].data);
    }
  }

  lemma {:induction false} StepKeepsLinked(s: System, e: Event)
    requires Shaped(s) && Linked(s) && Replay.Inv(s.replay)
    ensures Linked(Step(s, e)) && Replay.Inv(Step(s, e).replay)
  {
    if e.Tool? {
      Replay.StepKeepsInv(s.replay, e.event);
      ToolStepKeepsLinked(s, e.event, e.part);
    } else if e.Produce? {
      ProduceKeepsLinked(s, e.payload, e.part);
    } else {
      assert Step(s, e).replay == s.replay && Step(s, e).target == s.target;
    }
  }

  lemma {:induction false} RunKeepsInv(dlq: seq<seq<Replay.Entry>>, topic: string, parts: nat, ttl: int,
                                       events: seq<Event>, id: string)
    requires parts > 0 && id != ""
    ensures var s := Run(Init(dlq, topic, parts, ttl), events);
      Inv(s, id) && Linked(s) && Replay.Inv(s.replay)
  {
    if events == [] {
      Replay.RunKeepsInv(dlq, []);
    } else {
      RunKeepsInv(dlq, topic, parts, ttl, events[..|events| - 1], id);
      var s := Run(Init(dlq, topic, parts, ttl), events[..|events| - 1]);
      StepKeepsInv(s, events[|events| - 1], id);
      StepKeepsLinked(s, events[|events| - 1]);
    }
  }

  /**
   Repeated handling is paid for: over every run, an event is handled at most once plus once per
   failed Redis call or lost mark of its own, once per delivery that arrives a full time to live
   after its last mark, and once per retry in the error handler, which needs a failed handler or a
   failed commit each. Every such failure ends in exactly one way, or is being dealt with.
   */
  lemma {:induction false} HandlingsBounded(dlq: seq<seq<Replay.Entry>>, topic: string, parts: nat, ttl: int,
                                            events: seq<Event>, id: string)
    requires parts > 0 && id != ""
    ensures var s := Run(Init(dlq, topic, parts, ttl), events);
      && Handlings(s.acts, id) <= 1 + Faults(s.acts, id) + Late(s.acts, id, ttl) + Count(s.acts, End(id, Retried))
      && Handlings(s.acts, id) <= 1 + Faults(s.acts, id) + Late(s.acts, id, ttl) + FailedHandlers(s.acts, id) +
         FailedCommits(s.acts, id)
      && FailedHandlers(s.acts, id) + FailedCommits(s.acts, id) ==
           Count(s.acts, End(id, Retried)) + GivenUp(s.acts, id) + Count(s.acts, End(id, Died))
           + if s.phase == Failing(id) then 1 else 0
  {
    RunKeepsInv(dlq, topic, parts, ttl, events, id);
    TallyCounts(Run(Init(dlq, topic, parts, ttl), events).acts, id, ttl);
  }

  /** Nothing is committed past unnoticed: the event named by a payload below the committed offsets was
      handled or given up, and it was handled unless its handler failed. */
  lemma {:induction false} CommittedEventHandled(dlq: seq<seq<Replay.Entry>>, topic: string, parts: nat, ttl: int,
                                                 events: seq<Event>, p: nat, i: nat, id: string)
    requires parts > 0
    requires var s := Run(Init(dlq, topic, parts, ttl), events);
      p < |s.target| && i < s.committed[p] && Names(s.target[p][i], id)
    ensures var s := Run(Init(dlq, topic, parts, ttl), events);
      && Handlings(s.acts, id) + GivenUp(s.acts, id) >= 1
      && (FailedHandlers(s.acts, id) == 0 ==> Handlings(s.acts, id) >= 1)
  {
    var s := Run(Init(dlq, topic, parts, ttl), events);
    RunKeepsInv(dlq, topic, parts, ttl, events, id);
    TallyCounts(s.acts, id, ttl);
    EventIdIs(s.target[p][i], id);
    assert Carries(s.target[p][i], id);
  }

  /**
   End to end: once the target topic is drained, the event named by the payload of every well-formed
   dead letter that a real (not dry) run committed has been handled or given up again; and it has been
   handled exactly once when no Redis call for it failed, no mark was lost, every copy arrived within
   the time to live of the last mark, and neither its handler nor a commit after it failed.
   */
  lemma {:induction false} ReplayedEventHandled(dlq: seq<seq<Replay.Entry>>, topic: string, parts: nat, ttl: int,
                                                events: seq<Event>, src: Replay.Source, id: string)
    requires parts > 0
    requires var s := Run(Init(dlq, topic, parts, ttl), events);
      && (forall p :: 0 <= p < parts ==> s.committed[p] == |s.target[p]|)
      && src in Replay.Committed(s.replay) && src !in s.replay.dryCommitted
      && var e := s.replay.dlq[src.part][src.off];
      e.topic.value == topic && Names(e.data.value, id)
    ensures var s := Run(Init(dlq, topic, parts, ttl), events);
      && Handlings(s.acts, id) + GivenUp(s.acts, id) >= 1
      && (FailedHandlers(s.acts, id) == 0 ==> Handlings(s.acts, id) >= 1)
      && (Faults(s.acts, id) + Late(s.acts, id, ttl) + FailedHandlers(s.acts, id) + FailedCommits(s.acts, id) == 0 ==>
            Handlings(s.acts, id) == 1)
  {
    var s := Run(Init(dlq, topic, parts, ttl), events);
    var e := s.replay.dlq[src.part][src.off];
    var pub := Replay.Republish(src, e);
    RunKeepsInv(dlq, topic, parts, ttl, events, id);
    assert Replay.Delivered(s.replay, src);
    var k :| 0 <= k < |s.replay.published| && s.replay.published[k] == pub;
    assert Contains(s.target, pub.data);
    var p :| 0 <= p < |s.target| && pub.data in s.target[p];
    var i :| 0 <= i < |s.target[p]| && s.target[p][i] == pub.data;
    HandlingsBounded(dlq, topic, parts, ttl, events, id);
    CommittedEventHandled(dlq, topic, parts, ttl, events, p, i, id);
  }

  /** Different events do not get in each other's way: one whose id has no mark is let through to the
      handler, however the check goes; a message without a type is skipped without a trace, and one
      without an id is handled unchecked. */
  lemma {:induction false} UnmarkedLetThrough(s: System, message: Json, up: bool, id: string)
    requires Inv(s, id)
    ensures Names(message, id) && LastMark(s.acts, id).None? ==>
            Arrival(s, message, up) == Do(s, Check(id, s.now, up), Fresh(id))
    ensures !message.Obj? || "type" !in message.fields ==> Arrival(s, message, up) == s.(phase := Closing)
    ensures message.Obj? && "type" in message.fields
            && ("id" !in message.fields || message.fields["id"] in {Null, Str("")}) ==>
            Arrival(s, message, up) == s.(phase := Fresh(""))
  {
    EventIdIs(message, id);
    SeenIffMarked(s, id, up);
    TallyCounts(s.acts, id, s.ttl);
  }

  /** What a commit is for: the consumer may die or lose its partitions afterwards and does not go back. If
      it fails, it does go back. */
  lemma CommitHolds(s: System)
    requires Shaped(s) && (s.phase.Marked? || s.phase.Closing?)
    ensures var r := Step(s, CommitIt(true));
      r.phase == Idle && Step(r, ConsumerDies).pos == s.pos && Step(r, Rebalance).pos == s.pos
    ensures var r := Step(s, CommitIt(false));
      Step(r, ConsumerDies).pos == s.committed && Step(r, Rebalance).pos == s.committed
  {
  }

  /** What was not committed comes back, after a death and after a rebalance: the next message of a
      partition is the first uncommitted one. */
  lemma UncommittedComesBack(s: System, p: nat, up: bool)
    requires Shaped(s) && s.phase.Idle? && p < |s.target| && s.committed[p] < |s.target[p]|
    ensures var message, pos := s.target[p][s.committed[p]], s.committed[p := s.committed[p] + 1];
      && Step(Step(s, ConsumerDies), Take(p, up)) == Arrival(s.(pos := pos), message, up)
      && Step(Step(s, Rebalance), Take(p, up)) == Arrival(s.(pos := pos), message, up)
  {
  }

  /** The tool's publications to other topics do not reach this one. */
  lemma OtherTopicsUntouched(s: System, event: Replay.Event, part: nat)
    requires Shaped(s)
    requires var before, after := s.replay.published, Replay.Step(s.replay, event).published;
      forall i :: |before| <= i < |after| ==> after[i].topic != s.topic
    ensures Step(s, Tool(event, part)).target == s.target
  {
    Replay.StepPublishes(s.replay, event);
    var p := part % |s.target|;
    assert s.target[p] + [] == s.target[p];
  }

  // The terms for failures are needed.

  /** Wherever a commit fails after the mark, a successful retry handles the event once more, although
      no Redis call fails, no mark is lost and no copy comes late. */
  lemma {:induction false} FailedCommitHandlesAgain(s: System, id: string)
    requires Shaped(s) && s.phase == Marked(id)
    ensures var acts := Step(Step(s, CommitIt(false)), RetryIt(true)).acts;
      && Handlings(acts, id) == Handlings(s.acts, id) + 1 && FailedCommits(acts, id) == FailedCommits(s.acts, id) + 1
      && Faults(acts, id) == Faults(s.acts, id) && Late(acts, id, s.ttl) == Late(s.acts, id, s.ttl)
      && FailedHandlers(acts, id) == FailedHandlers(s.acts, id)
  {
    var mid := s.acts + [Fail(id, true)];
    assert Step(Step(s, CommitIt(false)), RetryIt(true)).acts == mid + [End(id, Retried)];
    TallyAppended(s.acts, Fail(id, true), id, s.ttl);
    TallyAppended(mid, End(id, Retried), id, s.ttl);
    TallyCounts(s.acts, id, s.ttl);
    TallyCounts(mid + [End(id, Retried)], id, s.ttl);
  }

  /** A handling by retry leaves no mark: an event that was never marked before is not recognized
      afterwards, at whatever time and however well the check goes. */
  lemma {:induction false} RetryIsNotMarked(s: System, id: string, now: int, up: bool)
    requires Shaped(s) && Inv(s, id) && s.phase == Failing(id) && LastMark(s.acts, id).None?
    ensures var r := Step(s, RetryIt(true));
      Handlings(r.acts, id) == Handlings(s.acts, id) + 1 && !Seen(r.store, now, id, up)
  {
    TallyCounts(s.acts, id, s.ttl);
    CountAppended(s.acts, End(id, Retried), Handle(id));
    CountAppended(s.acts, End(id, Retried), End(id, Retried));
  }

  // The bound is reached.

  lemma RunAppended(s: System, events: seq<Event>, e: Event)
    requires Shaped(s)
    ensures Run(s, events + [e]) == Step(Run(s, events), e)
  {
    assert (events + [e])[..|events|] == events;
  }

  /** The consumer of a single partition is at its end. */
  ghost predicate AtEnd(s: System, phase: Phase) {
    Shaped(s) && |s.target| == 1 && s.pos == [|s.target[0]|] && s.phase == phase
  }

  /** It is, with nothing to do, and the invariant holds. */
  ghost predicate Resting(s: System, id: string) {
    AtEnd(s, Idle) && s.committed == s.pos && Inv(s, id)
  }

  /** One more message arrives and is checked; it is not recognized. */
  lemma {:induction false} MessageTaken(s: System, message: Json, up: bool, id: string)
    requires Resting(s, id) && Carries(message, id) && id != "" && !Seen(s.store, s.now, id, up)
    ensures var r := Step(Step(s, Produce(message, 0)), Take(0, up));
      && AtEnd(r, Fresh(id)) && r.acts == s.acts + [Check(id, s.now, up)]
      && r.store == s.store && r.now == s.now && r.ttl == s.ttl
  {
    var n, t := |s.target[0]|, Step(s, Produce(message, 0));
    assert t.target[0] == s.target[0] + [message] && t.pos[0] == n;
    assert s.pos[0 := n + 1] == [n + 1];
  }

  /** It is handled, marked and committed. */
  lemma {:induction false} MessageMarked(s: System, id: string)
    requires AtEnd(s, Fresh(id)) && id != "" && s.ttl > 0
    ensures var r := Step(Step(Step(s, HandleIt(true)), MarkIt(true)), CommitIt(true));
      && AtEnd(r, Idle) && r.committed == r.pos && r.acts == s.acts + [Handle(id)] + [Mark(id, s.now, true)]
      && r.now == s.now && r.ttl == s.ttl
  {
  }

  /** Its handler fails, the retry succeeds, and it is committed. */
  lemma {:induction false} MessageRetried(s: System, id: string)
    requires AtEnd(s, Fresh(id))
    ensures var r := Step(Step(Step(s, HandleIt(false)), RetryIt(true)), CommitIt(true));
      && AtEnd(r, Idle) && r.committed == r.pos && r.acts == s.acts + [Fail(id, false)] + [End(id, Retried)]
      && r.now == s.now && r.ttl == s.ttl
  {
  }

  /** Some run comes to rest with this history; `marked` says that the last mark is of this instant, and
      otherwise there is none. */
  ghost predicate Reaches(topic: string, ttl: int, id: string, events: seq<Event>, handled: nat, retried: nat,
                          faults: nat, late: nat, marked: bool) {
    var s := Run(Init([], topic, 1, ttl), events);
    var t := TallyOf(s.acts, id, ttl);
    && Resting(s, id) && t.handled == handled && t.retried == retried && t.faults == faults && t.late == late
    && t.lastMark == if marked then Some(s.now) else None
  }

  /** The events of one delivery: handled and marked, or handled by a retry. */
  function Round(message: Json, up: bool, ok: bool): seq<Event> {
    [Produce(message, 0)] + [Take(0, up)] + [HandleIt(ok)] + [if ok then MarkIt(true) else RetryIt(true)] +
      [CommitIt(true)]
  }

  lemma {:induction false} RunTwo(s: System, events: seq<Event>, a: Event, b: Event)
    requires Shaped(s)
    ensures Run(s, events + [a] + [b]) == Step(Step(Run(s, events), a), b)
  {
    assert Run(s, events + [a]) == Step(Run(s, events), a) by { RunAppended(s, events, a); }
    assert Run(s, events + [a] + [b]) == Step(Run(s, events + [a]), b) by { RunAppended(s, events + [a], b); }
  }

  /** The first two events of a round. */
  lemma {:induction false} RunTakes(init: System, events: seq<Event>, message: Json, up: bool, id: string)
    requires Shaped(init) && Carries(message, id) && id != ""
    requires var s := Run(init, events); Resting(s, id) && !Seen(s.store, s.now, id, up)
    ensures var s, r := Run(init, events), Run(init, events + [Produce(message, 0)] + [Take(0, up)]);
      AtEnd(r, Fresh(id)) && r.acts == s.acts + [Check(id, s.now, up)] && r.now == s.now
  {
    RunTwo(init, events, Produce(message, 0), Take(0, up));
    MessageTaken(Run(init, events), message, up, id);
  }

  /** The other three. */
  lemma {:induction false} RunSettles(init: System, taken: seq<Event>, ok: bool, id: string)
    requires Shaped(init) && id != "" && init.ttl > 0 && AtEnd(Run(init, taken), Fresh(id))
    ensures var next := if ok then MarkIt(true) else RetryIt(true);
      var s, r := Run(init, taken), Run(init, taken + [HandleIt(ok)] + [next] + [CommitIt(true)]);
      && AtEnd(r, Idle) && r.committed == r.pos && r.now == s.now
      && r.acts == if ok then s.acts + [Handle(id)] + [Mark(id, s.now, true)]
         else s.acts + [Fail(id, false)] + [End(id, Retried)]
  {
    var next := if ok then MarkIt(true) else RetryIt(true);
    RunTwo(init, taken, HandleIt(ok), next);
    RunAppended(init, taken + [HandleIt(ok)] + [next], CommitIt(true));
    if ok {
      MessageMarked(Run(init, taken), id);
    } else {
      MessageRetried(Run(init, taken), id);
    }
  }

  /** What a round adds to the tally. */
  lemma {:induction false} DeliveredTally(acts: seq<Act>, id: string, ttl: int, now: int, up: bool)
    ensures var checked := acts + [Check(id, now, up)];
      var t, c := TallyOf(acts, id, ttl), Tallied(TallyOf(acts, id, ttl), Check(id, now, up), id, ttl);
      && TallyOf(checked + [Handle(id)] + [Mark(id, now, true)], id, ttl) ==
         c.(handled := t.handled + 1, lastMark := Some(now))
      && TallyOf(checked + [Fail(id, false)] + [End(id, Retried)], id, ttl) ==
           c.(failedHandlers := t.failedHandlers + 1, retried := t.retried + 1)
  {
    var checked := acts + [Check(id, now, up)];
    TallyAppended(acts, Check(id, now, up), id, ttl);
    TallyAppended(checked, Handle(id), id, ttl);
    TallyAppended(checked + [Handle(id)], Mark(id, now, true), id, ttl);
    TallyAppended(checked, Fail(id, false), id, ttl);
    TallyAppended(checked + [Fail(id, false)], End(id, Retried), id, ttl);
  }

  /** Where a round leads, from a state at rest. */
  ghost predicate Led(s: System, r: System, id: string, up: bool, ok: bool) {
    var t := TallyOf(s.acts, id, s.ttl);
    var c := Tallied(t, Check(id, s.now, up), id, s.ttl);
    && AtEnd(r, Idle) && r.committed == r.pos && r.now == s.now && r.ttl == s.ttl
    && TallyOf(r.acts, id, s.ttl) ==
         if ok then c.(handled := t.handled + 1, lastMark := Some(s.now))
         else c.(failedHandlers := t.failedHandlers + 1, retried := t.retried + 1)
  }

  lemma {:induction false} TookAndSettled(s: System, taken: System, r: System, id: string, up: bool, ok: bool)
    requires taken.acts == s.acts + [Check(id, s.now, up)] && taken.now == s.now && r.ttl == s.ttl
    requires AtEnd(r, Idle) && r.committed == r.pos && r.now == taken.now
    requires r.acts == if ok then taken.acts + [Handle(id)] + [Mark(id, s.now, true)]
                       else taken.acts + [Fail(id, false)] + [End(id, Retried)]
    ensures Led(s, r, id, up, ok)
  {
    DeliveredTally(s.acts, id, s.ttl, s.now, up);
  }

  lemma {:induction false} RoundLeads(init: System, events: seq<Event>, taken: seq<Event>, whole: seq<Event>,
                                      message: Json, up: bool, ok: bool, id: string)
    requires Shaped(init) && Carries(message, id) && id != "" && init.ttl > 0
    requires var s := Run(init, events); Resting(s, id) && !Seen(s.store, s.now, id, up)
    requires taken == events + [Produce(message, 0)] + [Take(0, up)]
    requires whole == taken + [HandleIt(ok)] + [if ok then MarkIt(true) else RetryIt(true)] + [CommitIt(true)]
    ensures Led(Run(init, events), Run(init, whole), id, up, ok)
  {
    RunTakes(init, events, message, up, id);
    RunSettles(init, taken, ok, id);
    TookAndSettled(Run(init, events), Run(init, taken), Run(init, whole), id, up, ok);
  }

  /** A delivery that is not recognized, because its check fails, because it arrives late or because
      nothing was marked so far, extends a run that has come to rest. */
  lemma {:induction false} RoundRests(topic: string, ttl: int, id: string, message: Json, events: seq<Event>, up: bool,
                                      ok: bool)
    requires ttl > 0 && id != "" && Carries(message, id)
    requires var s := Run(Init([], topic, 1, ttl), events);
      Resting(s, id) && !Seen(s.store, s.now, id, up)
    ensures var s := Run(Init([], topic, 1, ttl), events);
      var r := Run(Init([], topic, 1, ttl), events + Round(message, up, ok));
      Resting(r, id) && Led(s, r, id, up, ok)
  {
    var taken := events + [Produce(message, 0)] + [Take(0, up)];
    RoundLeads(Init([], topic, 1, ttl), events, taken, events + Round(message, up, ok), message, up, ok, id);
    RunKeepsInv([], topic, 1, ttl, events + Round(message, up, ok), id);
  }

  lemma {:induction false} RetriesReached(topic: string, ttl: int, id: string, message: Json, retried: nat)
    returns (events: seq<Event>)
    requires ttl > 0 && id != "" && Carries(message, id)
    ensures Reaches(topic, ttl, id, events, 0, retried, 0, 0, false)
  {
    if retried == 0 {
      events := [];
      RunKeepsInv([], topic, 1, ttl, [], id);
    } else {
      events := RetriesReached(topic, ttl, id, message, retried - 1);
      SeenIffMarked(Run(Init([], topic, 1, ttl), events), id, true);
      RoundRests(topic, ttl, id, message, events, true, false);
      events := events + Round(message, true, false);
    }
  }

  lemma {:induction false} FaultsReached(topic: string, ttl: int, id: string, message: Json, retried: nat, faults: nat)
    returns (events: seq<Event>)
    requires ttl > 0 && id != "" && Carries(message, id)
    ensures Reaches(topic, ttl, id, events, 1 + faults, retried, faults, 0, true)
  {
    if faults == 0 {
      events := RetriesReached(topic, ttl, id, message, retried);
      SeenIffMarked(Run(Init([], topic, 1, ttl), events), id, true);
      RoundRests(topic, ttl, id, message, events, true, true);
      events := events + Round(message, true, true);
    } else {
      events := FaultsReached(topic, ttl, id, message, retried, faults - 1);
      RoundRests(topic, ttl, id, message, events, false, true);
      events := events + Round(message, false, true);
    }
  }

  /** After a full time to live the last mark is no longer seen. */
  lemma {:induction false} MarkLapses(topic: string, ttl: int, id: string, events: seq<Event>)
    requires ttl > 0 && id != "" && Resting(Run(Init([], topic, 1, ttl), events), id)
    requires var s := Run(Init([], topic, 1, ttl), events);
      TallyOf(s.acts, id, ttl).lastMark == Some(s.now)
    ensures var s, r := Run(Init([], topic, 1, ttl), events), Run(Init([], topic, 1, ttl), events + [Tick(ttl)]);
      Resting(r, id) && r.acts == s.acts && r.now == s.now + ttl && !Seen(r.store, r.now, id, true)
  {
    var r := Run(Init([], topic, 1, ttl), events + [Tick(ttl)]);
    RunAppended(Init([], topic, 1, ttl), events, Tick(ttl));
    RunKeepsInv([], topic, 1, ttl, events + [Tick(ttl)], id);
    SeenIffMarked(r, id, true);
  }

  lemma {:induction false} LateReached(topic: string, ttl: int, id: string, message: Json, before: seq<Event>,
                                       retried: nat, faults: nat, late: nat) returns (events: seq<Event>)
    requires ttl > 0 && id != "" && Carries(message, id)
    requires Reaches(topic, ttl, id, before, 1 + faults + late, retried, faults, late, true)
    ensures Reaches(topic, ttl, id, events, 2 + faults + late, retried, faults, late + 1, true)
  {
    MarkLapses(topic, ttl, id, before);
    var ticked := before + [Tick(ttl)];
    RoundRests(topic, ttl, id, message, ticked, true, true);
    events := ticked + Round(message, true, true);
  }

  /**
   The bound of `HandlingsBounded` is tight: for all numbers of retries, faults and late deliveries, some
   run has exactly these and handles the event once more than their sum.
   */
  lemma {:induction false} BoundReached(topic: string, ttl: int, id: string, message: Json, retried: nat, faults: nat,
                                        late: nat)
    returns (events: seq<Event>)
    requires ttl > 0 && id != "" && Carries(message, id)
    ensures Reaches(topic, ttl, id, events, 1 + faults + late, retried, faults, late, true)
    ensures var acts := Run(Init([], topic, 1, ttl), events).acts;
      && Handlings(acts, id) == 1 + Faults(acts, id) + Late(acts, id, ttl) + Count(acts, End(id, Retried))
      && Faults(acts, id) == faults && Late(acts, id, ttl) == late && Count(acts, End(id, Retried)) == retried
  {
    if late == 0 {
      events := FaultsReached(topic, ttl, id, message, retried, faults);
    } else {
      events := BoundReached(topic, ttl, id, message, retried, faults, late - 1);
      events := LateReached(topic, ttl, id, message, events, retried, faults, late - 1);
    }
    TallyCounts(Run(Init([], topic, 1, ttl), events).acts, id, ttl);
  }
}
