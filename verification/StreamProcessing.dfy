/**
 The consume loop of a stream processor with deduplication, one-shot retries, dead-lettering and
 manual commits, over the partitions assigned to it. Messages stand for themselves by partition and
 offset; what the environment does during a delivery (handler, Redis, broker) is a script.
 */
module StreamProcessing {
  import opened Prelude

  datatype ErrorKind = TRANSIENT | POISON | BUSINESS | INFRASTRUCTURE | AUTHENTICATION | RATE_LIMIT

  /** Whether an error is one of the structured exceptions, and what it says about retrying. */
  datatype Structure = Unstructured | Transient(retryable: bool, maxRetries: int) | Structured

  datatype Error = Error(kind: ErrorKind, structure: Structure)

  function MaxAttempts(kind: ErrorKind): int {
    match kind
    case TRANSIENT => 5
    case INFRASTRUCTURE => 3
    case RATE_LIMIT => 8
    case BUSINESS => 2
    case AUTHENTICATION => 1
    case POISON => 0
  }

  predicate Retryable(e: Error) {
    && e.kind in {TRANSIENT, INFRASTRUCTURE, RATE_LIMIT, BUSINESS}
    && (e.structure.Unstructured? || (e.structure.Transient? && e.structure.retryable))
  }

  function Budget(e: Error): int {
    if e.structure.Transient? && e.structure.maxRetries < MaxAttempts(e.kind) then e.structure.maxRetries
    else MaxAttempts(e.kind)
  }

  /** Whether the error handler dead-letters instead of retrying. */
  predicate GivesUp(e: Error, retries: nat) {
    !Retryable(e) || retries >= Budget(e)
  }

  /** One delivery: is the event a known duplicate (or no event at all), does the handler fail, does
      the commit after it fail, and how do the error handler's retry, dead-letter send and own commit go. */
  datatype Script = Script(
    duplicate: bool, handler: Option<Error>, commit: Option<Error>, retryOk: bool, dlqOk: bool, lateCommitOk: bool)

  datatype Message = Message(part: nat, off: nat)

  /** Per partition the log end, the position and the committed offset; then the retry counts, how
      often each message was handled, and which were dead-lettered or skipped. */
  datatype State = State(
    end: seq<nat>, pos: seq<nat>, committed: seq<nat>,
    retries: map<Message, nat>, handled: multiset<Message>, dead: set<Message>, skipped: set<Message>)

  function Zeros(n: nat): seq<nat> {
    seq(n, i => 0)
  }

  function Init(parts: nat): State {
    State(Zeros(parts), Zeros(parts), Zeros(parts), map[], multiset{}, {}, {})
  }

  /** Shape of every reachable state; the steps are defined on such states. */
  predicate Shaped(s: State) {
    && |s.pos| == |s.end| && |s.committed| == |s.end|
    && forall p :: 0 <= p < |s.end| ==> s.committed[p] <= s.pos[p] <= s.end[p]
  }

  /** The message was handled, is in the dead-letter topic, or is a duplicate of a handled one. */
  predicate Settled(s: State, m: Message) {
    m in s.handled || m in s.dead || m in s.skipped
  }

  function Retries(s: State, m: Message): nat {
    if m in s.retries then s.retries[m] else 0
  }

  predicate HasNext(s: State, p: nat)
    requires Shaped(s)
  {
    p < |s.end| && s.pos[p] < s.end[p]
  }

  function Next(s: State, p: nat): Message
    requires Shaped(s) && p < |s.end|
  {
    Message(p, s.pos[p])
  }

  /** Commits commit every assigned partition's position, whatever became of the messages before it. */
  function Commit(s: State, ok: bool): State {
    if ok then s.(committed := s.pos) else s
  }

  function HandleError(s: State, m: Message, e: Error, x: Script): State {
    if GivesUp(e, Retries(s, m)) then
      if x.dlqOk then Commit(s.(dead := s.dead + {m}, retries := s.retries - {m}), x.lateCommitOk) else s
    else if x.retryOk then Commit(s.(handled := s.handled + multiset{m}, retries := s.retries - {m}), x.lateCommitOk)
    else s.(retries := s.retries[m := Retries(s, m) + 1])
  }

  /** The loop body for a fetched message: skip a duplicate, or handle and commit it. */
  function Process(s: State, m: Message, x: Script): State {
    if x.duplicate then Commit(s.(skipped := s.skipped + {m}), x.commit.None?)
    else if x.handler.Some? then HandleError(s, m, x.handler.value, x)
    else
      var done := s.(handled := s.handled + multiset{m});
      if x.commit.None? then Commit(done, true) else HandleError(done, m, x.commit.value, x)
  }

  function Deliver(s: State, p: nat, x: Script): (r: State)
    requires Shaped(s)
    ensures Shaped(r)
  {
    if HasNext(s, p) then Process(s.(pos := s.pos[p := s.pos[p] + 1]), Next(s, p), x) else s
  }

  datatype Event =
    | Arrive(part: nat)
    | Delivery(part: nat, script: Script)
    | Restart    // a new process resumes at the committed offsets and has counted no retries
    | Rebalance  // the same process gets its partitions back and resumes at the committed offsets

  function Step(s: State, e: Event): (r: State)
    requires Shaped(s)
    ensures Shaped(r)
  {
    match e
    case Arrive(p) => if p < |s.end| then s.(end := s.end[p := s.end[p] + 1]) else s
    case Delivery(p, x) => Deliver(s, p, x)
    case Restart => s.(pos := s.committed, retries := map[])
    case Rebalance => s.(pos := s.committed)
  }

  function Run(s: State, events: seq<Event>): (r: State)
    requires Shaped(s)
    ensures Shaped(r)
  {
    if events == [] then s else Step(Run(s, events[..|events| - 1]), events[|events| - 1])
  }

  /** The processor, with the observable effects of its handler and dead-letter sends. */
  class StreamProcessor {
    var end: seq<nat>
    var pos: seq<nat>
    var committed: seq<nat>
    var messageRetryCount: map<Message, nat>
    var handled: multiset<Message>
    var dead: set<Message>
    var skipped: set<Message>

    ghost function Abs(): State
      reads this
    {
      State(end, pos, committed, messageRetryCount, handled, dead, skipped)
    }

    constructor (parts: nat)
      ensures Abs() == Init(parts)
    {
      end, pos, committed := Zeros(parts), Zeros(parts), Zeros(parts);
      messageRetryCount, handled, dead, skipped := map[], multiset{}, {}, {};
    }

    method CommitOffset(ok: bool)
      modifies this
      ensures Abs() == Commit(old(Abs()), ok)
    {
      if ok {
        committed := pos;
      }
    }

    /** `settled` is the value returned, if the commit after a dead-letter send does not raise. */
    method HandleProcessingError(m: Message, e: Error, x: Script) returns (settled: bool)
      modifies this
      ensures Abs() == HandleError(old(Abs()), m, e, x)
      ensures settled <==> GivesUp(e, Retries(old(Abs()), m)) || (x.retryOk && x.lateCommitOk)
    {
      var retryCount := if m in messageRetryCount then messageRetryCount[m] else 0;
      if e.kind == POISON || !Retryable(e) || retryCount >= Budget(e) {
        if x.dlqOk {
          dead := dead + {m};
          messageRetryCount := messageRetryCount - {m};
          CommitOffset(x.lateCommitOk);
        }
        return true;
      }
      messageRetryCount := messageRetryCount[m := retryCount + 1];
      if x.retryOk {
        handled := handled + multiset{m};
        messageRetryCount := messageRetryCount - {m};
        assert messageRetryCount == old(messageRetryCount) - {m};
        CommitOffset(x.lateCommitOk);
        return x.lateCommitOk;
      }
      return false;
    }

    method HandleMessage(p: nat, x: Script)
      requires Shaped(Abs())
      modifies this
      ensures Abs() == Deliver(old(Abs()), p, x)
    {
      if p >= |end| || pos[p] >= end[p] { return; }
      var m := Message(p, pos[p]);
      pos := pos[p := pos[p] + 1];
      if x.duplicate {
        skipped := skipped + {m};
        CommitOffset(x.commit.None?);
        return;
      }
      if x.handler.None? {
        handled := handled + multiset{m};
        if x.commit.None? {
          CommitOffset(true);
          return;
        }
      }
      var settled := HandleProcessingError(m, if x.handler.Some? then x.handler.value else x.commit.value, x);
    }
  }

  /** A delivery handles its own message only, and at most twice: twice exactly when the handler
      succeeds, the commit after it fails, and the error handler retries and succeeds as well. */
  lemma HandledTwiceIff(s: State, p: nat, x: Script, m: Message)
    requires Shaped(s) && HasNext(s, p)
    ensures var before, after := s.handled[m], Deliver(s, p, x).handled[m];
      && before <= after <= before + (if m == Next(s, p) then 2 else 0)
      && (after == before + 2 <==>
            && m == Next(s, p) && !x.duplicate && x.handler.None? && x.commit.Some?
            && !GivesUp(x.commit.value, Retries(s, m)) && x.retryOk)
  {
  }

  /** What a step about message `own` leaves of message `m`. */
  ghost predicate Touches(s: State, own: Message, r: State, m: Message) {
    && (Settled(s, m) ==> Settled(r, m))
    && (m != own ==> (Settled(r, m) ==> Settled(s, m)) && Retries(r, m) == Retries(s, m))
    && Retries(r, m) <= Retries(s, m) + 1
  }

  /** What a delivery does as far as the fate of message `m` goes: the position moves past the delivered
      message, positions are committed or not, and other messages are not touched. */
  ghost predicate Delivers(s: State, p: nat, r: State, m: Message)
    requires Shaped(s) && HasNext(s, p)
  {
    && r.end == s.end && r.pos == s.pos[p := s.pos[p] + 1] && (r.committed == s.committed || r.committed == r.pos)
    && Touches(s, Next(s, p), r, m)
  }

  lemma {:induction false} ErrorEffect(s: State, own: Message, e: Error, x: Script, m: Message)
    ensures var r := HandleError(s, own, e, x);
      r.end == s.end && r.pos == s.pos && (r.committed == s.committed || r.committed == s.pos) && Touches(s, own, r, m)
  {
  }

  lemma {:induction false} ProcessEffect(s: State, own: Message, x: Script, m: Message)
    ensures var r := Process(s, own, x);
      r.end == s.end && r.pos == s.pos && (r.committed == s.committed || r.committed == s.pos) && Touches(s, own, r, m)
  {
    if x.handler.Some? {
      ErrorEffect(s, own, x.handler.value, x, m);
    } else if x.commit.Some? {
      ErrorEffect(s.(handled := s.handled + multiset{own}), own, x.commit.value, x, m);
    }
  }

  lemma {:induction false} TakenDelivers(s: State, p: nat, taken: State, r: State, m: Message)
    requires Shaped(s) && HasNext(s, p) && taken == s.(pos := s.pos[p := s.pos[p] + 1])
    requires r.end == taken.end && r.pos == taken.pos && (r.committed == taken.committed || r.committed == taken.pos)
    requires Touches(taken, Next(s, p), r, m)
    ensures Delivers(s, p, r, m)
  {
    assert Settled(taken, m) == Settled(s, m) && Retries(taken, m) == Retries(s, m);
  }

  lemma {:induction false} DeliverEffect(s: State, p: nat, x: Script, m: Message)
    requires Shaped(s) && HasNext(s, p)
    ensures Delivers(s, p, Deliver(s, p, x), m)
  {
    var taken := s.(pos := s.pos[p := s.pos[p] + 1]);
    var r := Process(taken, Next(s, p), x);
    assert Delivers(s, p, r, m) by {
      ProcessEffect(taken, Next(s, p), x, m);
      TakenDelivers(s, p, taken, r, m);
    }
  }

  /** A commit that succeeds is made: for a duplicate, after a handled message, or by the error handler
      after its dead letter or its retry. */
  predicate CommitMade(s: State, m: Message, x: Script) {
    if x.duplicate || (x.handler.None? && x.commit.None?) then x.commit.None?
    else
      && x.lateCommitOk
      && if GivesUp(if x.handler.Some? then x.handler.value else x.commit.value, Retries(s, m)) then x.dlqOk
         else x.retryOk
  }

  /** What becomes of the delivered message: how often it is handled, whether it is dead-lettered or skipped,
      what its retry count is, and exactly when the positions are committed. */
  lemma {:induction false} DeliveredExactly(s: State, p: nat, x: Script)
    requires Shaped(s) && HasNext(s, p)
    ensures var r, m := Deliver(s, p, x), Next(s, p);
      var loop := !x.duplicate && x.handler.None?;
      var failed := !x.duplicate && (x.handler.Some? || x.commit.Some?);
      var e := if x.handler.Some? then x.handler.value
               else if x.commit.Some? then x.commit.value
               else Error(POISON, Structured);
      var givesUp := GivesUp(e, Retries(s, m));
      && r.handled[m] ==
         s.handled[m] + (if loop then 1 else 0) + (if failed && !givesUp && x.retryOk then 1 else 0)
      && (m in r.dead <==> m in s.dead || (failed && givesUp && x.dlqOk))
      && (m in r.skipped <==> m in s.skipped || x.duplicate)
      && Retries(r, m) == (if !failed || (givesUp && !x.dlqOk) then Retries(s, m)
                           else if givesUp || x.retryOk then 0
                           else Retries(s, m) + 1)
      && (r.committed == r.pos <==> CommitMade(s, m, x))
  {
    assert s.pos[p := s.pos[p] + 1][p] > s.committed[p];
  }

  /** What a commit is for: afterwards neither a restart nor a rebalance goes back. */
  lemma {:induction false} CommitHolds(s: State, p: nat, x: Script)
    requires Shaped(s) && HasNext(s, p) && CommitMade(s, Next(s, p), x)
    ensures var r := Deliver(s, p, x);
      && r.pos == s.pos[p := s.pos[p] + 1] && Step(r, Restart).pos == r.pos && Step(r, Rebalance).pos == r.pos
  {
    DeliveredExactly(s, p, x);
    DeliverEffect(s, p, x, Next(s, p));
  }

  predicate BelowCommitted(s: State, m: Message)
    requires Shaped(s)
  {
    m.part < |s.end| && m.off < s.committed[m.part]
  }

  lemma {:induction false} StepLeavesCommitted(s: State, e: Event, m: Message)
    requires Shaped(s) && BelowCommitted(s, m)
    ensures BelowCommitted(Step(s, e), m) && Step(s, e).handled[m] == s.handled[m]
  {
    if e.Delivery? && HasNext(s, e.part) {
      DeliverEffect(s, e.part, e.script, m);
      HandledTwiceIff(s, e.part, e.script, m);
    }
  }

  lemma {:induction false} RunLeavesCommitted(s: State, m: Message, later: seq<Event>)
    requires Shaped(s) && BelowCommitted(s, m)
    ensures BelowCommitted(Run(s, later), m) && Run(s, later).handled[m] == s.handled[m]
  {
    if later != [] {
      RunLeavesCommitted(s, m, later[..|later| - 1]);
      StepLeavesCommitted(Run(s, later[..|later| - 1]), later[|later| - 1], m);
    }
  }

  /** Over whole runs: a message that was handled once and committed is never handled again. */
  lemma {:induction false} NeverHandledAgain(s: State, p: nat, x: Script, later: seq<Event>)
    requires Shaped(s) && HasNext(s, p) && CommitMade(s, Next(s, p), x)
    ensures var r, m := Deliver(s, p, x), Next(s, p);
      && Run(r, later).handled[m] == r.handled[m]
      && (!x.duplicate && x.handler.None? && x.commit.None? ==> Run(r, later).handled[m] == s.handled[m] + 1)
  {
    CommitHolds(s, p, x);
    DeliveredExactly(s, p, x);
    RunLeavesCommitted(Deliver(s, p, x), Next(s, p), later);
  }

  // What is never lost.

  /** A delivery leaves its message behind: neither handled nor dead-lettered nor a duplicate. */
  predicate LeavesBehind(s: State, p: nat, x: Script)
    requires Shaped(s)
  {
    HasNext(s, p) && !Settled(Deliver(s, p, x), Next(s, p))
  }

  /** Exactly which deliveries do: the handler fails, and then either the one retry fails too or the
      dead-letter send does, for a message that was not settled by an earlier delivery. */
  lemma LeavesBehindIff(s: State, p: nat, x: Script)
    requires Shaped(s) && HasNext(s, p)
    ensures LeavesBehind(s, p, x) <==>
      && !Settled(s, Next(s, p)) && !x.duplicate && x.handler.Some?
      && if GivesUp(x.handler.value, Retries(s, Next(s, p))) then !x.dlqOk else !x.retryOk
  {
  }

  ghost predicate NeverLeavesBehind(parts: nat, events: seq<Event>) {
    forall i :: 0 <= i < |events| && events[i].Delivery? ==>
      !LeavesBehind(Run(Init(parts), events[..i]), events[i].part, events[i].script)
  }

  ghost predicate AllSettled(s: State)
    requires Shaped(s)
  {
    forall p, o :: 0 <= p < |s.end| && 0 <= o < s.pos[p] ==> Settled(s, Message(p, o))
  }

  lemma StepKeepsSettled(s: State, e: Event)
    requires Shaped(s) && AllSettled(s) && (e.Delivery? ==> !LeavesBehind(s, e.part, e.script))
    ensures AllSettled(Step(s, e))
  {
    var r := Step(s, e);
    if e.Delivery? && HasNext(s, e.part) {
      forall p, o | 0 <= p < |r.end| && 0 <= o < r.pos[p] ensures Settled(r, Message(p, o)) {
        DeliverEffect(s, e.part, e.script, Message(p, o));
        assert o < s.pos[p] ==> Settled(s, Message(p, o));
      }
    }
  }

  /** If no delivery leaves its message behind, every message the processor is past is settled,
      through any restarts, rebalances and failed commits. */
  lemma {:induction false} NothingLost(parts: nat, events: seq<Event>)
    requires NeverLeavesBehind(parts, events)
    ensures AllSettled(Run(Init(parts), events))
  {
    if events != [] {
      var before := events[..|events| - 1];
      forall i | 0 <= i < |before| && before[i].Delivery?
        ensures !LeavesBehind(Run(Init(parts), before[..i]), before[i].part, before[i].script)
      {
        assert before[..i] == events[..i];
      }
      NothingLost(parts, before);
      StepKeepsSettled(Run(Init(parts), before), events[|events| - 1]);
    }
  }

  // What is lost.

  /** Below the committed offset and not settled. */
  predicate Lost(s: State, m: Message)
    requires Shaped(s)
  {
    m.part < |s.end| && m.off < s.committed[m.part] && !Settled(s, m)
  }

  lemma StepKeepsLost(s: State, e: Event, m: Message)
    requires Shaped(s) && Lost(s, m)
    ensures Lost(Step(s, e), m)
  {
    if e.Delivery? && HasNext(s, e.part) {
      DeliverEffect(s, e.part, e.script, m);
    }
  }

  /** Lost means lost: no later event handles or dead-letters the message. */
  lemma {:induction false} LostForever(s: State, m: Message, later: seq<Event>)
    requires Shaped(s) && Lost(s, m)
    ensures Lost(Run(s, later), m)
  {
    if later != [] {
      LostForever(s, m, later[..|later| - 1]);
      StepKeepsLost(Run(s, later[..|later| - 1]), later[|later| - 1], m);
    }
  }

  /** The process keeps going: nothing makes it resume at the committed offsets. */
  ghost predicate Uninterrupted(events: seq<Event>) {
    forall i :: 0 <= i < |events| ==> !events[i].Restart? && !events[i].Rebalance?
  }

  /** Behind the position, not settled, and committed past exactly when there was a commit since `mark`. */
  ghost predicate Behind(s: State, m: Message, mark: seq<nat>)
    requires Shaped(s)
  {
    && m.part < |s.end| && m.off < s.pos[m.part] && !Settled(s, m)
    && (m.off < s.committed[m.part] <==> s.committed != mark)
  }

  lemma StepKeepsBehind(s: State, e: Event, m: Message, mark: seq<nat>)
    requires Shaped(s) && Behind(s, m, mark) && !e.Restart? && !e.Rebalance?
    requires |mark| == |s.end| && mark[m.part] <= m.off
    ensures Behind(Step(s, e), m, mark)
  {
    if e.Delivery? && HasNext(s, e.part) {
      DeliverEffect(s, e.part, e.script, m);
      DeliveryKeepsBehind(s, e.part, Deliver(s, e.part, e.script), m, mark);
    }
  }

  lemma DeliveryKeepsBehind(s: State, p: nat, r: State, m: Message, mark: seq<nat>)
    requires Shaped(s) && HasNext(s, p) && Shaped(r) && Delivers(s, p, r, m) && Behind(s, m, mark)
    requires |mark| == |s.end| && mark[m.part] <= m.off
    ensures Behind(r, m, mark)
  {
  }

  lemma {:induction false} RunKeepsBehind(s: State, mid: seq<Event>, m: Message, mark: seq<nat>)
    requires Shaped(s) && Behind(s, m, mark) && Uninterrupted(mid)
    requires |mark| == |s.end| && mark[m.part] <= m.off
    ensures Behind(Run(s, mid), m, mark) && |Run(s, mid).end| == |s.end|
  {
    if mid != [] {
      RunKeepsBehind(s, mid[..|mid| - 1], m, mark);
      StepKeepsBehind(Run(s, mid[..|mid| - 1]), mid[|mid| - 1], m, mark);
    }
  }

  /**
   The fate of a message left behind: as long as the process keeps going it is not delivered again,
   and the first commit for whatever message of whatever partition loses it for ever. Only a restart
   or a rebalance before any commit would deliver it again.
   */
  lemma LeftBehindThenLost(s: State, p: nat, x: Script, mid: seq<Event>, later: seq<Event>)
    requires Shaped(s) && LeavesBehind(s, p, x) && Uninterrupted(mid)
    ensures var m, t := Next(s, p), Deliver(s, p, x);
      var u := Run(t, mid);
      && !Settled(u, m)
      && (u.committed != t.committed ==> Lost(Run(u, later), m))
      && (u.committed == t.committed ==> Step(u, Rebalance).pos[p] <= m.off)
  {
    var m, t := Next(s, p), Deliver(s, p, x);
    RunKeepsBehind(t, mid, m, t.committed);
    var u := Run(t, mid);
    if u.committed != t.committed {
      LostForever(u, m, later);
    }
  }

  // The retry budget.

  ghost function Rebalances(events: seq<Event>): nat {
    if events == [] then 0
    else Rebalances(events[..|events| - 1]) + if events[|events| - 1].Rebalance? then 1 else 0
  }

  /** A message is retried once per delivery, and delivered again only after a rebalance, since a
      restart forgets the counts. */
  lemma {:induction false} RetriesBounded(parts: nat, events: seq<Event>, m: Message)
    ensures var s := Run(Init(parts), events);
      Retries(s, m) <= Rebalances(events) + if Passed(s, m) then 1 else 0
  {
    if events != [] {
      RetriesBounded(parts, events[..|events| - 1], m);
      StepRetries(Run(Init(parts), events[..|events| - 1]), events[|events| - 1], m,
                  Rebalances(events[..|events| - 1]));
    }
  }

  /** The position is past the message. */
  predicate Passed(s: State, m: Message) {
    m.part < |s.pos| && m.off < s.pos[m.part]
  }

  lemma StepRetries(s: State, e: Event, m: Message, n: nat)
    requires Shaped(s) && Retries(s, m) <= n + if Passed(s, m) then 1 else 0
    ensures var r := Step(s, e);
      Retries(r, m) <= n + (if Passed(r, m) then 1 else 0) + if e.Rebalance? then 1 else 0
  {
    if e.Delivery? && HasNext(s, e.part) {
      DeliverEffect(s, e.part, e.script, m);
    }
  }

  /** Some run with at most `n` rebalances ends with a message next whose failure with `e` is not retried. */
  ghost predicate Exhaustible(e: Error, n: nat) {
    exists parts, events, p :: Exhausts(e, n, parts, events, p)
  }

  ghost predicate Exhausts(e: Error, n: nat, parts: nat, events: seq<Event>, p: nat) {
    var s := Run(Init(parts), events);
    Rebalances(events) <= n && HasNext(s, p) && GivesUp(e, Retries(s, Next(s, p)))
  }

  /** A delivery whose handler fails with `e`, and whose retry fails too. */
  function Failing(e: Error): Event {
    Delivery(0, Script(false, Some(e), None, false, false, false))
  }

  /** A message that fails in this way once before each of `n` rebalances. */
  ghost function Rounds(e: Error, n: nat): seq<Event> {
    if n == 0 then [Arrive(0)] else Rounds(e, n - 1) + [Failing(e)] + [Rebalance]
  }

  /** The first message of the only partition is next, and has been retried `n` times. */
  ghost predicate Retried(s: State, n: nat) {
    s.end == [1] && s.pos == [0] && s.committed == [0] && Retries(s, Message(0, 0)) == n
  }

  lemma RoundRetries(s: State, e: Error, n: nat)
    requires Shaped(s) && Retried(s, n) && !GivesUp(e, n)
    ensures Retried(Step(Step(s, Failing(e)), Rebalance), n + 1)
  {
    assert HasNext(s, 0) && Next(s, 0) == Message(0, 0);
  }

  lemma EventAppended(s: State, events: seq<Event>, e: Event)
    requires Shaped(s)
    ensures Run(s, events + [e]) == Step(Run(s, events), e)
    ensures Rebalances(events + [e]) == Rebalances(events) + if e.Rebalance? then 1 else 0
  {
    assert (events + [e])[..|events|] == events;
  }

  lemma {:induction false} FirstArrives()
    ensures Rebalances([Arrive(0)]) == 0 && Retried(Run(Init(1), [Arrive(0)]), 0)
  {
    assert [] + [Arrive(0)] == [Arrive(0)];
    EventAppended(Init(1), [], Arrive(0));
  }

  lemma {:induction false} RoundAppended(before: seq<Event>, e: Error, n: nat)
    requires Retried(Run(Init(1), before), n) && !GivesUp(e, n)
    ensures var longer := before + [Failing(e)] + [Rebalance];
      Rebalances(longer) == Rebalances(before) + 1 && Retried(Run(Init(1), longer), n + 1)
  {
    EventAppended(Init(1), before, Failing(e));
    EventAppended(Init(1), before + [Failing(e)], Rebalance);
    RoundRetries(Run(Init(1), before), e, n);
  }

  lemma {:induction false} RoundsRetry(e: Error, n: nat)
    requires Retryable(e) && (n == 0 || n <= Budget(e))
    ensures Rebalances(Rounds(e, n)) == n && Retried(Run(Init(1), Rounds(e, n)), n)
  {
    if n == 0 {
      FirstArrives();
    } else {
      RoundsRetry(e, n - 1);
      RoundAppended(Rounds(e, n - 1), e, n - 1);
    }
  }

  /**
   How the budgets of two to eight attempts are used up: a retryable error is dead-lettered after
   some run with at most `n` rebalances exactly when its budget is at most `n`. So as long as the
   process keeps its partitions it is retried once, whatever the budget.
   */
  lemma {:induction false} BudgetExhaustedIff(e: Error, n: nat)
    requires Retryable(e)
    ensures Exhaustible(e, n) <==> Budget(e) <= n
  {
    if Exhaustible(e, n) {
      var parts, events, p :| Exhausts(e, n, parts, events, p);
      RetriesBounded(parts, events, Next(Run(Init(parts), events), p));
    }
    if Budget(e) <= n {
      var rounds := if Budget(e) < 0 then 0 else Budget(e);
      RoundsRetry(e, rounds);
      assert Exhausts(e, n, 1, Rounds(e, rounds), 0);
    }
  }

  /** The number of rebalances that it takes to dead-letter an unstructured error of each kind. */
  lemma {:induction false} AttemptsByKind(n: nat)
    ensures Exhaustible(Error(TRANSIENT, Unstructured), n) <==> n >= 5
    ensures Exhaustible(Error(INFRASTRUCTURE, Unstructured), n) <==> n >= 3
    ensures Exhaustible(Error(RATE_LIMIT, Unstructured), n) <==> n >= 8
    ensures Exhaustible(Error(BUSINESS, Unstructured), n) <==> n >= 2
    ensures GivesUp(Error(POISON, Unstructured), 0) && GivesUp(Error(AUTHENTICATION, Unstructured), 0)
  {
    BudgetExhaustedIff(Error(TRANSIENT, Unstructured), n);
    BudgetExhaustedIff(Error(INFRASTRUCTURE, Unstructured), n);
    BudgetExhaustedIff(Error(RATE_LIMIT, Unstructured), n);
    BudgetExhaustedIff(Error(BUSINESS, Unstructured), n);
  }

  /** A structured error is retried at all only if it is transient and says so, of a kind that is retried,
      and then as often as its own limit and its kind's allow. */
  lemma {:induction false} StructuredAttempts(e: Error, n: nat)
    requires e.structure != Unstructured && e.kind in {TRANSIENT, INFRASTRUCTURE, RATE_LIMIT, BUSINESS}
    ensures e.structure.Structured? || !e.structure.retryable ==> GivesUp(e, 0)
    ensures e.structure.Transient? && e.structure.retryable ==>
            (Exhaustible(e, n) <==> e.structure.maxRetries <= n || Exhaustible(Error(e.kind, Unstructured), n))
  {
    BudgetExhaustedIff(Error(e.kind, Unstructured), n);
    if Retryable(e) {
      BudgetExhaustedIff(e, n);
    }
  }
}
