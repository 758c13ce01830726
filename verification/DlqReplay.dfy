/**
 The dead-letter replay tool as a protocol: a consumer group with manual commits reads a
 partitioned dead-letter topic and republishes each well-formed entry to its original topic.
 Every await of the loop is a separate event, so a run may die between any two of them.
 */
module DlqReplay {
  import opened JsonValues
  import opened Prelude

  /** A dead letter as the tool reads it: the fields it looks up (a null value reads as missing), or
      a record whose reading raises and so ends the run. */
  datatype Entry =
    | Entry(topic: Option<string>, key: Option<Json>, data: Option<Json>)
    | Unreadable

  datatype Source = Source(part: nat, off: nat)

  datatype Publication = Publication(src: Source, topic: string, key: string, data: Json)

  datatype Phase =
    | Ready            // waiting for the next message
    | Got(part: nat)   // fetched, nothing done about it yet
    | Acted(part: nat) // published (or printed, in a dry run), offset not committed yet

  /** A run of the tool: its arguments and local variables. Its position is the committed offsets,
      plus one in the partition of the message it holds. */
  datatype Tool =
    | Off
    | On(limit: int, dryRun: bool, processed: nat, phase: Phase)

  /** `dryCommitted` and `lostCommits` are history: the entries committed by dry runs, and how
      often a run died after publishing an entry and before committing it. */
  datatype State = State(
    dlq: seq<seq<Entry>>, committed: seq<nat>, published: seq<Publication>, tool: Tool,
    dryCommitted: set<Source>, lostCommits: nat)

  datatype Event =
    | Arrive(part: nat, entry: Entry)
    | Start(limit: int, dryRun: bool)
    | Fetch(part: nat)
    | Act
    | Commit
    | Crash

  predicate WellFormed(e: Entry) {
    e.Entry? && e.topic.Some? && e.topic.value != "" && e.data.Some?
  }

  /** Malformed entries are skipped; unreadable ones cannot even be skipped. */
  predicate Skippable(e: Entry) {
    e.Entry? && !WellFormed(e)
  }

  /** `str(original_message.get("key", ""))` */
  function KeyText(key: Option<Json>): string {
    if key.None? then "" else TextOf(key.value)
  }

  /** The record the tool publishes for a well-formed entry. */
  function Republish(src: Source, e: Entry): Publication
    requires WellFormed(e)
  {
    Publication(src, e.topic.value, KeyText(e.key), e.data.value)
  }

  predicate LimitReached(limit: int, processed: nat) {
    limit != 0 && processed >= limit
  }

  function Init(dlq: seq<seq<Entry>>): State {
    State(dlq, seq(|dlq|, i => 0), [], Off, {}, 0)
  }

  /** Shape of every reachable state; the protocol's steps are defined on such states. */
  predicate Shaped(s: State) {
    && |s.committed| == |s.dlq|
    && (forall p :: 0 <= p < |s.dlq| ==> s.committed[p] <= |s.dlq[p]|)
    && (s.tool.On? && !s.tool.phase.Ready? ==>
      && s.tool.phase.part < |s.dlq|
      && s.committed[s.tool.phase.part] < |s.dlq[s.tool.phase.part]|
      && (s.tool.phase.Acted? ==> WellFormed(s.dlq[s.tool.phase.part][s.committed[s.tool.phase.part]])))
  }

  function CurrentSource(s: State): Source
    requires Shaped(s) && s.tool.On? && !s.tool.phase.Ready?
  {
    Source(s.tool.phase.part, s.committed[s.tool.phase.part])
  }

  function Current(s: State): Entry
    requires Shaped(s) && s.tool.On? && !s.tool.phase.Ready?
  {
    s.dlq[s.tool.phase.part][s.committed[s.tool.phase.part]]
  }

  function ArriveStep(s: State, p: nat, entry: Entry): State
    requires Shaped(s)
  {
    if p < |s.dlq| then s.(dlq := s.dlq[p := s.dlq[p] + [entry]]) else s
  }

  function StartStep(s: State, limit: int, dryRun: bool): State
    requires Shaped(s)
  {
    if s.tool.Off? then s.(tool := On(limit, dryRun, 0, Ready)) else s
  }

  function FetchStep(s: State, p: nat): State
    requires Shaped(s)
  {
    if s.tool.On? && s.tool.phase.Ready? && p < |s.dlq| && s.committed[p] < |s.dlq[p]| then
      s.(tool := s.tool.(phase := Got(p)))
    else s
  }

  /** Publish the fetched entry; a dry run only counts it. */
  function ActStep(s: State): State
    requires Shaped(s)
  {
    if s.tool.On? && s.tool.phase.Got? && WellFormed(Current(s)) then
      s.(published := if s.tool.dryRun then s.published
                      else s.published + [Republish(CurrentSource(s), Current(s))],
         tool := s.tool.(processed := s.tool.processed + 1, phase := Acted(s.tool.phase.part)))
    else s
  }

  predicate MayCommit(s: State)
    requires Shaped(s)
  {
    s.tool.On? && (s.tool.phase.Acted? || (s.tool.phase.Got? && Skippable(Current(s))))
  }

  /** Commit the position, then stop if the limit is reached; malformed entries do not count. */
  function CommitStep(s: State): State
    requires Shaped(s)
  {
    if MayCommit(s) then
      s.(committed := s.committed[s.tool.phase.part := s.committed[s.tool.phase.part] + 1],
         dryCommitted := if s.tool.phase.Acted? && s.tool.dryRun then s.dryCommitted + {CurrentSource(s)}
                         else s.dryCommitted,
         tool := if s.tool.phase.Acted? && LimitReached(s.tool.limit, s.tool.processed) then Off
                 else s.tool.(phase := Ready))
    else s
  }

  function CrashStep(s: State): State
    requires Shaped(s)
  {
    if s.tool.On? then
      s.(tool := Off,
         lostCommits := if s.tool.phase.Acted? && !s.tool.dryRun then s.lostCommits + 1 else s.lostCommits)
    else s
  }

  /** One event of the protocol; an event that is not enabled changes nothing. */
  function Step(s: State, e: Event): (r: State)
    requires Shaped(s)
    ensures Shaped(r)
  {
    match e
    case Arrive(p, entry) => ArriveStep(s, p, entry)
    case Start(limit, dryRun) => StartStep(s, limit, dryRun)
    case Fetch(p) => FetchStep(s, p)
    case Act => ActStep(s)
    case Commit => CommitStep(s)
    case Crash => CrashStep(s)
  }

  /** A step publishes at most one record, after all earlier ones. */
  lemma StepPublishes(s: State, e: Event)
    requires Shaped(s)
    ensures var before, after := s.published, Step(s, e).published;
      after == before || (|after| == |before| + 1 && after[..|before|] == before)
  {
  }

  function Run(s: State, events: seq<Event>): (r: State)
    requires Shaped(s)
    ensures Shaped(r)
  {
    if events == [] then s else Step(Run(s, events[..|events| - 1]), events[|events| - 1])
  }

  lemma RunAppend(s: State, events: seq<Event>, e: Event)
    requires Shaped(s)
    ensures Run(s, events + [e]) == Step(Run(s, events), e)
  {
    assert (events + [e])[..|events|] == events;
  }

  /** The well-formed entries below the committed offsets. */
  ghost function Committed(s: State): set<Source>
    requires Shaped(s)
  {
    set p, o | 0 <= p < |s.dlq| && 0 <= o < s.committed[p] && WellFormed(s.dlq[p][o]) :: Source(p, o)
  }

  /** Some publication is the faithful copy of entry `src`. */
  ghost predicate Delivered(s: State, src: Source)
    requires src.part < |s.dlq| && src.off < |s.dlq[src.part]| && WellFormed(s.dlq[src.part][src.off])
  {
    Republish(src, s.dlq[src.part][src.off]) in s.published
  }

  ghost function Unacknowledged(s: State): nat {
    if s.tool.On? && s.tool.phase.Acted? && !s.tool.dryRun then 1 else 0
  }

  /** Every publication is the faithful copy of a well-formed entry. */
  ghost predicate AllFaithful(s: State)
    requires Shaped(s)
  {
    forall i :: 0 <= i < |s.published| ==> Faithful(s, s.published[i])
  }

  /** At least once: only a dry run can commit a well-formed entry without delivering it. */
  ghost predicate Covered(s: State)
    requires Shaped(s)
  {
    && (forall src :: src in Committed(s) ==> src in s.dryCommitted || Delivered(s, src))
    && (s.tool.On? && s.tool.phase.Acted? && !s.tool.dryRun ==> Delivered(s, CurrentSource(s)))
  }

  /** Publications and dry commits balance commits, lost commits and the one in flight. */
  ghost predicate Conserved(s: State)
    requires Shaped(s)
  {
    && s.dryCommitted <= Committed(s)
    && |s.published| + |s.dryCommitted| == |Committed(s)| + s.lostCommits + Unacknowledged(s)
  }

  /** What every step keeps. */
  ghost predicate Inv(s: State)
    requires Shaped(s)
  {
    AllFaithful(s) && Covered(s) && Conserved(s)
  }

  ghost predicate Faithful(s: State, pub: Publication)
    requires Shaped(s)
  {
    && pub.src.part < |s.dlq| && pub.src.off < |s.dlq[pub.src.part]|
    && pub.src.off <= s.committed[pub.src.part]
    && WellFormed(s.dlq[pub.src.part][pub.src.off])
    && pub == Republish(pub.src, s.dlq[pub.src.part][pub.src.off])
  }

  lemma ArriveKeepsInv(s: State, p: nat, entry: Entry)
    requires Shaped(s) && Inv(s)
    ensures Inv(Step(s, Arrive(p, entry)))
  {
    var r := Step(s, Arrive(p, entry));
    assert Committed(r) == Committed(s);
    forall src | src in Committed(s) && Delivered(s, src) ensures Delivered(r, src) {
    }
  }

  lemma ActKeepsInv(s: State)
    requires Shaped(s) && Inv(s)
    ensures Inv(Step(s, Act))
  {
    var r := Step(s, Act);
    assert Committed(r) == Committed(s);
    assert forall i :: 0 <= i < |s.published| ==> r.published[i] == s.published[i];
  }

  /** A commit moves exactly the in-flight entry below the committed offsets. */
  lemma CommitAddsCurrent(s: State)
    requires Shaped(s) && Step(s, Commit) != s
    ensures CurrentSource(s) !in Committed(s)
    ensures Committed(Step(s, Commit)) ==
            if WellFormed(Current(s)) then Committed(s) + {CurrentSource(s)} else Committed(s)
  {
  }

  lemma CommitKeepsCoverage(s: State)
    requires Shaped(s) && Covered(s) && Step(s, Commit) != s
    ensures Covered(Step(s, Commit))
  {
    var r := Step(s, Commit);
    CommitAddsCurrent(s);
    forall src | src in Committed(r) ensures src in r.dryCommitted || Delivered(r, src) {
      if src in Committed(s) {
        assert src in s.dryCommitted || Delivered(s, src);
      }
    }
  }

  lemma CommitConserves(s: State)
    requires Shaped(s) && Conserved(s) && Step(s, Commit) != s
    ensures Conserved(Step(s, Commit))
  {
    CommitAddsCurrent(s);
  }

  lemma CommitKeepsInv(s: State)
    requires Shaped(s) && Inv(s)
    ensures Inv(Step(s, Commit))
  {
    if Step(s, Commit) != s {
      CommitKeepsCoverage(s);
      CommitConserves(s);
    }
  }

  lemma ControlKeepsInv(s: State, e: Event)
    requires Shaped(s) && Inv(s)
    requires e.Start? || e.Fetch? || e.Crash?
    ensures Inv(Step(s, e))
  {
    assert Committed(Step(s, e)) == Committed(s);
  }

  lemma StepKeepsInv(s: State, e: Event)
    requires Shaped(s) && Inv(s)
    ensures Inv(Step(s, e))
  {
    match e {
      case Arrive(p, entry) => ArriveKeepsInv(s, p, entry);
      case Act => ActKeepsInv(s);
      case Commit => CommitKeepsInv(s);
      case _ => ControlKeepsInv(s, e);
    }
  }

  lemma {:induction false} RunKeepsInv(dlq: seq<seq<Entry>>, events: seq<Event>)
    ensures Inv(Run(Init(dlq), events))
  {
    if events == [] {
      assert Committed(Init(dlq)) == {};
    } else {
      RunKeepsInv(dlq, events[..|events| - 1]);
      StepKeepsInv(Run(Init(dlq), events[..|events| - 1]), events[|events| - 1]);
    }
  }

  /**
   Delivery guarantee over every interleaving of arrivals, runs and crashes: a well-formed entry
   below the committed offsets was republished, key and topic intact, unless a dry run committed
   it; nothing else is ever published; and publications are conserved.
   */
  lemma {:induction false} ReplayGuarantee(dlq: seq<seq<Entry>>, events: seq<Event>)
    ensures var s := Run(Init(dlq), events);
      && (forall p, o :: 0 <= p < |s.dlq| && 0 <= o < s.committed[p] && Intact(s.dlq[p][o]) ==>
            Source(p, o) in s.dryCommitted || exists pub :: pub in s.published && Copies(s, pub, p, o))
      && (forall pub :: pub in s.published ==> Copies(s, pub, pub.src.part, pub.src.off))
      && |s.published| + |s.dryCommitted| == |Committed(s)| + s.lostCommits + Unacknowledged(s)
  {
    RunKeepsInv(dlq, events);
    var s := Run(Init(dlq), events);
    forall p, o | 0 <= p < |s.dlq| && 0 <= o < s.committed[p] && Intact(s.dlq[p][o])
      ensures Source(p, o) in s.dryCommitted || exists pub :: pub in s.published && Copies(s, pub, p, o)
    {
      assert Source(p, o) in Committed(s);
      if Source(p, o) !in s.dryCommitted {
        assert Delivered(s, Source(p, o));
        var pub := Republish(Source(p, o), s.dlq[p][o]);
        assert pub in s.published && Copies(s, pub, p, o);
      }
    }
    forall pub | pub in s.published ensures Copies(s, pub, pub.src.part, pub.src.off) {
      assert Faithful(s, pub);
    }
  }

  /** The entry names a topic and carries a value. */
  predicate Intact(e: Entry) {
    e.Entry? && e.topic.Some? && |e.topic.value| > 0 && e.data.Some?
  }

  /** The publication is the entry at this place, field by field; an entry without a key gets an empty one. */
  ghost predicate Copies(s: State, pub: Publication, p: nat, o: nat) {
    && p < |s.dlq| && o < |s.dlq[p]| && pub.src == Source(p, o)
    && Intact(s.dlq[p][o]) && Some(pub.topic) == s.dlq[p][o].topic && Some(pub.data) == s.dlq[p][o].data
    && pub.key == match s.dlq[p][o].key
       case None => ""
       case Some(Str(text)) => text
       case Some(Null) => "None"
       case Some(Other(text, _)) => text
       case Some(Obj(_)) => pub.key
  }

  ghost function Crashes(events: seq<Event>): nat {
    if events == [] then 0
    else Crashes(events[..|events| - 1]) + if events[|events| - 1].Crash? then 1 else 0
  }

  ghost predicate NoDryRun(events: seq<Event>) {
    forall i :: 0 <= i < |events| ==> !(events[i].Start? && events[i].dryRun)
  }

  lemma {:induction false} HistoryBounds(dlq: seq<seq<Entry>>, events: seq<Event>)
    ensures var s := Run(Init(dlq), events);
      && s.lostCommits <= Crashes(events)
      && (NoDryRun(events) ==> s.dryCommitted == {} && (s.tool.On? ==> !s.tool.dryRun))
  {
    if events != [] {
      HistoryBounds(dlq, events[..|events| - 1]);
      if NoDryRun(events) {
        assert NoDryRun(events[..|events| - 1]);
      }
    }
  }

  /** Without dry runs, duplicates are paid for by crashes, plus the one publication in flight. */
  lemma BoundedDuplication(dlq: seq<seq<Entry>>, events: seq<Event>)
    requires NoDryRun(events)
    ensures var s := Run(Init(dlq), events);
      |Committed(s)| <= |s.published| <= |Committed(s)| + Crashes(events) + 1
  {
    RunKeepsInv(dlq, events);
    HistoryBounds(dlq, events);
  }

  /** How many entries a run may publish: the limit, except that a negative limit stops after one. */
  function Quota(limit: int): nat {
    if limit < 0 then 1 else limit
  }

  /** A limited run has published what it processed since `base`, and it is not over its quota. */
  ghost predicate WithinQuota(r: State, base: nat, limit: int) {
    && base <= |r.published| <= base + Quota(limit)
    && (r.tool.On? ==>
      && r.tool.limit == limit && !r.tool.dryRun
      && |r.published| == base + r.tool.processed
      && (!r.tool.phase.Acted? ==> r.tool.processed < Quota(limit)))
  }

  lemma StepKeepsQuota(r: State, base: nat, limit: int, e: Event)
    requires Shaped(r) && limit != 0 && WithinQuota(r, base, limit) && !e.Start?
    ensures WithinQuota(Step(r, e), base, limit)
  {
  }

  /** A run started with a non-zero limit never publishes more than its quota, however it ends. */
  lemma {:induction false} RunRespectsLimit(s: State, limit: int, events: seq<Event>)
    requires Shaped(s) && s.tool.Off? && limit != 0
    requires forall i :: 0 <= i < |events| ==> !events[i].Start?
    ensures WithinQuota(Run(Step(s, Start(limit, false)), events), |s.published|, limit)
  {
    if events != [] {
      RunRespectsLimit(s, limit, events[..|events| - 1]);
      StepKeepsQuota(Run(Step(s, Start(limit, false)), events[..|events| - 1]), |s.published|, limit,
                     events[|events| - 1]);
    }
  }

  /** Exactly when the tool stops by itself: after committing an entry it has processed, if there is a
      limit and the limit is negative or reached. Without a limit it goes on. */
  lemma CommitStopsIff(s: State)
    requires Shaped(s) && s.tool.On? && s.tool.phase.Acted?
    ensures var limit, processed := s.tool.limit, s.tool.processed;
      && (processed >= 1 ==>
            (Step(s, Commit).tool.Off? <==> limit != 0 && (limit < 0 || processed >= limit)))
      && (Step(s, Commit).tool.On? ==> Step(s, Commit).tool == On(limit, s.tool.dryRun, processed, Ready))
  {
  }

  ghost predicate Unpublished(s: State, src: Source) {
    forall i :: 0 <= i < |s.published| ==> s.published[i].src != src
  }

  lemma StepIsFinal(s: State, src: Source, e: Event)
    requires Shaped(s)
    requires src.part < |s.dlq| && src.off < s.committed[src.part] && Unpublished(s, src)
    ensures var r := Step(s, e);
      && |r.dlq| == |s.dlq| && src.off < r.committed[src.part] && Unpublished(r, src)
  {
    if e.Act? && Step(s, e) != s {
      assert CurrentSource(s) != src;
    }
  }

  /** Committing is final: an entry committed without being published is never published later. */
  lemma {:induction false} CommittedIsFinal(s: State, src: Source, events: seq<Event>)
    requires Shaped(s)
    requires src.part < |s.dlq| && src.off < s.committed[src.part] && Unpublished(s, src)
    ensures var r := Run(s, events);
      && |r.dlq| == |s.dlq| && src.off < r.committed[src.part] && Unpublished(r, src)
  {
    if events != [] {
      CommittedIsFinal(s, src, events[..|events| - 1]);
      StepIsFinal(Run(s, events[..|events| - 1]), src, events[|events| - 1]);
    }
  }

  /** Dry runs commit too: the well-formed entry one of them has just printed is then out of reach of
      every later run, dry or not. */
  lemma DryRunDropsEntry(s: State, later: seq<Event>)
    requires Shaped(s) && s.tool.On? && s.tool.dryRun && s.tool.phase.Acted?
    requires Unpublished(s, CurrentSource(s))
    ensures CurrentSource(s) in Committed(Step(s, Commit))
    ensures Unpublished(Run(Step(s, Commit), later), CurrentSource(s))
  {
    CommitAddsCurrent(s);
    CommittedIsFinal(Step(s, Commit), CurrentSource(s), later);
  }

  ghost predicate Blocked(s: State, src: Source) {
    && |s.committed| == |s.dlq| && src.part < |s.dlq|
    && s.committed[src.part] <= src.off < |s.dlq[src.part]| && s.dlq[src.part][src.off].Unreadable?
  }

  lemma StepKeepsBlocked(s: State, src: Source, e: Event)
    requires Shaped(s) && Blocked(s, src)
    ensures Blocked(Step(s, e), src)
  {
  }

  /** An unreadable entry blocks its partition: no run ever commits it or anything behind it. */
  lemma {:induction false} UnreadableBlocks(s: State, src: Source, events: seq<Event>)
    requires Shaped(s) && Blocked(s, src)
    ensures Blocked(Run(s, events), src)
  {
    if events != [] {
      UnreadableBlocks(s, src, events[..|events| - 1]);
      StepKeepsBlocked(Run(s, events[..|events| - 1]), src, events[|events| - 1]);
    }
  }

  /** The broker as the tool sees it: topic contents, group offsets and what was sent. */
  class Broker {
    var dlq: seq<seq<Entry>>
    var committed: seq<nat>
    var published: seq<Publication>

    constructor (dlq: seq<seq<Entry>>)
      ensures this.dlq == dlq && published == []
      ensures committed == Init(dlq).committed
    {
      this.dlq := dlq;
      committed := seq(|dlq|, i => 0);
      published := [];
    }

    ghost predicate Shows(s: State)
      reads this
    {
      dlq == s.dlq && committed == s.committed && published == s.published
    }
  }

  lemma {:induction false} RunConcat(s: State, a: seq<Event>, b: seq<Event>)
    requires Shaped(s)
    ensures Run(s, a + b) == Run(Run(s, a), b)
  {
    if b == [] {
      assert a + b == a;
    } else {
      var init, last := b[..|b| - 1], b[|b| - 1];
      assert Run(s, a + b) == Step(Run(s, a + init), last) by {
        assert a + b == a + init + [last];
        RunAppend(s, a + init, last);
      }
      RunConcat(s, a, init);
    }
  }

  datatype Outcome = Continue | Finished | Died

  /** How far the tool gets: the state reached, through which events, how many entries it processed, why
      it ends there, and how many more awaits the process lives. */
  datatype Progress = Progress(state: State, steps: seq<Event>, processed: nat, outcome: Outcome, awaits: nat)

  ghost predicate GoesOn(s: State, r: Progress)
    requires s.tool.On?
  {
    Shaped(r.state) && (r.outcome == Continue ==> r.state.tool == On(s.tool.limit, s.tool.dryRun, r.processed, Ready))
  }

  /** One delivered message. */
  function Attempt(s: State, p: nat, awaits: nat): (r: Progress)
    requires Shaped(s) && s.tool.On? && s.tool.phase.Ready?
    ensures GoesOn(s, r)
  {
    var fetched := Step(s, Fetch(p));
    if fetched.tool.phase.Ready? then Progress(s, [], s.tool.processed, Continue, awaits)
    else if Current(fetched).Unreadable? then Progress(fetched, [Fetch(p)], s.tool.processed, Died, awaits)
    else if !WellFormed(Current(fetched)) then Acknowledge(fetched, [Fetch(p)], awaits)
    else if s.tool.dryRun then Acknowledge(Step(fetched, Act), [Fetch(p), Act], awaits)
    else if awaits == 0 then Progress(fetched, [Fetch(p)], s.tool.processed, Died, 0)
    else Acknowledge(Step(fetched, Act), [Fetch(p), Act], awaits - 1)
  }

  function Acknowledge(s: State, steps: seq<Event>, awaits: nat): (r: Progress)
    requires Shaped(s) && MayCommit(s)
    ensures GoesOn(s, r)
  {
    if awaits == 0 then Progress(s, steps, s.tool.processed, Died, 0)
    else
      var done := Step(s, Commit);
      Progress(done, steps + [Commit], s.tool.processed, if done.tool.Off? then Finished else Continue, awaits - 1)
  }

  /** The loop over the messages that are delivered. */
  function Loop(s: State, deliveries: seq<nat>, awaits: nat): (r: Progress)
    requires Shaped(s) && s.tool.On? && s.tool.phase.Ready?
    ensures GoesOn(s, r)
  {
    if deliveries == [] then Progress(s, [], s.tool.processed, Continue, awaits)
    else
      var r := Loop(s, deliveries[..|deliveries| - 1], awaits);
      if r.outcome != Continue then r
      else
        var t := Attempt(r.state, deliveries[|deliveries| - 1], r.awaits);
        t.(steps := r.steps + t.steps)
  }

  /** A whole run of the tool; unless it finishes by its limit, it ends with its process. */
  function Session(s: State, limit: int, dryRun: bool, deliveries: seq<nat>, awaits: nat): Progress
    requires Shaped(s) && s.tool.Off?
  {
    var r := Loop(Step(s, Start(limit, dryRun)), deliveries, awaits);
    if r.outcome == Finished then r
    else Progress(Step(r.state, Crash), r.steps + [Crash], r.processed, Died, r.awaits)
  }

  ghost predicate WithinRun(events: seq<Event>) {
    forall i :: 0 <= i < |events| ==> !events[i].Start? && !events[i].Arrive?
  }

  lemma {:induction false} AcknowledgeIsRun(s0: State, s: State, steps: seq<Event>, awaits: nat)
    requires Shaped(s0) && s == Run(s0, steps) && MayCommit(s) && WithinRun(steps)
    ensures var r := Acknowledge(s, steps, awaits); r.state == Run(s0, r.steps) && WithinRun(r.steps)
  {
    if awaits > 0 {
      var longer := steps + [Commit];
      assert Run(s0, longer) == Step(s, Commit) by { RunAppend(s0, steps, Commit); }
      assert WithinRun(longer);
    }
  }

  lemma {:induction false} AttemptIsRun(s: State, p: nat, awaits: nat)
    requires Shaped(s) && s.tool.On? && s.tool.phase.Ready?
    ensures var r := Attempt(s, p, awaits); r.state == Run(s, r.steps) && WithinRun(r.steps)
  {
    var fetched := Step(s, Fetch(p));
    assert fetched == Run(s, [Fetch(p)]) by {
      RunAppend(s, [], Fetch(p));
      assert [] + [Fetch(p)] == [Fetch(p)];
    }
    if fetched.tool.phase.Got? && WellFormed(Current(fetched)) {
      assert Step(fetched, Act) == Run(s, [Fetch(p), Act]) by {
        RunAppend(s, [Fetch(p)], Act);
        assert [Fetch(p)] + [Act] == [Fetch(p), Act];
      }
      var left := if awaits == 0 || s.tool.dryRun then awaits else awaits - 1;
      AcknowledgeIsRun(s, Step(fetched, Act), [Fetch(p), Act], left);
    } else if MayCommit(fetched) {
      AcknowledgeIsRun(s, fetched, [Fetch(p)], awaits);
    }
  }

  lemma WithinRunConcat(a: seq<Event>, b: seq<Event>)
    requires WithinRun(a) && WithinRun(b)
    ensures WithinRun(a + b)
  {
  }

  lemma {:induction false} LoopIsRun(s: State, deliveries: seq<nat>, awaits: nat)
    requires Shaped(s) && s.tool.On? && s.tool.phase.Ready?
    ensures var r := Loop(s, deliveries, awaits); r.state == Run(s, r.steps) && WithinRun(r.steps)
  {
    if deliveries != [] {
      var before, p := deliveries[..|deliveries| - 1], deliveries[|deliveries| - 1];
      LoopIsRun(s, before, awaits);
      var r := Loop(s, before, awaits);
      if r.outcome == Continue {
        var t := Attempt(r.state, p, r.awaits);
        AttemptIsRun(r.state, p, r.awaits);
        RunConcat(s, r.steps, t.steps);
        WithinRunConcat(r.steps, t.steps);
      }
    }
  }

  /** Whatever is delivered and wherever the process dies, a run of the tool is a run of the protocol that
      ends with the tool off. */
  lemma {:induction false} SessionIsRun(s: State, limit: int, dryRun: bool, deliveries: seq<nat>, awaits: nat)
    requires Shaped(s) && s.tool.Off?
    ensures var r := Session(s, limit, dryRun, deliveries, awaits);
      r.state == Run(Step(s, Start(limit, dryRun)), r.steps) && WithinRun(r.steps) && r.state.tool.Off?
  {
    var started := Step(s, Start(limit, dryRun));
    var r := Loop(started, deliveries, awaits);
    LoopIsRun(started, deliveries, awaits);
    if r.outcome == Finished {
      LoopMindsQuota(started, deliveries, awaits);
    } else {
      RunAppend(started, r.steps, Crash);
      WithinRunConcat(r.steps, [Crash]);
    }
  }

  lemma AttemptPublishes(s: State, p: nat, awaits: nat)
    requires Shaped(s) && s.tool.On? && s.tool.phase.Ready?
    ensures var r := Attempt(s, p, awaits);
      |r.state.published| == |s.published| + if s.tool.dryRun then 0 else r.processed - s.tool.processed
  {
  }

  lemma {:induction false} LoopPublishes(s: State, deliveries: seq<nat>, awaits: nat)
    requires Shaped(s) && s.tool.On? && s.tool.phase.Ready?
    ensures var r := Loop(s, deliveries, awaits);
      |r.state.published| == |s.published| + if s.tool.dryRun then 0 else r.processed - s.tool.processed
  {
    if deliveries != [] {
      var r := Loop(s, deliveries[..|deliveries| - 1], awaits);
      LoopPublishes(s, deliveries[..|deliveries| - 1], awaits);
      if r.outcome == Continue {
        AttemptPublishes(r.state, deliveries[|deliveries| - 1], r.awaits);
      }
    }
  }

  lemma AttemptSpends(s: State, p: nat, awaits: nat)
    requires Shaped(s) && s.tool.On? && s.tool.phase.Ready?
    ensures var r := Attempt(s, p, awaits);
      r.awaits + (|r.state.published| - |s.published|) + multiset(r.steps)[Commit] == awaits
  {
  }

  /** The process lives through exactly the sends and commits it makes. */
  lemma {:induction false} LoopSpends(s: State, deliveries: seq<nat>, awaits: nat)
    requires Shaped(s) && s.tool.On? && s.tool.phase.Ready?
    ensures var r := Loop(s, deliveries, awaits);
      r.awaits + (|r.state.published| - |s.published|) + multiset(r.steps)[Commit] == awaits
  {
    if deliveries != [] {
      var r := Loop(s, deliveries[..|deliveries| - 1], awaits);
      LoopSpends(s, deliveries[..|deliveries| - 1], awaits);
      if r.outcome == Continue {
        AttemptSpends(r.state, deliveries[|deliveries| - 1], r.awaits);
      }
    }
  }

  /** However long it lives, a turn that finishes has just used up the quota, and one that goes on has not. */
  lemma AttemptMindsQuota(s: State, p: nat, awaits: nat)
    requires Shaped(s) && s.tool.On? && s.tool.phase.Ready?
    requires s.tool.limit != 0 ==> s.tool.processed < Quota(s.tool.limit)
    ensures var r, limit := Attempt(s, p, awaits), s.tool.limit;
      && (r.outcome == Finished ==> limit != 0 && r.processed == Quota(limit) && r.state.tool.Off?)
      && (r.outcome == Continue && limit != 0 ==> r.processed < Quota(limit))
  {
  }

  lemma {:induction false} LoopMindsQuota(s: State, deliveries: seq<nat>, awaits: nat)
    requires Shaped(s) && s.tool.On? && s.tool.phase.Ready?
    requires s.tool.limit != 0 ==> s.tool.processed < Quota(s.tool.limit)
    ensures var r, limit := Loop(s, deliveries, awaits), s.tool.limit;
      && (r.outcome == Finished ==> limit != 0 && r.processed == Quota(limit) && r.state.tool.Off?)
      && (r.outcome == Continue && limit != 0 ==> r.processed < Quota(limit))
  {
    if deliveries != [] {
      var r := Loop(s, deliveries[..|deliveries| - 1], awaits);
      LoopMindsQuota(s, deliveries[..|deliveries| - 1], awaits);
      if r.outcome == Continue {
        AttemptMindsQuota(r.state, deliveries[|deliveries| - 1], r.awaits);
      }
    }
  }

  // What a living tool does.

  /** No entry raises when it is read. */
  ghost predicate Readable(dlq: seq<seq<Entry>>) {
    forall p, o :: 0 <= p < |dlq| && 0 <= o < |dlq[p]| ==> dlq[p][o].Entry?
  }

  /** Where deliveries lead from given positions, and how many well-formed entries they meet. */
  datatype Walk = Walk(pos: seq<nat>, met: nat)

  function WalkOf(dlq: seq<seq<Entry>>, pos: seq<nat>, deliveries: seq<nat>): (w: Walk)
    requires |pos| == |dlq|
    ensures |w.pos| == |dlq|
  {
    if deliveries == [] then Walk(pos, 0)
    else WalkNext(dlq, WalkOf(dlq, pos, deliveries[..|deliveries| - 1]), deliveries[|deliveries| - 1])
  }

  function WalkNext(dlq: seq<seq<Entry>>, w: Walk, p: nat): Walk
    requires |w.pos| == |dlq|
  {
    if p >= |dlq| || w.pos[p] >= |dlq[p]| then w
    else Walk(w.pos[p := w.pos[p] + 1], w.met + if WellFormed(dlq[p][w.pos[p]]) then 1 else 0)
  }

  function Times(deliveries: seq<nat>, p: nat): nat {
    if deliveries == [] then 0
    else Times(deliveries[..|deliveries| - 1], p) + if deliveries[|deliveries| - 1] == p then 1 else 0
  }

  /** A partition is read from its position on, once per delivery, up to its end. */
  lemma {:induction false} WalkAdvances(dlq: seq<seq<Entry>>, pos: seq<nat>, deliveries: seq<nat>, p: nat)
    requires |pos| == |dlq| && p < |dlq| && pos[p] <= |dlq[p]|
    ensures var reach := pos[p] + Times(deliveries, p);
      WalkOf(dlq, pos, deliveries).pos[p] == if reach <= |dlq[p]| then reach else |dlq[p]|
  {
    if deliveries != [] {
      WalkAdvances(dlq, pos, deliveries[..|deliveries| - 1], p);
    }
  }

  /** One turn of a tool that lives through two more awaits commits the delivered entry. */
  lemma AttemptAdvances(s: State, p: nat, awaits: nat)
    requires Shaped(s) && s.tool.On? && s.tool.phase.Ready? && Readable(s.dlq) && awaits >= 2
    ensures var r := Attempt(s, p, awaits);
      var next := p < |s.dlq| && s.committed[p] < |s.dlq[p]|;
      && r.awaits >= awaits - 2 && r.outcome != Died && r.state.dlq == s.dlq
      && r.state.committed == (if next then s.committed[p := s.committed[p] + 1] else s.committed)
      && r.processed == s.tool.processed + if next && WellFormed(s.dlq[p][s.committed[p]]) then 1 else 0
  {
  }

  /** The tool lives on, or has finished, where the deliveries so far lead. */
  ghost predicate OnItsWay(s: State, w: Walk, r: Progress) {
    && r.outcome != Died && r.state.dlq == s.dlq
    && (r.outcome == Continue ==> w == Walk(r.state.committed, r.processed))
    && (r.outcome == Finished ==> r.processed <= w.met)
  }

  lemma {:induction false} TurnOnItsWay(s: State, w: Walk, r: Progress, t: Progress, p: nat)
    requires |w.pos| == |s.dlq| && OnItsWay(s, w, r) && r.outcome == Continue
    requires t.outcome != Died && t.state.dlq == r.state.dlq
    requires t.state.committed == WalkNext(s.dlq, w, p).pos && t.processed == WalkNext(s.dlq, w, p).met
    ensures OnItsWay(s, WalkNext(s.dlq, w, p), t)
  {
  }

  lemma {:induction false} LoopAdvances(s: State, deliveries: seq<nat>, awaits: nat)
    requires Shaped(s) && s.tool.On? && s.tool.phase.Ready? && s.tool.processed == 0 && Readable(s.dlq)
    requires awaits >= 2 * |deliveries|
    ensures var r := Loop(s, deliveries, awaits);
      OnItsWay(s, WalkOf(s.dlq, s.committed, deliveries), r) && r.awaits >= awaits - 2 * |deliveries|
  {
    if deliveries != [] {
      var before, p := deliveries[..|deliveries| - 1], deliveries[|deliveries| - 1];
      var r := Loop(s, before, awaits);
      LoopAdvances(s, before, awaits);
      if r.outcome == Continue {
        AttemptAdvances(r.state, p, r.awaits);
        TurnOnItsWay(s, WalkOf(s.dlq, s.committed, before), r, Attempt(r.state, p, r.awaits), p);
      }
    }
  }

  /**
   What a run achieves. It publishes exactly the entries it processed, unless it is dry, and ends by itself
   only when it has used up its limit. If the process lives through all awaits it needs and no entry raises,
   a run without a limit commits every partition's entries one per delivery and processes all well-formed
   ones, and a run with a limit processes that many, or all there are.
   */
  lemma {:induction false} SessionAchieves(s: State, limit: int, dryRun: bool, deliveries: seq<nat>, awaits: nat)
    requires Shaped(s) && s.tool.Off?
    ensures var r, w := Session(s, limit, dryRun, deliveries, awaits), WalkOf(s.dlq, s.committed, deliveries);
      && |r.state.published| == |s.published| + (if dryRun then 0 else r.processed)
      && (r.outcome == Finished ==> limit != 0 && r.processed == if limit < 0 then 1 else limit)
      && (Readable(s.dlq) && awaits >= 2 * |deliveries| ==>
            if limit == 0 then r.state.committed == w.pos && r.processed == w.met
            else r.processed == if w.met < Quota(limit) then w.met else Quota(limit))
  {
    var started := Step(s, Start(limit, dryRun));
    LoopPublishes(started, deliveries, awaits);
    LoopMindsQuota(started, deliveries, awaits);
    if Readable(s.dlq) && awaits >= 2 * |deliveries| {
      LoopAdvances(started, deliveries, awaits);
    }
  }

  /** An entry that arrives while the tool is idle is replayed by its next run. */
  lemma {:induction false} ArrivedIsReplayed(s: State, p: nat, entry: Entry, limit: int)
    requires Shaped(s) && s.tool.Off? && p < |s.dlq| && s.committed[p] == |s.dlq[p]| && Intact(entry)
    ensures var r := Session(Step(s, Arrive(p, entry)), limit, false, [p], 2);
      && r.state.published == s.published + [Republish(Source(p, |s.dlq[p]|), entry)]
      && r.state.committed == s.committed[p := |s.dlq[p]| + 1]
  {
    var started := Step(Step(s, Arrive(p, entry)), Start(limit, false));
    assert [p][..0] == [];
    assert Loop(started, [p][..0], 2) == Progress(started, [], 0, Continue, 2);
    assert Loop(started, [p], 2).state == Attempt(started, p, 2).state;
  }

  /** The loop body, from the delivery of a message to its commit, the limit or the process's death. */
  method ReplayOne(b: Broker, ghost s: State, limit: int, dryRun: bool,
                   p: nat, pos: seq<nat>, processed: nat, awaits: nat)
    returns (outcome: Outcome, pos': seq<nat>, processed': nat, awaits': nat)
    requires Shaped(s) && b.Shows(s) && s.tool == On(limit, dryRun, processed, Ready) && pos == s.committed
    modifies b
    ensures var r := Attempt(s, p, awaits);
      && b.Shows(r.state) && outcome == r.outcome && processed' == r.processed && awaits' == r.awaits
      && (outcome == Continue ==> pos' == b.committed)
  {
    outcome, pos', processed', awaits' := Continue, pos, processed, awaits;
    if p < |b.dlq| && pos[p] < |b.dlq[p]| {
      var off := pos[p];
      var entry := b.dlq[p][off];
      pos' := pos[p := off + 1];
      if entry.Unreadable? { outcome := Died; return; }
      if WellFormed(entry) {
        if !dryRun {
          if awaits' == 0 { outcome := Died; return; }
          awaits' := awaits' - 1;
          b.published := b.published + [Republish(Source(p, off), entry)];
        }
        processed' := processed' + 1;
      }
      if awaits' == 0 { outcome := Died; return; }
      awaits' := awaits' - 1;
      b.committed := pos';
      if WellFormed(entry) && limit != 0 && processed' >= limit { outcome := Finished; }
    }
  }

  lemma {:induction false} LoopStops(s: State, deliveries: seq<nat>, i: nat, awaits: nat)
    requires Shaped(s) && s.tool.On? && s.tool.phase.Ready? && i <= |deliveries|
    requires Loop(s, deliveries[..i], awaits).outcome != Continue
    ensures Loop(s, deliveries, awaits) == Loop(s, deliveries[..i], awaits)
  {
    if i < |deliveries| {
      var before := deliveries[..|deliveries| - 1];
      assert before[..i] == deliveries[..i];
      LoopStops(s, before, i, awaits);
    } else {
      assert deliveries[..i] == deliveries;
    }
  }

  lemma LoopTurn(s: State, deliveries: seq<nat>, i: nat, awaits: nat)
    requires Shaped(s) && s.tool.On? && s.tool.phase.Ready? && i < |deliveries|
    requires Loop(s, deliveries[..i], awaits).outcome == Continue
    ensures var r := Loop(s, deliveries[..i], awaits);
      var t := Attempt(r.state, deliveries[i], r.awaits);
      Loop(s, deliveries[..i + 1], awaits) == t.(steps := r.steps + t.steps)
  {
    assert deliveries[..i + 1][..i] == deliveries[..i];
  }

  /**
   One run of the tool. `deliveries` are the partitions the broker serves, in order, and `awaits`
   is how many sends and commits complete before the process dies, so every way a run can end is
   some argument.
   */
  method Replay(b: Broker, ghost s: State, limit: int, dryRun: bool, deliveries: seq<nat>, awaits: nat)
    returns (processed: nat)
    requires Shaped(s) && s.tool.Off? && b.Shows(s)
    modifies b
    ensures var r := Session(s, limit, dryRun, deliveries, awaits);
      b.Shows(r.state) && processed == r.processed
  {
    var pos: seq<nat> := b.committed;
    processed := 0;
    var left, i, outcome := awaits, 0, Continue;
    ghost var started := Step(s, Start(limit, dryRun));
    ghost var r := Loop(started, deliveries[..0], awaits);
    while i < |deliveries| && outcome == Continue
      invariant 0 <= i <= |deliveries| && r == Loop(started, deliveries[..i], awaits)
      invariant b.Shows(r.state) && r.outcome == outcome && r.processed == processed && r.awaits == left
      invariant outcome == Continue ==> pos == b.committed
    {
      LoopTurn(started, deliveries, i, awaits);
      outcome, pos, processed, left := ReplayOne(b, r.state, limit, dryRun, deliveries[i], pos, processed, left);
      i := i + 1;
      r := Loop(started, deliveries[..i], awaits);
    }
    if outcome == Continue {
      assert deliveries[..i] == deliveries;
    } else {
      LoopStops(started, deliveries, i, awaits);
    }
  }
}
