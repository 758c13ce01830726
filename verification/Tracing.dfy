/** Counters and durations of correlation traces. */
module Tracing {
  import opened Averages
  import opened Prelude

  datatype Op =
    | Start(id: string, at: real)
    | Span(id: string)
    | Complete(id: string, success: bool, at: real)

  datatype Trace = Trace(started: real, spans: nat)

  datatype Stats = Stats(active: int, completed: nat, failed: nat, average: real, live: map<string, Trace>)

  const INITIAL := Stats(0, 0, 0, 0.0, map[])

  function Step(s: Stats, op: Op): Stats {
    match op
    case Start(id, at) => s.(active := s.active + 1, live := s.live[id := Trace(at, 1)])
    case Span(id) =>
      if id in s.live then s.(live := s.live[id := s.live[id].(spans := s.live[id].spans + 1)]) else s
    case Complete(id, success, at) =>
      if id !in s.live then s
      else
        var completed := if success then s.completed + 1 else s.completed;
        var failed := if success then s.failed else s.failed + 1;
        Stats(s.active - 1, completed, failed,
              NextMean(s.average, completed + failed, at - s.live[id].started), s.live - {id})
  }

  function Run(ops: seq<Op>): Stats {
    if ops == [] then INITIAL else Step(Run(ops[..|ops| - 1]), ops[|ops| - 1])
  }

  class TraceMetrics {
    var active: int
    var completed: nat
    var failed: nat
    var average: real
    var live: map<string, Trace>

    ghost function Abs(): Stats
      reads this
    {
      Stats(active, completed, failed, average, live)
    }

    constructor ()
      ensures Abs() == INITIAL
    {
      active, completed, failed, average, live := 0, 0, 0, 0.0, map[];
    }

    method StartTraceMeasurement(id: string, now: real)
      modifies this
      ensures Abs() == Step(old(Abs()), Start(id, now))
    {
      active := active + 1;
      live := live[id := Trace(now, 1)];
    }

    method AddSpan(id: string)
      modifies this
      ensures Abs() == Step(old(Abs()), Span(id))
    {
      if id in live {
        live := live[id := Trace(live[id].started, live[id].spans + 1)];
      }
    }

    method CompleteTrace(id: string, success: bool, now: real)
      modifies this
      ensures Abs() == Step(old(Abs()), Complete(id, success, now))
    {
      if id in live {
        var info := live[id];
        live := live - {id};
        active := active - 1;
        if success {
          completed := completed + 1;
        } else {
          failed := failed + 1;
        }
        var duration := now - info.started;
        var total := completed + failed;
        if total > 0 {
          average := NextMean(average, total, duration);
        }
      }
    }
  }

  // The reference: questions asked of the call log.

  /** When the trace that is running under this id was started. */
  function RunningSince(ops: seq<Op>, id: string): Option<real> {
    if ops == [] then None
    else
      match ops[|ops| - 1]
      case Start(i, at) => if i == id then Some(at) else RunningSince(ops[..|ops| - 1], id)
      case Span(_) => RunningSince(ops[..|ops| - 1], id)
      case Complete(i, _, _) => if i == id then None else RunningSince(ops[..|ops| - 1], id)
  }

  function Starts(ops: seq<Op>): nat {
    if ops == [] then 0 else Starts(ops[..|ops| - 1]) + if ops[|ops| - 1].Start? then 1 else 0
  }

  /** Starts under an id that was already running. */
  function Restarts(ops: seq<Op>): nat {
    if ops == [] then 0
    else
      var op, before := ops[|ops| - 1], ops[..|ops| - 1];
      Restarts(before) + if op.Start? && RunningSince(before, op.id).Some? then 1 else 0
  }

  /** Durations of the traces that ended, in order. */
  function Durations(ops: seq<Op>): seq<real> {
    if ops == [] then []
    else
      var op, before := ops[|ops| - 1], ops[..|ops| - 1];
      if op.Complete? && RunningSince(before, op.id).Some?
      then Durations(before) + [op.at - RunningSince(before, op.id).value]
      else Durations(before)
  }

  /** How many traces ended with this result. */
  function Ended(ops: seq<Op>, success: bool): nat {
    if ops == [] then 0
    else
      var op, before := ops[|ops| - 1], ops[..|ops| - 1];
      Ended(before, success)
      + if op.Complete? && op.success == success && RunningSince(before, op.id).Some? then 1 else 0
  }

  /** The spans of the trace that is running under this id, the start being the first. */
  function Spans(ops: seq<Op>, id: string): nat {
    if ops == [] then 0
    else
      var before := ops[..|ops| - 1];
      match ops[|ops| - 1]
      case Start(i, _) => if i == id then 1 else Spans(before, id)
      case Span(i) => Spans(before, id) + if i == id && RunningSince(before, id).Some? then 1 else 0
      case Complete(i, _, _) => if i == id then 0 else Spans(before, id)
  }

  lemma {:induction false} LiveMatchesLog(ops: seq<Op>, id: string)
    ensures RunningSince(ops, id) == (if id in Run(ops).live then Some(Run(ops).live[id].started) else None)
    ensures id in Run(ops).live ==> Run(ops).live[id].spans == Spans(ops, id)
  {
    if ops != [] {
      LiveMatchesLog(ops[..|ops| - 1], id);
    }
  }

  /**
   Conservation over every run: each start is active, completed or failed; the active counter
   exceeds the live traces by exactly the restarts of running ids, whose first start is never
   completed; and the average is the exact mean of the ended traces.
   */
  lemma {:induction false} TraceConservation(ops: seq<Op>)
    ensures var s := Run(ops);
      && Starts(ops) == s.active + s.completed + s.failed
      && s.completed == Ended(ops, true) && s.failed == Ended(ops, false)
      && s.active == |s.live| + Restarts(ops)
      && s.completed + s.failed == |Durations(ops)| && IsMean(s.average, Durations(ops))
  {
    if ops != [] {
      var before, op := ops[..|ops| - 1], ops[|ops| - 1];
      var s, r := Run(before), Run(ops);
      TraceConservation(before);
      LiveMatchesLog(before, op.id);
      match op {
        case Start(id, at) =>
          assert r.live.Keys == s.live.Keys + {id};
        case Span(id) =>
          assert r.live.Keys == s.live.Keys;
        case Complete(id, success, at) =>
          if id in s.live {
            assert r.live.Keys == s.live.Keys - {id};
            MeanStep(s.average, Durations(before), at - s.live[id].started);
          }
      }
    }
  }
}
