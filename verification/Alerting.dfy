/**
 The alert manager: suppression of repeated alerts by a cache of last delivery times, a truncated
 history, and counters, against a reference that only keeps the log of delivered alerts.
 */
module Alerting {
  import opened Prelude

  datatype Alert = Alert(component: string, category: string, title: string, at: int, suppressMinutes: int,
                         message: string)

  /** What becomes of an alert on one channel. */
  datatype Channel = Unsupported | Delivers | Refuses | Raises

  datatype Call = Call(alert: Alert, channels: seq<Channel>)

  const HISTORY := 1000
  const MINUTE := 60 * SECOND

  function SuppressionKey(a: Alert): string {
    a.component + ":" + a.category + ":" + a.title
  }

  datatype State = State(
    cache: map<string, int>, history: seq<Alert>, sent: nat, suppressed: nat, failed: nat, lastAlert: Option<int>)

  const INITIAL := State(map[], [], 0, 0, 0, None)

  predicate IsSuppressed(cache: map<string, int>, a: Alert) {
    SuppressionKey(a) in cache && a.at - cache[SuppressionKey(a)] < a.suppressMinutes * MINUTE
  }

  function Step(s: State, c: Call): State {
    if IsSuppressed(s.cache, c.alert) then s.(suppressed := s.suppressed + 1)
    else if Delivers in c.channels then
      s.(sent := s.sent + 1,
         lastAlert := Some(c.alert.at),
         history := LastN(HISTORY, s.history + [c.alert]),
         cache := s.cache[SuppressionKey(c.alert) := c.alert.at])
    else s.(failed := s.failed + 1)
  }

  function Run(calls: seq<Call>): State {
    if calls == [] then INITIAL else Step(Run(calls[..|calls| - 1]), calls[|calls| - 1])
  }

  class AlertManager {
    var suppressedAlerts: map<string, int>
    var alertHistory: seq<Alert>
    var sent: nat
    var suppressed: nat
    var failed: nat
    var lastAlertTime: Option<int>

    ghost function Abs(): State
      reads this
    {
      State(suppressedAlerts, alertHistory, sent, suppressed, failed, lastAlertTime)
    }

    constructor ()
      ensures Abs() == INITIAL
    {
      suppressedAlerts, alertHistory, sent, suppressed, failed, lastAlertTime := map[], [], 0, 0, 0, None;
    }

    method SendAlertObject(a: Alert, channels: seq<Channel>) returns (delivered: bool)
      modifies this
      ensures Abs() == Step(old(Abs()), Call(a, channels))
      ensures delivered <==> !IsSuppressed(old(suppressedAlerts), a) && Delivers in channels
    {
      if IsSuppressed(suppressedAlerts, a) {
        suppressed := suppressed + 1;
        return false;
      }
      var successCount := 0;
      for i := 0 to |channels|
        invariant 0 <= successCount && (successCount > 0 <==> Delivers in channels[..i])
        invariant Abs() == old(Abs())
      {
        if channels[i] == Delivers {
          successCount := successCount + 1;
        }
      }
      assert channels[..|channels|] == channels;
      if successCount > 0 {
        sent := sent + 1;
        lastAlertTime := Some(a.at);
        alertHistory := alertHistory + [a];
        suppressedAlerts := suppressedAlerts[a.component + ":" + a.category + ":" + a.title := a.at];
        if |alertHistory| > HISTORY {
          alertHistory := alertHistory[|alertHistory| - HISTORY..];
        }
        return true;
      } else {
        failed := failed + 1;
        return false;
      }
    }
  }

  // The reference: the log of delivered alerts alone.

  /** When the last alert with this key was delivered. */
  function LastAt(log: seq<Alert>, key: string): Option<int> {
    if log == [] then None
    else if SuppressionKey(log[|log| - 1]) == key then Some(log[|log| - 1].at)
    else LastAt(log[..|log| - 1], key)
  }

  predicate TooSoon(log: seq<Alert>, a: Alert) {
    var last := LastAt(log, SuppressionKey(a));
    last.Some? && a.at - last.value < a.suppressMinutes * MINUTE
  }

  /** The alerts a run delivers: those some channel takes and that do not come too soon after the
      last delivery with their key. Failed and suppressed alerts leave no trace. */
  function Log(calls: seq<Call>): seq<Alert> {
    if calls == [] then []
    else
      var log, c := Log(calls[..|calls| - 1]), calls[|calls| - 1];
      if !TooSoon(log, c.alert) && Delivers in c.channels then log + [c.alert] else log
  }

  ghost predicate CacheMatches(cache: map<string, int>, log: seq<Alert>) {
    forall k :: LastAt(log, k) == if k in cache then Some(cache[k]) else None
  }

  lemma CacheAppend(cache: map<string, int>, log: seq<Alert>, a: Alert)
    requires CacheMatches(cache, log)
    ensures CacheMatches(cache[SuppressionKey(a) := a.at], log + [a])
  {
    assert (log + [a])[..|log|] == log;
  }

  /** Everything the manager stores, derived from the delivered log. */
  ghost predicate Matches(s: State, log: seq<Alert>) {
    && CacheMatches(s.cache, log)
    && s.history == LastN(HISTORY, log)
    && s.sent == |log|
    && s.lastAlert == if log == [] then None else Some(log[|log| - 1].at)
  }

  lemma StepMatches(s: State, log: seq<Alert>, c: Call)
    requires Matches(s, log)
    ensures IsSuppressed(s.cache, c.alert) <==> TooSoon(log, c.alert)
    ensures Matches(Step(s, c), if !TooSoon(log, c.alert) && Delivers in c.channels then log + [c.alert] else log)
  {
    assert LastAt(log, SuppressionKey(c.alert)).Some? <==> SuppressionKey(c.alert) in s.cache;
    CacheAppend(s.cache, log, c.alert);
    LastNAppend(HISTORY, log, c.alert);
  }

  /** The manager's whole state is a function of the delivered log, and every call is counted once. */
  lemma {:induction false} StateMatchesLog(calls: seq<Call>)
    ensures Matches(Run(calls), Log(calls))
    ensures Run(calls).sent + Run(calls).suppressed + Run(calls).failed == |calls|
  {
    if calls != [] {
      StateMatchesLog(calls[..|calls| - 1]);
      StepMatches(Run(calls[..|calls| - 1]), Log(calls[..|calls| - 1]), calls[|calls| - 1]);
    }
  }

  /** Every delivered alert keeps its own distance from the previous delivery with its key. */
  lemma {:induction false} Spacing(calls: seq<Call>, j: nat)
    requires j < |Log(calls)|
    ensures !TooSoon(Log(calls)[..j], Log(calls)[j])
  {
    var prefix := calls[..|calls| - 1];
    if j < |Log(prefix)| {
      Spacing(prefix, j);
      assert Log(calls)[..j] == Log(prefix)[..j];
    } else {
      assert Log(calls)[..j] == Log(prefix);
    }
  }

  lemma {:induction false} LastAtIsLatest(log: seq<Alert>, i: nat)
    requires i < |log| && forall p, q :: 0 <= p < q < |log| ==> log[p].at <= log[q].at
    ensures LastAt(log, SuppressionKey(log[i])).Some? && LastAt(log, SuppressionKey(log[i])).value >= log[i].at
  {
    var n := |log| - 1;
    if SuppressionKey(log[n]) != SuppressionKey(log[i]) {
      assert log[..n][i] == log[i];
      LastAtIsLatest(log[..n], i);
    }
  }

  /** With a clock that never runs back, any two deliveries with one key are at least the later
      one's suppression time apart. */
  lemma PairwiseSpacing(calls: seq<Call>, i: nat, j: nat)
    requires var log := Log(calls);
      && i < j < |log| && SuppressionKey(log[i]) == SuppressionKey(log[j])
      && forall p, q :: 0 <= p < q < |log| ==> log[p].at <= log[q].at
    ensures Log(calls)[j].at - Log(calls)[i].at >= Log(calls)[j].suppressMinutes * MINUTE
  {
    Spacing(calls, j);
    LastAtIsLatest(Log(calls)[..j], i);
  }

  // Recent alerts.

  /** The alerts newer than `cutoff`, in order. */
  function Newer(alerts: seq<Alert>, cutoff: int): seq<Alert> {
    if alerts == [] then []
    else
      var n := |alerts| - 1;
      if alerts[n].at > cutoff then Newer(alerts[..n], cutoff) + [alerts[n]] else Newer(alerts[..n], cutoff)
  }

  function GetRecentAlerts(s: State, now: int, minutes: int): seq<Alert> {
    Newer(s.history, now - minutes * MINUTE)
  }

  lemma {:induction false} NewerConcat(a: seq<Alert>, b: seq<Alert>, cutoff: int)
    ensures Newer(a + b, cutoff) == Newer(a, cutoff) + Newer(b, cutoff)
  {
    if b == [] {
      assert a + b == a;
    } else {
      var n := |b| - 1;
      NewerConcat(a, b[..n], cutoff);
      assert (a + b)[..|a + b| - 1] == a + b[..n];
    }
  }

  lemma {:induction false} NewerLength(a: seq<Alert>, cutoff: int)
    ensures |Newer(a, cutoff)| <= |a|
    ensures |Newer(a, cutoff)| == |a| <==> AllNewer(a, cutoff)
    ensures Newer(a, cutoff) == [] <==> AllOlder(a, cutoff)
  {
    if a != [] {
      var n := |a| - 1;
      NewerLength(a[..n], cutoff);
      assert AllNewer(a, cutoff) <==> AllNewer(a[..n], cutoff) && a[n].at > cutoff;
      assert AllOlder(a, cutoff) <==> AllOlder(a[..n], cutoff) && a[n].at <= cutoff;
    }
  }

  /** The part of the log the history no longer holds. */
  function Dropped(log: seq<Alert>): seq<Alert> {
    log[..|log| - |LastN(HISTORY, log)|]
  }

  ghost predicate AllOlder(alerts: seq<Alert>, cutoff: int) {
    forall i :: 0 <= i < |alerts| ==> alerts[i].at <= cutoff
  }

  ghost predicate AllNewer(alerts: seq<Alert>, cutoff: int) {
    forall i :: 0 <= i < |alerts| ==> alerts[i].at > cutoff
  }

  lemma NewerOfLastN(log: seq<Alert>, cutoff: int)
    ensures Newer(LastN(HISTORY, log), cutoff) == LastN(HISTORY, Newer(log, cutoff)) <==>
            AllOlder(Dropped(log), cutoff) || AllNewer(LastN(HISTORY, log), cutoff)
  {
    var gone, kept := Dropped(log), LastN(HISTORY, log);
    NewerLength(gone, cutoff);
    NewerLength(kept, cutoff);
    assert Newer(log, cutoff) == Newer(gone, cutoff) + Newer(kept, cutoff) by {
      assert log == gone + kept;
      NewerConcat(gone, kept, cutoff);
    }
    LastNOfConcat(HISTORY, Newer(gone, cutoff), Newer(kept, cutoff));
  }

  /** When the truncated history answers like the full log cut to its last 1000 hits: exactly when no
      dropped alert is recent, or everything kept is. */
  lemma {:induction false} RecentAlertsExact(calls: seq<Call>, now: int, minutes: int)
    ensures var log, cutoff := Log(calls), now - minutes * MINUTE;
      GetRecentAlerts(Run(calls), now, minutes) == LastN(HISTORY, Newer(log, cutoff)) <==>
      AllOlder(Dropped(log), cutoff) || AllNewer(LastN(HISTORY, log), cutoff)
  {
    assert Run(calls).history == LastN(HISTORY, Log(calls)) by { StateMatchesLog(calls); }
    NewerOfLastN(Log(calls), now - minutes * MINUTE);
  }

  lemma {:induction false} LastNOfConcat<T>(n: nat, lost: seq<T>, hits: seq<T>)
    requires |hits| <= n
    ensures LastN(n, lost + hits) == hits <==> lost == [] || |hits| == n
  {
    if lost == [] {
      assert lost + hits == hits;
    }
  }

  /** With a clock that never runs back it always does. */
  lemma RecentAlertsFaithful(calls: seq<Call>, now: int, minutes: int)
    requires forall p, q :: 0 <= p < q < |Log(calls)| ==> Log(calls)[p].at <= Log(calls)[q].at
    ensures GetRecentAlerts(Run(calls), now, minutes) == LastN(HISTORY, Newer(Log(calls), now - minutes * MINUTE))
  {
    RecentAlertsExact(calls, now, minutes);
  }

  // The same run told by what the alerts say, without keys.

  predicate Same(a: Alert, b: Alert) {
    a.component == b.component && a.category == b.category && a.title == b.title
  }

  predicate Plain(a: Alert) {
    ':' !in a.component && ':' !in a.category
  }

  /** Keys agree exactly for alerts about the same thing, if component and category have no separator. */
  lemma KeysAgreeIff(a: Alert, b: Alert)
    requires Plain(a) && Plain(b)
    ensures SuppressionKey(a) == SuppressionKey(b) <==> Same(a, b)
  {
    if SuppressionKey(a) == SuppressionKey(b) {
      var rest, rest' := a.category + ":" + a.title, b.category + ":" + b.title;
      assert SuppressionKey(a) == a.component + ":" + rest && SuppressionKey(b) == b.component + ":" + rest';
      SplitAtFirst(a.component, rest, b.component, rest', ':');
      SplitAtFirst(a.category, a.title, b.category, b.title, ':');
    }
  }

  /** With a separator in the component they need not. */
  lemma KeysCollide(a: Alert)
    ensures var b := a.(component := a.component + ":" + a.category);
      var c := a.(title := a.category + ":" + a.title);
      SuppressionKey(b) == SuppressionKey(c) && !Same(b, c)
  {
    assert |a.component + ":" + a.category| > |a.component|;
    assert a.component + ":" + a.category + ":" + a.category + ":" + a.title ==
           a.component + ":" + a.category + ":" + (a.category + ":" + a.title);
  }

  /** When an alert about the same thing was last delivered. */
  function LastSame(log: seq<Alert>, a: Alert): Option<int> {
    if log == [] then None
    else if Same(log[|log| - 1], a) then Some(log[|log| - 1].at)
    else LastSame(log[..|log| - 1], a)
  }

  /** It was less than the alert's own suppression time ago; clock readings are in microseconds. */
  predicate Repeats(log: seq<Alert>, a: Alert) {
    var last := LastSame(log, a);
    last.Some? && a.at - last.value < a.suppressMinutes * 60_000_000
  }

  /** What a stream of alerts comes to: those delivered, and how many were suppressed or failed. */
  datatype Outcome = Outcome(delivered: seq<Alert>, suppressed: nat, failed: nat)

  function OutcomeOf(calls: seq<Call>): Outcome {
    if calls == [] then Outcome([], 0, 0)
    else OutcomeNext(OutcomeOf(calls[..|calls| - 1]), calls[|calls| - 1])
  }

  function OutcomeNext(o: Outcome, c: Call): Outcome {
    if Repeats(o.delivered, c.alert) then o.(suppressed := o.suppressed + 1)
    else if exists i :: 0 <= i < |c.channels| && c.channels[i].Delivers? then o.(delivered := o.delivered + [c.alert])
    else o.(failed := o.failed + 1)
  }

  ghost predicate AllPlain(calls: seq<Call>) {
    forall i :: 0 <= i < |calls| ==> Plain(calls[i].alert)
  }

  ghost predicate PlainLog(log: seq<Alert>) {
    forall i :: 0 <= i < |log| ==> Plain(log[i])
  }

  lemma {:induction false} LastSameIsLastAt(log: seq<Alert>, a: Alert)
    requires PlainLog(log) && Plain(a)
    ensures LastSame(log, a) == LastAt(log, SuppressionKey(a))
  {
    if log != [] {
      KeysAgreeIff(log[|log| - 1], a);
      LastSameIsLastAt(log[..|log| - 1], a);
    }
  }

  /** One call moves the outcome like the manager's log and counters. */
  lemma {:induction false} OutcomeStep(s: State, log: seq<Alert>, o: Outcome, c: Call)
    requires Matches(s, log) && PlainLog(log) && Plain(c.alert) && o == Outcome(log, s.suppressed, s.failed)
    ensures var r := Step(s, c);
      OutcomeNext(o, c) ==
      Outcome(if !TooSoon(log, c.alert) && Delivers in c.channels then log + [c.alert] else log, r.suppressed, r.failed)
  {
    StepMatches(s, log, c);
    LastSameIsLastAt(log, c.alert);
  }

  /** The manager does what the alerts say: over every stream, an alert that some channel takes is suppressed
      exactly when one about the same thing was delivered too recently, and all is counted and kept. */
  lemma {:induction false} OutcomesAre(calls: seq<Call>)
    requires AllPlain(calls)
    ensures var s, o := Run(calls), OutcomeOf(calls);
      && Log(calls) == o.delivered && PlainLog(o.delivered)
      && s.sent == |o.delivered| && s.suppressed == o.suppressed && s.failed == o.failed
      && s.history == LastN(1000, o.delivered)
  {
    StateMatchesLog(calls);
    if calls != [] {
      var before, c := calls[..|calls| - 1], calls[|calls| - 1];
      OutcomesAre(before);
      StateMatchesLog(before);
      OutcomeStep(Run(before), Log(before), OutcomeOf(before), c);
    }
  }
}
