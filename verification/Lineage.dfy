/** The causal lineage of event envelopes. */
module Lineage {
  import opened Prelude

  datatype Envelope = Envelope(
    id: string, correlationId: string, causationId: Option<string>,
    traceId: string, parentTraceId: Option<string>, broker: string, body: string)

  function CreateChildEvent(parent: Envelope, freshId: string, body: string): Envelope {
    Envelope(freshId, parent.correlationId, Some(parent.id), parent.traceId, Some(parent.id), parent.broker, body)
  }

  ghost predicate IsRoot(e: Envelope) {
    e.causationId.None?
  }

  /** A log grown by root events and by children of logged events, every id being new. */
  ghost predicate Grown(log: seq<Envelope>) {
    log == [] || (
      var before, e := log[..|log| - 1], log[|log| - 1];
      && Grown(before)
      && (forall i :: 0 <= i < |before| ==> before[i].id != e.id)
      && (IsRoot(e) || exists p, body :: 0 <= p < |before| && e == CreateChildEvent(before[p], e.id, body)))
  }

  ghost predicate SameFlow(a: Envelope, b: Envelope) {
    a.correlationId == b.correlationId && a.traceId == b.traceId && a.broker == b.broker
  }

  /** In a grown log ids are unique and every cause precedes its effect. */
  lemma {:induction false} CausePrecedes(log: seq<Envelope>, i: nat, j: nat)
    requires Grown(log) && i < |log| && j < |log|
    ensures log[i].id == log[j].id ==> i == j
    ensures log[i].causationId == Some(log[j].id) ==> j < i && SameFlow(log[i], log[j])
    ensures log[i].causationId.Some? ==> log[i].parentTraceId == log[i].causationId
    ensures log[i].causationId.Some? ==> exists p :: 0 <= p < i && log[i].causationId == Some(log[p].id)
  {
    var n := |log| - 1;
    if i < n && j < n {
      CausePrecedes(log[..n], i, j);
      assert forall p :: 0 <= p < n ==> log[..n][p] == log[p];
    } else if i < n {
      if log[i].causationId.Some? {
        CausePrecedes(log[..n], i, i);
        var p :| 0 <= p < i && log[..n][i].causationId == Some(log[..n][p].id);
        assert log[p].id == log[..n][p].id && log[p].id != log[n].id;
      }
    } else if !IsRoot(log[n]) {
      var p, body :| 0 <= p < n && log[n] == CreateChildEvent(log[..n][p], log[n].id, body);
      if j < n {
        CausePrecedes(log[..n], p, j);
      }
      assert log[p] == log[..n][p];
    }
  }

  /** Consecutive causes, from an effect back. */
  ghost predicate IsChain(log: seq<Envelope>, path: seq<nat>) {
    && path != [] && (forall k :: 0 <= k < |path| ==> path[k] < |log|)
    && forall k :: 0 < k < |path| ==> log[path[k - 1]].causationId == Some(log[path[k]].id)
  }

  /** No causation chain is longer than the log, and all of it belongs to one flow. */
  lemma {:induction false} ChainsAreFinite(log: seq<Envelope>, path: seq<nat>)
    requires Grown(log) && IsChain(log, path)
    ensures |path| <= path[0] + 1 <= |log|
    ensures forall k :: 0 <= k < |path| ==> SameFlow(log[path[0]], log[path[k]])
  {
    if |path| > 1 {
      CausePrecedes(log, path[0], path[1]);
      assert log[path[0]].causationId == Some(log[path[1]].id);
      ChainsAreFinite(log, path[1..]);
      forall k | 0 <= k < |path| ensures SameFlow(log[path[0]], log[path[k]]) {
        if k > 0 {
          assert path[1..][k - 1] == path[k];
        }
      }
    }
  }

  /** Every event's chain ends at a root. */
  lemma {:induction false} ChainReachesRoot(log: seq<Envelope>, i: nat) returns (path: seq<nat>)
    requires Grown(log) && i < |log|
    ensures IsChain(log, path) && path[0] == i && IsRoot(log[path[|path| - 1]])
    decreases i
  {
    path := [i];
    if !IsRoot(log[i]) {
      CausePrecedes(log, i, i);
      var p :| 0 <= p < i && log[i].causationId == Some(log[p].id);
      var rest := ChainReachesRoot(log, p);
      path := [i] + rest;
      forall k | 0 < k < |path| ensures log[path[k - 1]].causationId == Some(log[path[k]].id) {
        if k > 1 {
          assert path[k - 1] == rest[k - 2] && path[k] == rest[k - 1];
        }
      }
    }
  }
}
