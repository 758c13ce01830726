/**
 The idempotence cache of the paper-trading service: a set of keys beside a queue that drops its oldest
 key as soon as it is full, against a reference that only keeps the log of admitted keys.
 */
module Idempotence {
  import opened Prelude

  /** The queue's capacity; it is never left full, so one key less is remembered. */
  const MAXLEN := 2000
  const MEMORY := MAXLEN - 1

  datatype State = State(keys: set<string>, queue: seq<string>)

  function Step(s: State, key: string): State {
    if key in s.keys then s
    else
      var queue := s.queue + [key];
      if |queue| == MAXLEN then State((s.keys + {key}) - {queue[0]}, queue[1..])
      else State(s.keys + {key}, queue)
  }

  function Run(keys: seq<string>): State {
    if keys == [] then State({}, []) else Step(Run(keys[..|keys| - 1]), keys[|keys| - 1])
  }

  class SeenKeys {
    var seenKeys: set<string>
    var seenQueue: seq<string>

    ghost function Abs(): State
      reads this
    {
      State(seenKeys, seenQueue)
    }

    constructor ()
      ensures Abs() == Run([])
    {
      seenKeys, seenQueue := {}, [];
    }

    /** Whether the signal with this key is to be handled; a repeat is ignored. */
    method Admit(key: string) returns (admitted: bool)
      modifies this
      ensures admitted <==> key !in old(seenKeys)
      ensures Abs() == Step(old(Abs()), key)
    {
      if key in seenKeys {
        return false;
      }
      seenKeys := seenKeys + {key};
      seenQueue := seenQueue + [key];
      if |seenQueue| == MAXLEN {
        var oldest := seenQueue[0];
        seenQueue := seenQueue[1..];
        seenKeys := seenKeys - {oldest};
      }
      return true;
    }
  }

  // The reference: the log of admitted keys alone.

  predicate Remembered(log: seq<string>, key: string) {
    key in LastN(MEMORY, log)
  }

  /** The keys a stream gets admitted: those that are not among the last 1999 admitted before them. */
  function Log(keys: seq<string>): seq<string> {
    if keys == [] then []
    else
      var log, key := Log(keys[..|keys| - 1]), keys[|keys| - 1];
      if Remembered(log, key) then log else log + [key]
  }

  ghost predicate Distinct(s: seq<string>) {
    forall i, j :: 0 <= i < j < |s| ==> s[i] != s[j]
  }

  ghost predicate Matches(s: State, log: seq<string>) {
    && s.queue == LastN(MEMORY, log) && Distinct(s.queue)
    && forall k :: k in s.keys <==> k in s.queue
  }

  lemma StepMatches(s: State, log: seq<string>, key: string)
    requires Matches(s, log)
    ensures key in s.keys <==> Remembered(log, key)
    ensures Matches(Step(s, key), if Remembered(log, key) then log else log + [key])
  {
    if key !in s.keys {
      var queue := s.queue + [key];
      LastNAppend(MEMORY, log, key);
      assert LastN(MEMORY, queue) == if |queue| == MAXLEN then queue[1..] else queue;
      assert forall k :: k in queue <==> k in s.keys || k == key;
      if |queue| == MAXLEN {
        forall k ensures k in queue[1..] <==> k in queue && k != queue[0] {
          assert k in queue[1..] ==> exists i :: 1 <= i < |queue| && queue[i] == k;
        }
      }
    }
  }

  /** Exactly which signals are ignored, over every stream: those whose key is among the last 1999
      admitted ones. */
  lemma {:induction false} StateMatchesLog(keys: seq<string>)
    ensures Matches(Run(keys), Log(keys))
    ensures forall k :: k in Run(keys).keys <==> k in LastN(1999, Log(keys))
  {
    if keys != [] {
      StateMatchesLog(keys[..|keys| - 1]);
      StepMatches(Run(keys[..|keys| - 1]), Log(keys[..|keys| - 1]), keys[|keys| - 1]);
    }
  }

  /** A key is admitted again only after 1999 other keys were admitted in between. */
  lemma {:induction false} RepeatsSpaced(keys: seq<string>, i: nat, j: nat)
    requires i < j < |Log(keys)| && Log(keys)[i] == Log(keys)[j]
    ensures j - i >= 2000
  {
    var log := Log(keys[..|keys| - 1]);
    if j < |log| {
      RepeatsSpaced(keys[..|keys| - 1], i, j);
    } else {
      assert j == |log| && !Remembered(log, Log(keys)[j]);
      RecentRemembered(log, i);
    }
  }

  lemma RecentRemembered(log: seq<string>, i: nat)
    requires i < |log|
    ensures |log| - i <= MEMORY ==> Remembered(log, log[i])
  {
    var kept := LastN(MEMORY, log);
    if |log| - i <= MEMORY {
      assert kept[i - (|log| - |kept|)] == log[i];
    }
  }
}
