/** Event deduplication by expiring Redis marks. */
module Deduplication {
  import opened Prelude
  import opened Redis

  const KEY_PREFIX := "event_processed:"

  function KeyOf(id: string): string {
    KEY_PREFIX + id
  }

  lemma KeyOfInjective(a: string, b: string)
    requires KeyOf(a) == KeyOf(b)
    ensures a == b
  {
    assert KeyOf(a)[|KEY_PREFIX|..] == a && KeyOf(b)[|KEY_PREFIX|..] == b;
  }

  /** Marks always expire. */
  predicate Expiring(store: Store<int>) {
    forall k :: k in store ==> store[k].expires.Some?
  }

  /** The verdict of a check; a failed Redis call (`!up`) lets the event through. */
  predicate Seen(store: Store<int>, now: int, id: string, up: bool) {
    up && Live(store, now, KeyOf(id))
  }

  /** The store after a mark; SETEX is refused without a positive time to live. */
  function Mark(store: Store<int>, now: int, ttl: int, id: string, up: bool): Store<int> {
    if up && ttl > 0 then Setex(store, now, KeyOf(id), ttl, now) else store
  }

  /** When the mark of an id expires, if it has one. */
  function MarkedUntil(store: Store<int>, id: string): Option<int> {
    if KeyOf(id) in store then store[KeyOf(id)].expires else None
  }

  /** A mark changes the expiry of its own id only. */
  lemma MarkEffect(store: Store<int>, now: int, ttl: int, marked: string, up: bool, id: string)
    ensures MarkedUntil(Mark(store, now, ttl, marked, up), id) ==
            if up && ttl > 0 && marked == id then Some(now + ttl) else MarkedUntil(store, id)
    ensures Expiring(store) ==> Expiring(Mark(store, now, ttl, marked, up))
  {
    if KeyOf(marked) == KeyOf(id) {
      KeyOfInjective(marked, id);
    }
  }

  /** The deduplicator; `up` says whether the Redis call of an operation succeeds. */
  class EventDeduplicator {
    const redis: Server<int>
    const ttl: int
    var totalChecks: nat
    var duplicatesFound: nat
    var markedProcessed: nat
    var errors: nat

    constructor (redis: Server<int>, ttl: int)
      ensures this.redis == redis && this.ttl == ttl
      ensures totalChecks == duplicatesFound == markedProcessed == errors == 0
    {
      this.redis, this.ttl := redis, ttl;
      totalChecks, duplicatesFound, markedProcessed, errors := 0, 0, 0, 0;
    }

    method IsDuplicate(id: string, up: bool) returns (dup: bool)
      modifies this
      ensures dup == Seen(redis.store, redis.now, id, up)
      ensures totalChecks == old(totalChecks) + 1 && markedProcessed == old(markedProcessed)
      ensures duplicatesFound == old(duplicatesFound) + (if dup then 1 else 0)
      ensures errors == old(errors) + (if up then 0 else 1)
    {
      totalChecks := totalChecks + 1;
      if !up {
        errors := errors + 1;
        return false;
      }
      var found := Live(redis.store, redis.now, KEY_PREFIX + id);
      if found {
        duplicatesFound := duplicatesFound + 1;
        return true;
      }
      return false;
    }

    method MarkProcessed(id: string, up: bool)
      modifies this, redis`store
      ensures redis.store == Mark(old(redis.store), redis.now, ttl, id, up)
      ensures markedProcessed == old(markedProcessed) + 1
      ensures totalChecks == old(totalChecks) && duplicatesFound == old(duplicatesFound)
      ensures errors == old(errors) + (if up && ttl > 0 then 0 else 1)
    {
      markedProcessed := markedProcessed + 1;
      if up && ttl > 0 {
        redis.store := Setex(redis.store, redis.now, KEY_PREFIX + id, ttl, redis.now);
      } else {
        errors := errors + 1;
      }
    }
  }
}
