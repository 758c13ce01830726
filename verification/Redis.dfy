/** A key-value store with expiring keys on a virtual clock: the part of Redis the models use. */
module Redis {
  import opened Prelude

  datatype Slot<+V> = Slot(value: V, expires: Option<int>)

  type Store<V> = map<string, Slot<V>>

  /** EXISTS and GET see a key until its time to live has elapsed. */
  predicate Live<V>(store: Store<V>, now: int, key: string) {
    key in store && (store[key].expires.Some? ==> now < store[key].expires.value)
  }

  function Setex<V>(store: Store<V>, now: int, key: string, ttl: int, value: V): Store<V> {
    store[key := Slot(value, Some(now + ttl))]
  }

  class Server<V> {
    var store: Store<V>
    var now: int

    constructor (now: int)
      ensures store == map[] && this.now == now
    {
      store := map[];
      this.now := now;
    }
  }
}
