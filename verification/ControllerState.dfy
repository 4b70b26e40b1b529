/** In-memory controller state: the ring buffer, the per-resource record and the store that owns them. */
module ControllerState {
  import opened Prelude
  import OrderStatistics
  import opened Observations

  /** One resource's in-memory state as a value. A clock that was never set is `None`. */
  datatype CRState = CRState(
    observations: seq<real>,
    rpsPerPod: real,
    lastScaleUp: Option<int>,
    lastScaleDown: Option<int>,
    initialized: bool)

  const FRESH_STATE := CRState([], 0.0, None, None, false)

  class RingBuffer {
    var data: seq<real>
    const cap: nat

    ghost predicate Valid()
      reads this
    {
      |data| <= cap
    }

    constructor (capacity: nat)
      ensures Valid() && cap == capacity && data == []
    {
      cap := capacity;
      data := [];
    }

    method Push(v: real)
      requires Valid() && 1 <= cap
      modifies this
      ensures Valid() && data == Pushed(old(data), cap, v)
    {
      if |data| == cap {
        data := data[1..];
      }
      data := data + [v];
    }

    method SeedN(v: real, n: int)
      requires Valid()
      modifies this
      ensures Valid() && data == Seeded(cap, v, n)
    {
      data := [];
      var count := n;
      if count < 0 {
        count := 0;
      }
      if count > cap {
        count := cap;
      }
      for i := 0 to count
        invariant data == Repeat(v, i)
      {
        data := data + [v];
      }
    }

    method Median() returns (m: real)
      ensures m == OrderStatistics.Median(data)
    {
      var n := |data|;
      if n == 0 {
        return 0.0;
      }
      var sorted := OrderStatistics.Sorted(data);
      if n % 2 == 1 {
        return sorted[n / 2];
      }
      m := (sorted[n / 2 - 1] + sorted[n / 2]) / 2.0;
    }
  }

  class PerCRState {
    const observations: RingBuffer
    var rpsPerPod: real
    var lastScaleUpTime: Option<int>
    var lastScaleDownTime: Option<int>
    var initialized: bool

    constructor (capacity: nat)
      ensures fresh(observations) && observations.cap == capacity
      ensures observations.Valid() && View() == FRESH_STATE
    {
      observations := new RingBuffer(capacity);
      rpsPerPod := 0.0;
      lastScaleUpTime, lastScaleDownTime := None, None;
      initialized := false;
    }

    ghost function View(): CRState
      reads this, observations
    {
      CRState(observations.data, rpsPerPod, lastScaleUpTime, lastScaleDownTime, initialized)
    }
  }

  datatype Key = NamespacedName(ns: string, name: string)

  class StateStore {
    var store: map<Key, PerCRState>

    ghost function Objects(): set<object>
      reads this
    {
      (set k | k in store :: store[k] as object) + (set k | k in store :: store[k].observations as object)
    }

    /** Every record owns its ring buffer, and no two keys share a record. */
    ghost predicate Valid()
      reads this, Objects()
    {
      && (forall k :: k in store ==>
            store[k].observations.Valid() && store[k].observations.cap == RING_BUFFER_CAPACITY)
      && (forall j, k :: j in store && k in store && j != k ==>
            store[j] != store[k] && store[j].observations != store[k].observations)
    }

    /** The stored state of a key, if any. */
    ghost function View(key: Key): Option<CRState>
      reads this, Objects()
    {
      if key in store then Some(store[key].View()) else None
    }

    constructor ()
      ensures Valid() && store == map[]
    {
      store := map[];
    }

    method GetOrCreate(key: Key) returns (st: PerCRState)
      requires Valid()
      modifies this
      ensures Valid() && key in store && store[key] == st
      ensures if key in old(store) then store == old(store)
              else fresh(st) && fresh(st.observations) && store == old(store)[key := st]
      ensures Some(st.View()) == if key in old(store) then old(View(key)) else Some(FRESH_STATE)
      ensures forall k :: k != key ==> View(k) == old(View(k))
    {
      if key in store {
        return store[key];
      }
      st := new PerCRState(RING_BUFFER_CAPACITY);
      store := store[key := st];
    }

    method Delete(key: Key)
      requires Valid()
      modifies this
      ensures Valid() && store == old(store) - {key}
      ensures forall k :: View(k) == if k == key then None else old(View(k))
    {
      store := store - {key};
    }
  }
}
