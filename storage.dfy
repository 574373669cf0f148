/** The in-memory stores the transaction builder and the block listener
    depend on: a per-address nonce counter, an idempotency-keyed transaction
    store and a set of watched addresses. Each is a class over one map or set
    field that its methods update in place. None of them can fail: every
    operation reports `Pass`. */
module Storage {
  import opened Models

  /** The error a store may report (the in-memory stores never do). */
  type StoreError = string

  /** The nonce counter of `address` in `nonces`; an address never seen
      counts from 0. */
  function Counter(nonces: map<string, nat>, address: string): nat {
    if address in nonces then nonces[address] else 0
  }

  /** Per-address nonce counters. */
  class MemoryNonceStore {
    var nonces: map<string, nat>

    constructor ()
      ensures nonces == map[]
    {
      nonces := map[];
    }

    /** The counter of `address`. */
    function Current(address: string): nat
      reads this
    {
      Counter(nonces, address)
    }

    /** Returns the counter of `address` and leaves it one greater. */
    method GetAndIncrement(address: string) returns (n: nat, err: Outcome<StoreError>)
      modifies this
      ensures n == old(Current(address))
      ensures Current(address) == n + 1
      ensures forall a :: a != address ==> Current(a) == old(Current(a))
      ensures nonces == old(nonces)[address := n + 1]
      ensures err == Pass
    {
      n := if address in nonces then nonces[address] else 0;
      nonces := nonces[address := n + 1];
      err := Pass;
    }
  }

  /** Draws `count` nonces for one address in a row: they are the old counter,
      the old counter plus one, and so on, and the counter ends `count`
      higher. */
  method ConsecutiveNonces(store: MemoryNonceStore, address: string, count: nat)
    returns (drawn: seq<nat>)
    modifies store
    ensures |drawn| == count
    ensures forall i :: 0 <= i < count ==> drawn[i] == old(store.Current(address)) + i
    ensures store.Current(address) == old(store.Current(address)) + count
  {
    drawn := [];
    while |drawn| < count
      invariant |drawn| <= count
      invariant forall i :: 0 <= i < |drawn| ==> drawn[i] == old(store.Current(address)) + i
      invariant store.Current(address) == old(store.Current(address)) + |drawn|
    {
      var n, _ := store.GetAndIncrement(address);
      drawn := drawn + [n];
    }
  }

  /** Transactions stored under their idempotency key. */
  class MemoryTxStore {
    var txs: map<string, Transaction>

    constructor ()
      ensures txs == map[]
    {
      txs := map[];
    }

    /** The transaction stored under `key`, or `None` (Go's nil) if `key`
        was never stored. */
    method Get(key: string) returns (r: Option<Transaction>, err: Outcome<StoreError>)
      ensures r.Some? <==> key in txs
      ensures r.Some? ==> r.value == txs[key]
      ensures err == Pass
    {
      r := if key in txs then Some(txs[key]) else None;
      err := Pass;
    }

    /** Stores `tx` under `key`, overwriting what was there; other keys keep
        their transactions. */
    method Put(key: string, tx: Transaction) returns (err: Outcome<StoreError>)
      modifies this
      ensures txs == old(txs)[key := tx]
      ensures err == Pass
    {
      txs := txs[key := tx];
      err := Pass;
    }
  }

  /** The set of watched addresses. */
  class MemoryWatchStore {
    var addrs: set<string>

    constructor ()
      ensures addrs == {}
    {
      addrs := {};
    }

    /** Adds `address`; adding an address twice changes nothing more. */
    method Add(address: string) returns (err: Outcome<StoreError>)
      modifies this
      ensures addrs == old(addrs) + {address}
      ensures err == Pass
    {
      addrs := addrs + {address};
      err := Pass;
    }

    /** Removes `address`; removing an absent address changes nothing. */
    method Remove(address: string) returns (err: Outcome<StoreError>)
      modifies this
      ensures addrs == old(addrs) - {address}
      ensures err == Pass
    {
      addrs := addrs - {address};
      err := Pass;
    }

    /** Lists every watched address exactly once, in no particular order. */
    method List() returns (list: seq<string>, err: Outcome<StoreError>)
      ensures forall a :: a in list <==> a in addrs
      ensures Distinct(list)
      ensures |list| == |addrs|
      ensures err == Pass
    {
      list := [];
      var rest := addrs;
      while rest != {}
        invariant rest <= addrs
        invariant forall a :: a in list <==> a in addrs && a !in rest
        invariant Distinct(list)
        invariant |list| + |rest| == |addrs|
        decreases |rest|
      {
        var a :| a in rest;
        list := list + [a];
        rest := rest - {a};
      }
      err := Pass;
    }

    /** Whether `address` is watched. */
    method Contains(address: string) returns (found: bool, err: Outcome<StoreError>)
      ensures found <==> address in addrs
      ensures err == Pass
    {
      found := address in addrs;
      err := Pass;
    }
  }

  /** A transaction put under `key` is what a later Get of `key` returns,
      and a Put under another key does not change that. */
  method PutThenGet(store: MemoryTxStore, key: string, tx: Transaction, other: string, tx2: Transaction)
    returns (r: Option<Transaction>)
    requires other != key
    modifies store
    ensures r == Some(tx)
    ensures store.txs == old(store.txs)[key := tx][other := tx2]
  {
    var _ := store.Put(key, tx);
    var _ := store.Put(other, tx2);
    var getErr;
    r, getErr := store.Get(key);
  }

  /** An added address is watched until it is removed, and adding it twice
      is adding it once. */
  method WatchThenUnwatch(store: MemoryWatchStore, address: string)
    returns (afterAdd: bool, afterRemove: bool)
    modifies store
    ensures afterAdd && !afterRemove
    ensures store.addrs == old(store.addrs) - {address}
  {
    var _ := store.Add(address);
    var _ := store.Add(address);
    var err;
    afterAdd, err := store.Contains(address);
    var _ := store.Remove(address);
    afterRemove, err := store.Contains(address);
  }
}
