/** The polling block listener and the multi-network manager, as classes
    whose methods update the listener's maps and event stream in place. Each
    method is proved to do exactly what the matching function of
    `ListenerModel` says. */
module Listener {
  import opened Models
  import opened ListenerModel
  import Storage

  /** A listener for one network that polls a block fetcher. The event
      channel is the append-only sequence `events`. */
  class PollingListener {
    const network: Network
    const depth: nat
    const store: Storage.MemoryWatchStore
    var lastBlock: nat
    var blockHashes: map<nat, string>
    var pendingEvents: map<nat, seq<BlockEvent>>
    var events: seq<BlockEvent>

    /** The listener's configuration as the model sees it. */
    function Cfg(): Config {
      Config(network, depth)
    }

    /** The listener's state as the model sees it. */
    ghost function Snapshot(): State
      reads this
    {
      State(lastBlock, blockHashes, pendingEvents, events)
    }

    /** NewPollingListener: a configured depth of 0 is replaced by the
        default; the maps and the stream start empty. */
    constructor (network: Network, store: Storage.MemoryWatchStore, confirmationDepth: nat)
      ensures this.network == network && this.store == store
      ensures depth == EffectiveDepth(confirmationDepth)
      ensures Snapshot() == Initial
    {
      this.network := network;
      this.store := store;
      this.depth := if confirmationDepth == 0 then DefaultConfirmationDepth else confirmationDepth;
      lastBlock := 0;
      blockHashes := map[];
      pendingEvents := map[];
      events := [];
    }

    /** Adds `address` to the watch store and returns the store's result. */
    method WatchAddress(address: string) returns (err: Outcome<Storage.StoreError>)
      modifies store
      ensures store.addrs == old(store.addrs) + {address}
      ensures err == Pass
    {
      err := store.Add(address);
    }

    /** Removes `address` from the watch store and returns the store's
        result. */
    method UnwatchAddress(address: string) returns (err: Outcome<Storage.StoreError>)
      modifies store
      ensures store.addrs == old(store.addrs) - {address}
      ensures err == Pass
    {
      err := store.Remove(address);
    }

    /** The highest block number with a stored hash (0 if there is none). */
    method MaxStoredKey() returns (maxStored: nat)
      ensures maxStored == MaxKey(blockHashes.Keys)
    {
      maxStored := 0;
      var rest := blockHashes.Keys;
      while rest != {}
        invariant rest <= blockHashes.Keys
        invariant forall k :: k in blockHashes && k !in rest ==> k <= maxStored
        invariant maxStored == 0 || (maxStored in blockHashes && maxStored !in rest)
        decreases |rest|
      {
        var bn :| bn in rest;
        if bn > maxStored {
          maxStored := bn;
        }
        rest := rest - {bn};
      }
      ghost var m := MaxKey(blockHashes.Keys);
      assert blockHashes.Keys != {} ==> m <= maxStored && maxStored <= m;
    }

    /** Sends every event of `evs` on the channel, retracted, in order. */
    method EmitReorged(evs: seq<BlockEvent>)
      modifies this`events
      ensures events == old(events) + AllReorged(evs)
    {
      var i := 0;
      while i < |evs|
        invariant 0 <= i <= |evs|
        invariant events == old(events) + AllReorged(evs[..i])
      {
        var ev := evs[i].(reorged := true, confirmed := false);
        events := events + [ev];
        i := i + 1;
        assert evs[..i][..i - 1] == evs[..i - 1];
      }
      assert evs[..|evs|] == evs;
    }

    /** Sends every event of `evs` on the channel, confirmed, in order. */
    method EmitConfirmed(evs: seq<BlockEvent>)
      modifies this`events
      ensures events == old(events) + AllConfirmed(evs)
    {
      var i := 0;
      while i < |evs|
        invariant 0 <= i <= |evs|
        invariant events == old(events) + AllConfirmed(evs[..i])
      {
        var ev := evs[i].(confirmed := true);
        events := events + [ev];
        i := i + 1;
        assert evs[..i][..i - 1] == evs[..i - 1];
      }
      assert evs[..|evs|] == evs;
    }

    /** handleReorg: emits every pending event of blocks reorgBlock..upTo
        reorged, in ascending block order, and deletes those blocks' ledger
        entries and hashes. */
    method HandleReorg(reorgBlock: nat, upTo: nat)
      modifies this
      ensures Snapshot() == RetractRange(old(Snapshot()), reorgBlock, upTo + 1)
    {
      var blockNum := reorgBlock;
      while blockNum <= upTo
        invariant reorgBlock <= blockNum
        invariant blockNum <= upTo + 1 || blockNum == reorgBlock
        invariant Snapshot() == RetractRange(old(Snapshot()), reorgBlock, blockNum)
        decreases upTo + 1 - blockNum
      {
        if blockNum in pendingEvents {
          EmitReorged(pendingEvents[blockNum]);
          pendingEvents := pendingEvents - {blockNum};
          blockHashes := blockHashes - {blockNum};
        }
        blockNum := blockNum + 1;
      }
    }

    /** checkConfirmations: every ledger entry deep enough at head
        `currentBlock` has its events emitted confirmed and is deleted; the
        entries are visited in no fixed order, and `order` records the order
        taken. */
    method CheckConfirmations(currentBlock: nat) returns (ghost order: seq<nat>)
      modifies this`pendingEvents, this`events
      ensures IsEnumeration(order, Eligible(old(pendingEvents), depth, currentBlock))
      ensures Snapshot() == ConfirmBlocks(old(Snapshot()), order)
    {
      ghost var s0 := Snapshot();
      order := [];
      var rest := pendingEvents.Keys;
      while rest != {}
        invariant rest <= s0.pending.Keys
        invariant Distinct(order)
        invariant forall b :: b in order <==> b in s0.pending && b !in rest && currentBlock >= b + depth
        invariant Snapshot() == ConfirmBlocks(s0, order)
        decreases |rest|
      {
        var blockNum :| blockNum in rest;
        rest := rest - {blockNum};
        if currentBlock >= blockNum + depth {
          ConfirmBlocksKeepsUnvisited(s0, order, blockNum);
          EmitConfirmed(pendingEvents[blockNum]);
          pendingEvents := pendingEvents - {blockNum};
          assert (order + [blockNum])[..|order|] == order;
          order := order + [blockNum];
        }
      }
    }

    /** The set of the addresses listed in `addrs`. */
    static method AddressSet(addrs: seq<string>) returns (addrSet: set<string>)
      ensures forall a :: a in addrSet <==> a in addrs
    {
      addrSet := {};
      var j := 0;
      while j < |addrs|
        invariant 0 <= j <= |addrs|
        invariant forall a :: a in addrSet <==> a in addrs[..j]
      {
        addrSet := addrSet + {addrs[j]};
        j := j + 1;
        assert addrs[..j] == addrs[..j - 1] + [addrs[j - 1]];
      }
      assert addrs[..|addrs|] == addrs;
    }

    /** Records in the ledger entry of block `number`, and emits, one fresh
        event per transaction of `txs` whose recipient or sender is in
        `watched`, in transaction order. */
    method MatchTransactions(number: nat, txs: seq<BlockTx>, watched: set<string>)
      modifies this`pendingEvents, this`events
      ensures Snapshot() == AddMatches(old(Snapshot()), number, Matches(Cfg(), number, txs, watched))
    {
      var i := 0;
      while i < |txs|
        invariant 0 <= i <= |txs|
        invariant Snapshot() == AddMatches(old(Snapshot()), number, Matches(Cfg(), number, txs[..i], watched))
      {
        var tx := txs[i];
        assert txs[..i + 1][..i] == txs[..i];
        AddMatchesAppend(old(Snapshot()), number, Matches(Cfg(), number, txs[..i], watched),
                         if IsWatched(tx, watched) then [NewEvent(Cfg(), number, tx)] else []);
        if tx.to in watched || tx.from in watched {
          var event := BlockEvent(network, number, tx.hash, tx.from, tx.to, tx.amount, false, false);
          pendingEvents := pendingEvents[number := Lookup(pendingEvents, number) + [event]];
          events := events + [event];
        }
        i := i + 1;
      }
      assert txs[..|txs|] == txs;
    }

    /** processBlock: fetch block `number`, repair a detected reorganisation,
        record the hash and the cursor, prune the window, then emit and
        record an event for every watched transaction. */
    method ProcessBlock(chain: Fetcher, number: nat) returns (r: Outcome<Error>)
      modifies this
      ensures (Snapshot(), r)
           == ProcessBlockStep(Cfg(), old(Snapshot()), number, GetBlock(chain, number), Ok(store.addrs))
    {
      var fetched := GetBlock(chain, number);
      if fetched.Err? {
        return Fail(GetBlockFailed(number, fetched.error));
      }
      var block := fetched.value;

      if number in blockHashes && blockHashes[number] != block.hash {
        var maxStored := MaxStoredKey();
        HandleReorg(number, maxStored);
      }
      assert Snapshot() == ReorgRepaired(old(Snapshot()), number, block.hash);

      blockHashes := blockHashes[number := block.hash];
      lastBlock := number;
      if number > depth + 1 {
        blockHashes := blockHashes - {number - depth - 1};
      }
      assert Snapshot() == Record(ReorgRepaired(old(Snapshot()), number, block.hash), depth, number, block.hash);
      var addrs, err := store.List();
      match err {
        case Fail(cause) => return Fail(ListWatchedFailed(number, cause));
        case Pass =>
      }
      var addrSet := AddressSet(addrs);
      assert addrSet == store.addrs;
      MatchTransactions(number, block.txs, addrSet);
      r := Pass;
    }

    /** The block loop of poll: processes blocks lastBlock + 1 .. latest in
        turn and stops at the first failure. */
    method ProcessBlocks(chain: Fetcher, latest: nat) returns (r: Outcome<Error>)
      modifies this
      ensures (Snapshot(), r)
           == ProcessRange(Cfg(), old(Snapshot()), chain, FixedListing(Ok(store.addrs)), old(lastBlock) + 1, latest)
    {
      ghost var watched := store.addrs;
      ghost var listing := FixedListing(Ok(watched));
      ghost var target := ProcessRange(Cfg(), Snapshot(), chain, listing, lastBlock + 1, latest);
      var num := lastBlock + 1;
      r := Pass;
      while num <= latest
        invariant ProcessRange(Cfg(), Snapshot(), chain, listing, num, latest) == target
        invariant store.addrs == watched
        invariant r == Pass
        decreases latest + 1 - num
      {
        ghost var before := Snapshot();
        r := ProcessBlock(chain, num);
        ProcessRangeNext(Cfg(), before, chain, listing, num, latest, Snapshot(), r);
        if r.Fail? {
          return r;
        }
        num := num + 1;
      }
    }

    /** poll: process every block after the cursor up to the head, then, if
        nothing failed, run the confirmation sweep at the head. */
    method Poll(chain: Fetcher) returns (r: Outcome<Error>, ghost order: seq<nat>)
      modifies this
      ensures IsSweepOrder(Cfg(), old(Snapshot()), chain, FixedListing(Ok(store.addrs)), order)
      ensures (Snapshot(), r) == PollStep(Cfg(), old(Snapshot()), chain, FixedListing(Ok(store.addrs)), order)
    {
      order := [];
      if chain.head.Err? {
        return Fail(LatestBlockFailed(chain.head.error)), order;
      }
      var latest := chain.head.value;
      r := ProcessBlocks(chain, latest);
      if r.Fail? {
        return r, order;
      }
      order := CheckConfirmations(latest);
    }
  }

  /** Routes watch requests to the listener registered for each network. */
  class Manager {
    var listeners: map<Network, PollingListener>

    constructor ()
      ensures listeners == map[]
    {
      listeners := map[];
    }

    /** Registers `listener` for `network`; the last registration wins. */
    method RegisterListener(network: Network, listener: PollingListener)
      modifies this
      ensures listeners == old(listeners)[network := listener]
    {
      listeners := listeners[network := listener];
    }

    /** Watches `address` on the listener of `network`, or fails if no
        listener is registered for it. */
    method WatchAddress(network: Network, address: string) returns (r: Outcome<Error>)
      modifies if network in listeners then {listeners[network].store} else {}
      ensures network !in listeners ==> r == Fail(UnregisteredNetwork(network))
      ensures network in listeners ==>
                r == Pass && listeners[network].store.addrs == old(listeners[network].store.addrs) + {address}
    {
      if network !in listeners {
        return Fail(UnregisteredNetwork(network));
      }
      var err := listeners[network].WatchAddress(address);
      match err {
        case Fail(cause) => return Fail(WatchStoreFailed(cause));
        case Pass =>
      }
      r := Pass;
    }
  }
}
