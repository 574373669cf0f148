/** What the polling listener promises, proved about the state machine of
    `ListenerModel`: which transactions produce events, how a reorganisation
    is repaired, when events are confirmed, how far the cursor moves, how
    large the hash window can grow, and that no pending event disappears
    without a terminal event. */
module ListenerProperties {
  import opened Models
  import opened ListenerModel

  // ----- Transaction matching -----

  /** Matching is exact: the events of a block correspond one to one, in
      transaction order, to the block's positions whose recipient or sender
      is watched; a transaction matching on both sides still yields one
      event. */
  lemma {:induction false} MatchesIndexed(cfg: Config, number: nat, txs: seq<BlockTx>, watched: set<string>)
    ensures var ms := Matches(cfg, number, txs, watched);
            var idx := MatchIndices(txs, watched);
            && |ms| == |idx|
            && (forall j :: 0 <= j < |idx| ==> ms[j] == NewEvent(cfg, number, txs[idx[j]]))
            && (forall j, k :: 0 <= j < k < |idx| ==> idx[j] < idx[k])
            && (forall i :: 0 <= i < |txs| ==> (i in idx <==> IsWatched(txs[i], watched)))
    decreases |txs|
  {
    if txs != [] {
      var n := |txs| - 1;
      var init := txs[..n];
      MatchesIndexed(cfg, number, init, watched);
      assert forall i :: 0 <= i < n ==> init[i] == txs[i];
      var ms0, idx0 := Matches(cfg, number, init, watched), MatchIndices(init, watched);
      var ms, idx := Matches(cfg, number, txs, watched), MatchIndices(txs, watched);
      var hit := IsWatched(txs[n], watched);
      assert ms == ms0 + (if hit then [NewEvent(cfg, number, txs[n])] else []);
      assert idx == idx0 + (if hit then [n] else []);
      forall j | 0 <= j < |idx| ensures ms[j] == NewEvent(cfg, number, txs[idx[j]]) {
        if j < |idx0| {
          assert ms[j] == ms0[j] && idx[j] == idx0[j];
        }
      }
      forall j, k | 0 <= j < k < |idx| ensures idx[j] < idx[k] {
        if k < |idx0| {
          assert idx[j] == idx0[j] && idx[k] == idx0[k];
        } else {
          assert idx[j] == idx0[j];
        }
      }
      forall i | 0 <= i < |txs| ensures i in idx <==> IsWatched(txs[i], watched) {
        if i < n {
          assert i in idx <==> i in idx0;
        } else {
          assert n !in idx0;
        }
      }
    }
  }

  /** Every event of a block's matches is fresh, belongs to the listener's
      network and to that block, and has a watched recipient or sender: a
      transaction with neither side watched never produces an event. */
  lemma MatchesAreFresh(cfg: Config, number: nat, txs: seq<BlockTx>, watched: set<string>)
    ensures forall e :: e in Matches(cfg, number, txs, watched) ==>
              && IsFresh(e) && e.network == cfg.network && e.blockNumber == number
              && (e.to in watched || e.from in watched)
  {
    MatchesIndexed(cfg, number, txs, watched);
    var ms := Matches(cfg, number, txs, watched);
    var idx := MatchIndices(txs, watched);
    forall e | e in ms
      ensures IsFresh(e) && e.network == cfg.network && e.blockNumber == number
      ensures e.to in watched || e.from in watched
    {
      var j :| 0 <= j < |ms| && ms[j] == e;
      assert idx[j] in idx;
    }
  }

  // ----- The ledger -----

  /** Every ledger entry holds fresh events of its own block and network. */
  ghost predicate LedgerFresh(cfg: Config, pending: map<nat, seq<BlockEvent>>) {
    forall b, e :: b in pending && e in pending[b] ==>
      IsFresh(e) && e.blockNumber == b && e.network == cfg.network
  }

  /** handleReorg(lo, hi - 1) emits only retractions. */
  lemma {:induction false} RetractedEventsAreRetractions(pending: map<nat, seq<BlockEvent>>, lo: nat, hi: nat)
    ensures forall t :: t in RetractedEvents(pending, lo, hi) ==> t.reorged && !t.confirmed
    decreases hi
  {
    if hi > lo {
      RetractedEventsAreRetractions(pending, lo, hi - 1);
      var last := AllReorged(Lookup(pending, hi - 1));
      assert forall t :: t in last ==> t.reorged && !t.confirmed;
    }
  }

  /** The retraction of every event of `evs` is among `AllReorged(evs)`. */
  lemma AllReorgedHas(evs: seq<BlockEvent>, e: BlockEvent)
    requires e in evs
    ensures AsReorged(e) in AllReorged(evs)
  {
    var i :| 0 <= i < |evs| && evs[i] == e;
    assert AllReorged(evs)[i] == AsReorged(e);
  }

  /** handleReorg(lo, hi - 1) emits the retraction of each pending event of
      blocks lo .. hi - 1. */
  lemma {:induction false} RetractedEventsHas(pending: map<nat, seq<BlockEvent>>, lo: nat, hi: nat,
                                              b: nat, e: BlockEvent)
    requires lo <= b < hi && b in pending && e in pending[b]
    ensures AsReorged(e) in RetractedEvents(pending, lo, hi)
    decreases hi
  {
    var init := RetractedEvents(pending, lo, hi - 1);
    var last := AllReorged(Lookup(pending, hi - 1));
    assert RetractedEvents(pending, lo, hi) == init + last;
    if b == hi - 1 {
      AllReorgedHas(pending[b], e);
      assert AsReorged(e) in last;
    } else {
      RetractedEventsHas(pending, lo, hi - 1, b, e);
      assert AsReorged(e) in init;
    }
  }

  /** handleReorg(lo, hi - 1) emits the retraction of every pending event of
      blocks lo .. hi - 1. */
  lemma RetractedEventsCover(pending: map<nat, seq<BlockEvent>>, lo: nat, hi: nat)
    ensures forall b, e :: lo <= b < hi && b in pending && e in pending[b] ==>
              AsReorged(e) in RetractedEvents(pending, lo, hi)
  {
    forall b, e | lo <= b < hi && b in pending && e in pending[b]
      ensures AsReorged(e) in RetractedEvents(pending, lo, hi)
    {
      RetractedEventsHas(pending, lo, hi, b, e);
    }
  }

  /** Events listed in ascending block order. */
  predicate AscendingBlocks(evs: seq<BlockEvent>) {
    forall i, j :: 0 <= i < j < |evs| ==> evs[i].blockNumber <= evs[j].blockNumber
  }

  /** Over a well-formed ledger, handleReorg(lo, hi - 1) retracts blocks in
      ascending block order, and only blocks of lo .. hi - 1. */
  lemma {:induction false} RetractedEventsAscending(cfg: Config, pending: map<nat, seq<BlockEvent>>, lo: nat, hi: nat)
    requires LedgerFresh(cfg, pending)
    ensures forall t :: t in RetractedEvents(pending, lo, hi) ==> lo <= t.blockNumber < hi
    ensures AscendingBlocks(RetractedEvents(pending, lo, hi))
    decreases hi
  {
    if hi > lo {
      RetractedEventsAscending(cfg, pending, lo, hi - 1);
      var init := RetractedEvents(pending, lo, hi - 1);
      var evs := Lookup(pending, hi - 1);
      var last := AllReorged(evs);
      assert forall t :: t in last ==> t.blockNumber == hi - 1 by {
        forall t | t in last ensures t.blockNumber == hi - 1 {
          var i :| 0 <= i < |last| && last[i] == t;
          assert evs[i] in pending[hi - 1];
        }
      }
      var r := init + last;
      forall i, j | 0 <= i < j < |r| ensures r[i].blockNumber <= r[j].blockNumber {
        if j >= |init| {
          assert r[j] == last[j - |init|];
          assert r[j] in last;
          if i < |init| {
            assert r[i] == init[i];
            assert r[i] in init;
          } else {
            assert r[i] == last[i - |init|];
            assert r[i] in last;
          }
        } else {
          assert r[i] == init[i] && r[j] == init[j];
        }
      }
      forall t | t in r ensures lo <= t.blockNumber < hi {
        if t in init { } else { assert t in last; }
      }
    }
  }

  /** checkConfirmations emits only confirmations of events of the blocks it
      visits, and the confirmation of every pending event of each. */
  lemma {:induction false} ConfirmedEventsMembers(pending: map<nat, seq<BlockEvent>>, order: seq<nat>)
    ensures forall t :: t in ConfirmedEvents(pending, order) ==>
              exists b, e :: b in order && b in pending && e in pending[b] && t == AsConfirmed(e)
    ensures forall b, e :: b in order && b in pending && e in pending[b] ==>
              AsConfirmed(e) in ConfirmedEvents(pending, order)
    decreases |order|
  {
    if order != [] {
      var init := order[..|order| - 1];
      var b := order[|order| - 1];
      ConfirmedEventsMembers(pending, init);
      var evs := Lookup(pending, b);
      var last := AllConfirmed(evs);
      assert forall x :: x in init ==> x in order;
      forall e | e in evs
        ensures AsConfirmed(e) in last
      {
        var i :| 0 <= i < |evs| && evs[i] == e;
        assert last[i] == AsConfirmed(e);
      }
      forall t | t in last
        ensures exists b', e :: b' in order && b' in pending && e in pending[b'] && t == AsConfirmed(e)
      {
        var i :| 0 <= i < |last| && last[i] == t;
        assert b in pending && evs[i] in pending[b];
      }
      forall b', e | b' in order && b' in pending && e in pending[b']
        ensures AsConfirmed(e) in ConfirmedEvents(pending, order)
      {
        if b' != b { assert b' in init; }
      }
    }
  }

  // ----- processBlock -----

  /** The events processBlock(number) emits retracted before it records the
      fetched block with hash `hash`. */
  ghost function Retraction(s: State, number: nat, hash: string): seq<BlockEvent> {
    if ReorgDetected(s, number, hash) then RetractedEvents(s.pending, number, MaxKey(s.hashes.Keys) + 1) else []
  }

  /** The matches processBlock(number) records and emits once the watch
      store's listing is `listing` (none when the listing failed). */
  function NewMatches(cfg: Config, number: nat, block: BlockData, listing: Result<set<string>, string>)
    : seq<BlockEvent>
  {
    match listing
    case Err(_) => []
    case Ok(watched) => Matches(cfg, number, block.txs, watched)
  }

  /** After a fetched block, processBlock moves the cursor to the block,
      records its hash, prunes the hash that left the window, and keeps every
      other stored hash below the block; it fails exactly when listing the
      watch set fails. */
  lemma ProcessBlockRecords(cfg: Config, s: State, number: nat, block: BlockData,
                            listing: Result<set<string>, string>)
    ensures var (r, out) := ProcessBlockStep(cfg, s, number, Ok(block), listing);
            && r.lastBlock == number
            && number in r.hashes && r.hashes[number] == block.hash
            && (number > cfg.depth + 1 ==> number - cfg.depth - 1 !in r.hashes)
            && (forall b :: b in r.hashes && b != number ==> b in s.hashes && r.hashes[b] == s.hashes[b])
            && (forall b :: b in s.hashes && b < number && !(number > cfg.depth + 1 && b == number - cfg.depth - 1)
                  ==> b in r.hashes)
            && out == (match listing
                       case Err(cause) => Fail(ListWatchedFailed(number, cause))
                       case Ok(_) => Pass)
  {
    if ReorgDetected(s, number, block.hash) {
      var hi := MaxKey(s.hashes.Keys) + 1;
      RetractRangeHashes(s, number, hi);
      RetractRangePending(s, number, hi);
    }
  }

  /** processBlock emits the retractions of a detected reorganisation first
      and the block's fresh matches after them; without a reorganisation it
      retracts nothing. */
  lemma ProcessBlockEmits(cfg: Config, s: State, number: nat, block: BlockData,
                          listing: Result<set<string>, string>)
    ensures ProcessBlockStep(cfg, s, number, Ok(block), listing).0.emitted
         == s.emitted + Retraction(s, number, block.hash) + NewMatches(cfg, number, block, listing)
    ensures forall t :: t in Retraction(s, number, block.hash) ==> t.reorged && !t.confirmed
    ensures forall t :: t in NewMatches(cfg, number, block, listing) ==>
              IsFresh(t) && t.network == cfg.network && t.blockNumber == number
    ensures !ReorgDetected(s, number, block.hash) ==> Retraction(s, number, block.hash) == []
  {
    if ReorgDetected(s, number, block.hash) {
      var hi := MaxKey(s.hashes.Keys) + 1;
      RetractRangeEmitted(s, number, hi);
      RetractedEventsAreRetractions(s.pending, number, hi);
    }
    if listing.Ok? {
      MatchesAreFresh(cfg, number, block.txs, listing.value);
    }
  }

  /** processBlock's effect on the ledger: a detected reorganisation deletes
      the entries from the block up to the highest stored block, every other
      entry is kept as it was, and the block's own entry receives its
      matches. In particular, entries of older blocks are never touched. */
  lemma ProcessBlockLedger(cfg: Config, s: State, number: nat, block: BlockData,
                           listing: Result<set<string>, string>)
    ensures var r := ProcessBlockStep(cfg, s, number, Ok(block), listing).0;
            var reorg := ReorgDetected(s, number, block.hash);
            && (forall b :: b != number ==>
                  (b in r.pending <==> b in s.pending && !(reorg && number <= b <= MaxKey(s.hashes.Keys))))
            && (forall b :: b in r.pending && b != number ==> r.pending[b] == s.pending[b])
            && Lookup(r.pending, number)
               == (if reorg then [] else Lookup(s.pending, number)) + NewMatches(cfg, number, block, listing)
            && (number in r.pending <==>
                  (number in s.pending && !reorg) || NewMatches(cfg, number, block, listing) != [])
  {
    if ReorgDetected(s, number, block.hash) {
      var hi := MaxKey(s.hashes.Keys) + 1;
      RetractRangePending(s, number, hi);
      assert number <= MaxKey(s.hashes.Keys);
    }
  }

  // ----- Invariants of processBlock and checkConfirmations -----

  /** Every ledger entry is for a block no higher than the highest stored
      hash, so handleReorg's upper bound covers the whole ledger. */
  ghost predicate PendingCovered(s: State) {
    forall b :: b in s.pending ==> b <= MaxKey(s.hashes.Keys)
  }

  /** The hash window: every stored hash is for one of the blocks
      lastBlock - depth .. lastBlock, and block 0 is never stored. */
  ghost predicate WindowBounded(s: State, depth: nat) {
    forall k :: k in s.hashes ==> 1 <= k <= s.lastBlock <= k + depth
  }

  /** processBlock keeps the ledger well formed. */
  lemma ProcessBlockKeepsLedgerFresh(cfg: Config, s: State, number: nat, fetched: Result<BlockData, string>,
                                     listing: Result<set<string>, string>)
    requires LedgerFresh(cfg, s.pending)
    ensures LedgerFresh(cfg, ProcessBlockStep(cfg, s, number, fetched, listing).0.pending)
  {
    if fetched.Ok? {
      var block := fetched.value;
      var r := ProcessBlockStep(cfg, s, number, fetched, listing).0;
      ProcessBlockLedger(cfg, s, number, block, listing);
      if listing.Ok? {
        MatchesAreFresh(cfg, number, block.txs, listing.value);
      }
      var ms := NewMatches(cfg, number, block, listing);
      forall b, e | b in r.pending && e in r.pending[b]
        ensures IsFresh(e) && e.blockNumber == b && e.network == cfg.network
      {
        if b == number {
          assert e in (if ReorgDetected(s, number, block.hash) then [] else Lookup(s.pending, number)) + ms;
        }
      }
    }
  }

  /** processBlock keeps every ledger entry within handleReorg's reach. */
  lemma ProcessBlockKeepsCovered(cfg: Config, s: State, number: nat, fetched: Result<BlockData, string>,
                                 listing: Result<set<string>, string>)
    requires PendingCovered(s)
    ensures PendingCovered(ProcessBlockStep(cfg, s, number, fetched, listing).0)
  {
    if fetched.Ok? {
      var block := fetched.value;
      var r := ProcessBlockStep(cfg, s, number, fetched, listing).0;
      ProcessBlockLedger(cfg, s, number, block, listing);
      ProcessBlockRecords(cfg, s, number, block, listing);
      var m := MaxKey(s.hashes.Keys);
      var m' := MaxKey(r.hashes.Keys);
      assert number <= m';
      if !ReorgDetected(s, number, block.hash) && s.hashes.Keys != {} && m > number {
        assert r.hashes.Keys == Record(s, cfg.depth, number, block.hash).hashes.Keys;
        assert m in r.hashes;
      }
    }
  }

  /** Processing the block right after the cursor keeps the hash window. */
  lemma NextBlockKeepsWindow(cfg: Config, s: State, fetched: Result<BlockData, string>,
                             listing: Result<set<string>, string>)
    requires WindowBounded(s, cfg.depth)
    ensures WindowBounded(ProcessBlockStep(cfg, s, s.lastBlock + 1, fetched, listing).0, cfg.depth)
  {
    if fetched.Ok? {
      ProcessBlockRecords(cfg, s, s.lastBlock + 1, fetched.value, listing);
    }
  }

  /** A set of block numbers inside lo .. lo + n - 1 has at most n members. */
  lemma {:induction false} RangeSubsetSize(keys: set<nat>, lo: nat, n: nat)
    requires forall k :: k in keys ==> lo <= k < lo + n
    ensures |keys| <= n
    decreases n
  {
    if n > 0 {
      var top := lo + n - 1;
      RangeSubsetSize(keys - {top}, lo, n - 1);
    } else {
      assert keys == {};
    }
  }

  /** The hash map never holds more than depth + 1 entries. */
  lemma WindowSize(s: State, depth: nat)
    requires WindowBounded(s, depth)
    ensures |s.hashes| <= depth + 1
  {
    var lo := if s.lastBlock >= depth then s.lastBlock - depth else 0;
    RangeSubsetSize(s.hashes.Keys, lo, depth + 1);
    assert |s.hashes| == |s.hashes.Keys|;
  }

  /** A reorganisation at `number` retracts every pending event from
      `number` up, and leaves no ledger entry above `number`. */
  lemma ReorgRetractsFromBlockOn(cfg: Config, s: State, number: nat, block: BlockData,
                                 listing: Result<set<string>, string>)
    requires PendingCovered(s)
    requires ReorgDetected(s, number, block.hash)
    ensures forall b, e :: b in s.pending && number <= b && e in s.pending[b] ==>
              AsReorged(e) in Retraction(s, number, block.hash)
    ensures forall b :: b in ProcessBlockStep(cfg, s, number, Ok(block), listing).0.pending ==> b <= number
  {
    RetractedEventsCover(s.pending, number, MaxKey(s.hashes.Keys) + 1);
    ProcessBlockLedger(cfg, s, number, block, listing);
  }

  // ----- checkConfirmations -----

  /** A sweep at head `current` that visits each eligible entry once
      deletes exactly the entries at least `depth` blocks deep, leaves the
      others, the hashes and the cursor as they were, and appends the
      sweep's confirmations to the stream. */
  lemma SweepPromotesEligible(s: State, depth: nat, current: nat, order: seq<nat>)
    requires IsEnumeration(order, Eligible(s.pending, depth, current))
    ensures ConfirmBlocks(s, order).lastBlock == s.lastBlock
    ensures ConfirmBlocks(s, order).hashes == s.hashes
    ensures forall b :: b in ConfirmBlocks(s, order).pending <==> b in s.pending && current < b + depth
    ensures forall b :: b in ConfirmBlocks(s, order).pending ==> ConfirmBlocks(s, order).pending[b] == s.pending[b]
    ensures ConfirmBlocks(s, order).emitted == s.emitted + ConfirmedEvents(s.pending, order)
  {
    ConfirmBlocksEffect(s, order);
  }

  /** Such a sweep emits the confirmation of every event of the entries at
      least `depth` blocks deep, and nothing else. */
  lemma SweepEmitsEligible(pending: map<nat, seq<BlockEvent>>, depth: nat, current: nat, order: seq<nat>)
    requires IsEnumeration(order, Eligible(pending, depth, current))
    ensures forall t :: t in ConfirmedEvents(pending, order) ==>
              exists b, e :: b in pending && current >= b + depth && e in pending[b] && t == AsConfirmed(e)
    ensures forall b, e :: b in pending && current >= b + depth && e in pending[b] ==>
              AsConfirmed(e) in ConfirmedEvents(pending, order)
  {
    ConfirmedEventsMembers(pending, order);
    forall t | t in ConfirmedEvents(pending, order)
      ensures exists b, e :: b in pending && current >= b + depth && e in pending[b] && t == AsConfirmed(e)
    {
      var b, e :| b in order && b in pending && e in pending[b] && t == AsConfirmed(e);
      assert b in Eligible(pending, depth, current);
    }
    forall b, e | b in pending && current >= b + depth && e in pending[b]
      ensures AsConfirmed(e) in ConfirmedEvents(pending, order)
    {
      assert b in Eligible(pending, depth, current);
    }
  }

  /** Over a well-formed ledger the sweep emits confirmed, never reorged,
      events. */
  lemma SweepEmitsConfirmed(cfg: Config, pending: map<nat, seq<BlockEvent>>, order: seq<nat>)
    requires LedgerFresh(cfg, pending)
    ensures forall t :: t in ConfirmedEvents(pending, order) ==> t.confirmed && !t.reorged
  {
    ConfirmedEventsMembers(pending, order);
    forall t | t in ConfirmedEvents(pending, order) ensures t.confirmed && !t.reorged {
      var b, e :| b in order && b in pending && e in pending[b] && t == AsConfirmed(e);
    }
  }

  /** A sweep keeps the ledger well formed, covered and the hash window
      bounded. */
  lemma SweepKeepsInvariants(cfg: Config, s: State, order: seq<nat>)
    requires LedgerFresh(cfg, s.pending) && PendingCovered(s)
    ensures var r := ConfirmBlocks(s, order);
            && LedgerFresh(cfg, r.pending) && PendingCovered(r)
            && (WindowBounded(s, cfg.depth) ==> WindowBounded(r, cfg.depth))
  {
    ConfirmBlocksEffect(s, order);
  }

  // ----- No event is lost -----

  /** From `s` to `r` the stream only grows, and every event pending in `s`
      is still pending in `r` or has been emitted reorged or confirmed. */
  ghost predicate Accounted(s: State, r: State) {
    && |s.emitted| <= |r.emitted| && r.emitted[..|s.emitted|] == s.emitted
    && forall b, e :: b in s.pending && e in s.pending[b] ==>
         || (b in r.pending && e in r.pending[b])
         || AsReorged(e) in r.emitted[|s.emitted|..]
         || AsConfirmed(e) in r.emitted[|s.emitted|..]
  }

  /** Accounting composes over consecutive steps. */
  lemma AccountedTrans(s1: State, s2: State, s3: State)
    requires Accounted(s1, s2) && Accounted(s2, s3)
    ensures Accounted(s1, s3)
  {
    var n1, n2 := |s1.emitted|, |s2.emitted|;
    assert s3.emitted[..n1] == s3.emitted[..n2][..n1];
    assert s3.emitted[n1..] == s2.emitted[n1..] + s3.emitted[n2..];
    forall b, e | b in s1.pending && e in s1.pending[b]
      ensures || (b in s3.pending && e in s3.pending[b])
              || AsReorged(e) in s3.emitted[n1..]
              || AsConfirmed(e) in s3.emitted[n1..]
    {
      if b in s2.pending && e in s2.pending[b] {
      } else if AsReorged(e) in s2.emitted[n1..] {
      } else {
        assert AsConfirmed(e) in s2.emitted[n1..];
      }
    }
  }

  /** A step that appends retractions `rt` and then other events `ms`
      loses no pending event if `rt` retracts every event of blocks
      lo .. hi - 1 and every other entry keeps its events. */
  lemma AccountedByParts(s: State, r: State, rt: seq<BlockEvent>, ms: seq<BlockEvent>, lo: nat, hi: nat)
    requires r.emitted == s.emitted + rt + ms
    requires forall b, e :: lo <= b < hi && b in s.pending && e in s.pending[b] ==> AsReorged(e) in rt
    requires forall b, e :: b in s.pending && !(lo <= b < hi) && e in s.pending[b] ==> b in r.pending && e in r.pending[b]
    ensures Accounted(s, r)
    ensures forall b, e :: b in s.pending && e in s.pending[b] ==>
              (b in r.pending && e in r.pending[b]) || AsReorged(e) in r.emitted[|s.emitted|..]
  {
    assert r.emitted[..|s.emitted|] == s.emitted;
    assert r.emitted[|s.emitted|..] == rt + ms;
  }

  /** processBlock loses no pending event: each one stays in its entry or
      is emitted reorged (never confirmed). */
  lemma ProcessBlockAccounted(cfg: Config, s: State, number: nat, fetched: Result<BlockData, string>,
                              listing: Result<set<string>, string>)
    ensures Accounted(s, ProcessBlockStep(cfg, s, number, fetched, listing).0)
    ensures var r := ProcessBlockStep(cfg, s, number, fetched, listing).0;
            forall b, e :: b in s.pending && e in s.pending[b] ==>
              (b in r.pending && e in r.pending[b]) || AsReorged(e) in r.emitted[|s.emitted|..]
  {
    var r := ProcessBlockStep(cfg, s, number, fetched, listing).0;
    if fetched.Err? {
      assert r.emitted[..|s.emitted|] == s.emitted;
    } else {
      var block := fetched.value;
      ProcessBlockEmits(cfg, s, number, block, listing);
      var reorg := ReorgDetected(s, number, block.hash);
      var hi := if reorg then MaxKey(s.hashes.Keys) + 1 else number;
      if reorg {
        RetractedEventsCover(s.pending, number, hi);
      }
      ProcessBlockKeepsOthers(cfg, s, number, block, listing, hi);
      var rt := Retraction(s, number, block.hash);
      AccountedByParts(s, r, rt, NewMatches(cfg, number, block, listing), number, hi);
    }
  }

  /** processBlock keeps every pending event outside the retracted blocks
      number .. hi - 1 in its entry. */
  lemma ProcessBlockKeepsOthers(cfg: Config, s: State, number: nat, block: BlockData,
                                listing: Result<set<string>, string>, hi: nat)
    requires hi == if ReorgDetected(s, number, block.hash) then MaxKey(s.hashes.Keys) + 1 else number
    ensures var r := ProcessBlockStep(cfg, s, number, Ok(block), listing).0;
            forall b, e :: b in s.pending && !(number <= b < hi) && e in s.pending[b] ==>
              b in r.pending && e in r.pending[b]
  {
    var r := ProcessBlockStep(cfg, s, number, Ok(block), listing).0;
    ProcessBlockLedger(cfg, s, number, block, listing);
    forall b, e | b in s.pending && !(number <= b < hi) && e in s.pending[b]
      ensures b in r.pending && e in r.pending[b]
    {
      if b == number {
        assert e in Lookup(r.pending, number);
      }
    }
  }

  /** A sweep that visits no entry twice loses no pending event: each one
      stays in its entry or is emitted confirmed (never reorged). */
  lemma SweepAccounted(s: State, order: seq<nat>)
    requires Distinct(order)
    ensures Accounted(s, ConfirmBlocks(s, order))
    ensures var r := ConfirmBlocks(s, order);
            forall b, e :: b in s.pending && e in s.pending[b] ==>
              (b in r.pending && e in r.pending[b]) || AsConfirmed(e) in r.emitted[|s.emitted|..]
  {
    var r := ConfirmBlocks(s, order);
    ConfirmBlocksEffect(s, order);
    ConfirmedEventsMembers(s.pending, order);
    assert r.emitted[..|s.emitted|] == s.emitted;
    assert r.emitted[|s.emitted|..] == ConfirmedEvents(s.pending, order);
  }

  /** processBlock keeps the ledger well formed and covered, and loses no
      pending event. */
  lemma ProcessBlockKeepsInvariants(cfg: Config, s: State, number: nat, fetched: Result<BlockData, string>,
                                    listing: Result<set<string>, string>)
    requires LedgerFresh(cfg, s.pending) && PendingCovered(s)
    ensures var r := ProcessBlockStep(cfg, s, number, fetched, listing).0;
            Accounted(s, r) && LedgerFresh(cfg, r.pending) && PendingCovered(r)
  {
    ProcessBlockAccounted(cfg, s, number, fetched, listing);
    ProcessBlockKeepsLedgerFresh(cfg, s, number, fetched, listing);
    ProcessBlockKeepsCovered(cfg, s, number, fetched, listing);
  }

  // ----- poll -----

  /** Processing a range of blocks keeps the ledger well formed and
      covered, and loses no pending event. */
  lemma {:induction false} ProcessRangeKeepsInvariants(cfg: Config, s: State, chain: Fetcher,
                                                      listing: Listing, num: nat, latest: nat)
    requires LedgerFresh(cfg, s.pending) && PendingCovered(s)
    ensures var r := ProcessRange(cfg, s, chain, listing, num, latest).0;
            Accounted(s, r) && LedgerFresh(cfg, r.pending) && PendingCovered(r)
    decreases latest + 1 - num
  {
    if num <= latest {
      var fetched, listed := GetBlock(chain, num), ListAt(listing, num);
      var step := ProcessBlockStep(cfg, s, num, fetched, listed);
      ProcessRangeNext(cfg, s, chain, listing, num, latest, step.0, step.1);
      ProcessBlockKeepsInvariants(cfg, s, num, fetched, listed);
      if step.1.Pass? {
        var r := ProcessRange(cfg, step.0, chain, listing, num + 1, latest).0;
        ProcessRangeKeepsInvariants(cfg, step.0, chain, listing, num + 1, latest);
        assert Accounted(s, r) by { AccountedTrans(s, step.0, r); }
      }
    } else {
      assert s.emitted[..|s.emitted|] == s.emitted;
    }
  }

  /** Processing the blocks after the cursor keeps the hash window. */
  lemma {:induction false} ProcessRangeKeepsWindow(cfg: Config, s: State, chain: Fetcher,
                                                  listing: Listing, num: nat, latest: nat)
    requires num == s.lastBlock + 1 && WindowBounded(s, cfg.depth)
    ensures WindowBounded(ProcessRange(cfg, s, chain, listing, num, latest).0, cfg.depth)
    decreases latest + 1 - num
  {
    if num <= latest {
      var fetched, listed := GetBlock(chain, num), ListAt(listing, num);
      NextBlockKeepsWindow(cfg, s, fetched, listed);
      var step := ProcessBlockStep(cfg, s, num, fetched, listed);
      ProcessRangeNext(cfg, s, chain, listing, num, latest, step.0, step.1);
      if step.1.Pass? {
        ProcessBlockRecords(cfg, s, num, fetched.value, listed);
        ProcessRangeKeepsWindow(cfg, step.0, chain, listing, num + 1, latest);
      }
    }
  }

  /** Processing the blocks after the cursor, from any state, leaves the
      cursor at the last block processed: the head on success, the block
      before the one that could not be fetched, or the block whose matching
      could not list the watch set. */
  lemma {:induction false} ProcessRangeCursor(cfg: Config, s: State, chain: Fetcher,
                                             listing: Listing, num: nat, latest: nat)
    requires num == s.lastBlock + 1
    ensures var step := ProcessRange(cfg, s, chain, listing, num, latest);
            var r, out := step.0, step.1;
            && (out.Pass? ==> r.lastBlock == (if latest >= num then latest else s.lastBlock))
            && (out.Fail? ==> out.error.GetBlockFailed? || out.error.ListWatchedFailed?)
            && (out.Fail? && out.error.GetBlockFailed? ==>
                  num <= out.error.number <= latest && r.lastBlock == out.error.number - 1)
            && (out.Fail? && out.error.ListWatchedFailed? ==>
                  num <= out.error.number <= latest && ListAt(listing, out.error.number).Err?
                  && r.lastBlock == out.error.number)
    decreases latest + 1 - num
  {
    if num <= latest {
      var fetched := GetBlock(chain, num);
      if fetched.Ok? {
        ProcessBlockRecords(cfg, s, num, fetched.value, ListAt(listing, num));
        var step := ProcessBlockStep(cfg, s, num, fetched, ListAt(listing, num));
        ProcessRangeNext(cfg, s, chain, listing, num, latest, step.0, step.1);
        if step.1.Pass? {
          ProcessRangeCursor(cfg, step.0, chain, listing, num + 1, latest);
        }
      }
    }
  }

  /** Fresh events of the listener's network for blocks after `last`. */
  ghost predicate FreshAfter(cfg: Config, evs: seq<BlockEvent>, last: nat) {
    forall t :: t in evs ==> IsFresh(t) && last < t.blockNumber && t.network == cfg.network
  }

  /** Events of one block followed by ascending events of later blocks are
      ascending. */
  lemma AppendAscending(a: seq<BlockEvent>, b: seq<BlockEvent>, n: nat)
    requires forall t :: t in a ==> t.blockNumber == n
    requires forall t :: t in b ==> n < t.blockNumber
    requires AscendingBlocks(b)
    ensures AscendingBlocks(a + b)
  {
    var c := a + b;
    forall i, j | 0 <= i < j < |c| ensures c[i].blockNumber <= c[j].blockNumber {
      if j < |a| {
        assert c[i] == a[i] && c[j] == a[j];
        assert a[i] in a && a[j] in a;
      } else if i < |a| {
        assert c[i] == a[i] && c[j] == b[j - |a|];
        assert a[i] in a && b[j - |a|] in b;
      } else {
        assert c[i] == b[i - |a|] && c[j] == b[j - |a|];
      }
    }
  }

  /** A stream extended by one block's fresh matches `ms` and then by
      ascending fresh events of later blocks is extended by ascending fresh
      events. */
  lemma ComposeFresh(cfg: Config, prefix: seq<BlockEvent>, ms: seq<BlockEvent>, r: seq<BlockEvent>, last: nat)
    requires |prefix| + |ms| <= |r| && r[..|prefix| + |ms|] == prefix + ms
    requires forall t :: t in ms ==> IsFresh(t) && t.blockNumber == last + 1 && t.network == cfg.network
    requires FreshAfter(cfg, r[|prefix| + |ms|..], last + 1)
    requires AscendingBlocks(r[|prefix| + |ms|..])
    ensures r[..|prefix|] == prefix
    ensures FreshAfter(cfg, r[|prefix|..], last) && AscendingBlocks(r[|prefix|..])
  {
    var n1 := |prefix| + |ms|;
    var rest := r[n1..];
    assert r[..|prefix|] == r[..n1][..|prefix|];
    assert r[|prefix|..] == (prefix + ms)[|prefix|..] + rest;
    assert (prefix + ms)[|prefix|..] == ms;
    AppendAscending(ms, rest, last + 1);
  }

  /** The block right after the cursor of a bounded window has no stored
      hash, so processing it only appends its fresh matches, which are
      empty when the step fails, and keeps the window bounded. */
  lemma NextBlockAppendsMatches(cfg: Config, s: State, block: BlockData, listing: Result<set<string>, string>)
    requires WindowBounded(s, cfg.depth)
    ensures var step := ProcessBlockStep(cfg, s, s.lastBlock + 1, Ok(block), listing);
            && step.0.emitted == s.emitted + NewMatches(cfg, s.lastBlock + 1, block, listing)
            && (step.1.Fail? ==> NewMatches(cfg, s.lastBlock + 1, block, listing) == [])
            && WindowBounded(step.0, cfg.depth)
            && step.0.lastBlock == s.lastBlock + 1
    ensures forall t :: t in NewMatches(cfg, s.lastBlock + 1, block, listing) ==>
              IsFresh(t) && t.blockNumber == s.lastBlock + 1 && t.network == cfg.network
  {
    assert s.lastBlock + 1 !in s.hashes;
    ProcessBlockEmits(cfg, s, s.lastBlock + 1, block, listing);
    NextBlockKeepsWindow(cfg, s, Ok(block), listing);
  }

  /** Processing the blocks after the cursor only appends to the stream,
      and what it appends are fresh events of those blocks, in ascending
      block order: no block it processes has a stored hash, so none of them
      detects a reorganisation. */
  lemma {:induction false} ProcessRangeEmitsFresh(cfg: Config, s: State, chain: Fetcher,
                                                 listing: Listing, num: nat, latest: nat)
    requires num == s.lastBlock + 1 && WindowBounded(s, cfg.depth)
    ensures var r := ProcessRange(cfg, s, chain, listing, num, latest).0;
            && |s.emitted| <= |r.emitted| && r.emitted[..|s.emitted|] == s.emitted
            && FreshAfter(cfg, r.emitted[|s.emitted|..], s.lastBlock)
            && AscendingBlocks(r.emitted[|s.emitted|..])
    decreases latest + 1 - num
  {
    if num > latest || GetBlock(chain, num).Err? {
      assert s.emitted[..|s.emitted|] == s.emitted && s.emitted[|s.emitted|..] == [];
    } else {
      var block := GetBlock(chain, num).value;
      var listed := ListAt(listing, num);
      var step := ProcessBlockStep(cfg, s, num, Ok(block), listed);
      NextBlockAppendsMatches(cfg, s, block, listed);
      var ms := NewMatches(cfg, num, block, listed);
      ProcessRangeNext(cfg, s, chain, listing, num, latest, step.0, step.1);
      if step.1.Fail? {
        assert step.0.emitted[..|s.emitted|] == s.emitted && step.0.emitted[|s.emitted|..] == [];
      } else {
        ProcessRangeEmitsFresh(cfg, step.0, chain, listing, num + 1, latest);
        var r := ProcessRange(cfg, step.0, chain, listing, num + 1, latest).0;
        ComposeFresh(cfg, s.emitted, ms, r.emitted, s.lastBlock);
      }
    }
  }

  /** A poll, from any cursor, keeps the ledger well formed and covered and
      loses no pending event; from a bounded window it also keeps the hash
      window bounded. */
  lemma PollKeepsInvariants(cfg: Config, s: State, chain: Fetcher, listing: Listing,
                            order: seq<nat>)
    requires LedgerFresh(cfg, s.pending) && PendingCovered(s)
    requires IsSweepOrder(cfg, s, chain, listing, order)
    ensures var r := PollStep(cfg, s, chain, listing, order).0;
            && LedgerFresh(cfg, r.pending) && PendingCovered(r) && Accounted(s, r)
            && (WindowBounded(s, cfg.depth) ==> WindowBounded(r, cfg.depth))
  {
    if chain.head.Ok? {
      var latest := chain.head.value;
      var num := s.lastBlock + 1;
      var blocks := PollBlocks(cfg, s, chain, listing);
      assert blocks == ProcessRange(cfg, s, chain, listing, num, latest);
      ProcessRangeKeepsInvariants(cfg, s, chain, listing, num, latest);
      if WindowBounded(s, cfg.depth) {
        ProcessRangeKeepsWindow(cfg, s, chain, listing, num, latest);
      }
      if blocks.1.Pass? {
        SweepKeepsInvariants(cfg, blocks.0, order);
        SweepAccounted(blocks.0, order);
        AccountedTrans(s, blocks.0, ConfirmBlocks(blocks.0, order));
      }
    } else {
      assert s.emitted[..|s.emitted|] == s.emitted;
    }
  }

  /** What a successful poll does: it had a head, and it leaves the cursor
      at the head, or where it was (with only the sweep run) when the head
      is not ahead; a failing head query changes nothing. */
  lemma PollOutcome(cfg: Config, s: State, chain: Fetcher, listing: Listing,
                    order: seq<nat>)
    ensures var step := PollStep(cfg, s, chain, listing, order);
            var r, out := step.0, step.1;
            && (out.Pass? ==>
                  && chain.head.Ok?
                  && r.lastBlock == (if chain.head.value > s.lastBlock then chain.head.value else s.lastBlock)
                  && (chain.head.value <= s.lastBlock ==> r == ConfirmBlocks(s, order)))
            && (chain.head.Err? ==> r == s && out == Fail(LatestBlockFailed(chain.head.error)))
  {
    if chain.head.Ok? {
      var latest := chain.head.value;
      var blocks := PollBlocks(cfg, s, chain, listing);
      assert blocks == ProcessRange(cfg, s, chain, listing, s.lastBlock + 1, latest);
      ProcessRangeCursor(cfg, s, chain, listing, s.lastBlock + 1, latest);
      ConfirmBlocksEffect(blocks.0, order);
      if latest <= s.lastBlock {
        assert blocks == (s, Pass);
      }
    }
  }

  /** The stream grows from `s` to `r` by events none of which is
      confirmed. */
  ghost predicate AppendsNoConfirmation(s: State, r: State) {
    && |s.emitted| <= |r.emitted| && r.emitted[..|s.emitted|] == s.emitted
    && forall t :: t in r.emitted[|s.emitted|..] ==> !t.confirmed
  }

  /** processBlock, from any state, emits no confirmed event: it emits only
      retractions and fresh matches. */
  lemma ProcessBlockConfirmsNothing(cfg: Config, s: State, number: nat, fetched: Result<BlockData, string>,
                                    listing: Result<set<string>, string>)
    ensures AppendsNoConfirmation(s, ProcessBlockStep(cfg, s, number, fetched, listing).0)
  {
    var r := ProcessBlockStep(cfg, s, number, fetched, listing).0;
    if fetched.Ok? {
      ProcessBlockEmits(cfg, s, number, fetched.value, listing);
      assert r.emitted[|s.emitted|..]
          == Retraction(s, number, fetched.value.hash) + NewMatches(cfg, number, fetched.value, listing);
    }
    assert r.emitted[..|s.emitted|] == s.emitted;
  }

  /** The block loop of poll, from any cursor, emits no confirmed event,
      whether it succeeds or stops at a failure. */
  lemma {:induction false} ProcessRangeConfirmsNothing(cfg: Config, s: State, chain: Fetcher,
                                                      listing: Listing, num: nat, latest: nat)
    ensures AppendsNoConfirmation(s, ProcessRange(cfg, s, chain, listing, num, latest).0)
    decreases latest + 1 - num
  {
    if num <= latest {
      var step := ProcessBlockStep(cfg, s, num, GetBlock(chain, num), ListAt(listing, num));
      ProcessRangeNext(cfg, s, chain, listing, num, latest, step.0, step.1);
      ProcessBlockConfirmsNothing(cfg, s, num, GetBlock(chain, num), ListAt(listing, num));
      if step.1.Pass? {
        ProcessRangeConfirmsNothing(cfg, step.0, chain, listing, num + 1, latest);
        var r := ProcessRange(cfg, step.0, chain, listing, num + 1, latest).0;
        var n0, n1 := |s.emitted|, |step.0.emitted|;
        assert r.emitted[..n0] == r.emitted[..n1][..n0];
        assert r.emitted[n0..] == step.0.emitted[n0..] + r.emitted[n1..];
      }
    } else {
      assert s.emitted[..|s.emitted|] == s.emitted;
    }
  }

  /** Where a failing poll leaves the cursor: just before the block that
      could not be fetched, or at the block whose watch set could not be
      listed; no other error arises. From any cursor, a failing poll skips
      the sweep, so it emits no confirmed event. */
  lemma PollFailure(cfg: Config, s: State, chain: Fetcher, listing: Listing,
                    order: seq<nat>)
    ensures var step := PollStep(cfg, s, chain, listing, order);
            var r, out := step.0, step.1;
            && (out.Fail? && out.error.GetBlockFailed? ==>
                  chain.head.Ok? && s.lastBlock < out.error.number <= chain.head.value
                  && r.lastBlock == out.error.number - 1)
            && (out.Fail? && out.error.ListWatchedFailed? ==>
                  chain.head.Ok? && s.lastBlock < out.error.number <= chain.head.value
                  && ListAt(listing, out.error.number).Err? && r.lastBlock == out.error.number)
            && (out.Fail? ==> out.error.LatestBlockFailed? || out.error.GetBlockFailed? || out.error.ListWatchedFailed?)
            && (out.Fail? ==> AppendsNoConfirmation(s, r))
  {
    if chain.head.Ok? {
      var latest := chain.head.value;
      var blocks := PollBlocks(cfg, s, chain, listing);
      assert blocks == ProcessRange(cfg, s, chain, listing, s.lastBlock + 1, latest);
      ProcessRangeCursor(cfg, s, chain, listing, s.lastBlock + 1, latest);
      ProcessRangeConfirmsNothing(cfg, s, chain, listing, s.lastBlock + 1, latest);
    } else {
      assert s.emitted[..|s.emitted|] == s.emitted;
    }
  }

  /** A sweep over a well-formed ledger adds only confirmations, so a
      stretch of the stream free of retractions stays free of them. */
  lemma SweepAddsNoRetraction(cfg: Config, s: State, order: seq<nat>, k: nat)
    requires LedgerFresh(cfg, s.pending) && Distinct(order) && k <= |s.emitted|
    requires forall t :: t in s.emitted[k..] ==> !t.reorged
    ensures k <= |ConfirmBlocks(s, order).emitted|
    ensures forall t :: t in ConfirmBlocks(s, order).emitted[k..] ==> !t.reorged
  {
    ConfirmBlocksEffect(s, order);
    SweepEmitsConfirmed(cfg, s.pending, order);
    var r := ConfirmBlocks(s, order);
    assert r.emitted[k..] == s.emitted[k..] + ConfirmedEvents(s.pending, order);
  }

  /** A poll from a bounded window never emits a reorged event: the blocks
      it processes are all beyond the cursor and have no stored hash. It
      emits confirmed events only when it succeeds, and all of them in its
      closing sweep. */
  lemma PollNeverRetracts(cfg: Config, s: State, chain: Fetcher, listing: Listing,
                          order: seq<nat>)
    requires LedgerFresh(cfg, s.pending) && PendingCovered(s) && WindowBounded(s, cfg.depth)
    requires IsSweepOrder(cfg, s, chain, listing, order)
    ensures var step := PollStep(cfg, s, chain, listing, order);
            && |s.emitted| <= |step.0.emitted|
            && (forall t :: t in step.0.emitted[|s.emitted|..] ==> !t.reorged)
            && (step.1.Fail? ==> forall t :: t in step.0.emitted[|s.emitted|..] ==> !t.confirmed)
  {
    if chain.head.Ok? {
      var latest := chain.head.value;
      var num := s.lastBlock + 1;
      var blocks := PollBlocks(cfg, s, chain, listing);
      assert blocks == ProcessRange(cfg, s, chain, listing, num, latest);
      ProcessRangeEmitsFresh(cfg, s, chain, listing, num, latest);
      if blocks.1.Pass? {
        ProcessRangeKeepsInvariants(cfg, s, chain, listing, num, latest);
        SweepAddsNoRetraction(cfg, blocks.0, order, |s.emitted|);
      }
    } else {
      assert s.emitted[|s.emitted|..] == [];
    }
  }

  /** A successful poll ends with a sweep at the head: afterwards the
      ledger holds exactly the entries less than `depth` blocks deep, and
      every event of the other entries has been emitted confirmed. */
  lemma PollConfirmsDeepEntries(cfg: Config, s: State, chain: Fetcher, listing: Listing,
                                order: seq<nat>)
    requires IsSweepOrder(cfg, s, chain, listing, order)
    ensures var blocks := PollBlocks(cfg, s, chain, listing);
            var (r, out) := PollStep(cfg, s, chain, listing, order);
            out.Pass? ==>
              && chain.head.Ok? && blocks.1.Pass?
              && (forall b :: b in r.pending <==> b in blocks.0.pending && chain.head.value < b + cfg.depth)
              && |blocks.0.emitted| <= |r.emitted|
              && (forall b, e :: b in blocks.0.pending && chain.head.value >= b + cfg.depth && e in blocks.0.pending[b]
                    ==> AsConfirmed(e) in r.emitted[|blocks.0.emitted|..])
  {
    var blocks := PollBlocks(cfg, s, chain, listing);
    if blocks.1.Pass? && chain.head.Ok? {
      SweepPromotesEligible(blocks.0, cfg.depth, chain.head.value, order);
      SweepEmitsEligible(blocks.0.pending, cfg.depth, chain.head.value, order);
      var r := ConfirmBlocks(blocks.0, order);
      assert r.emitted[|blocks.0.emitted|..] == ConfirmedEvents(blocks.0.pending, order);
    }
  }

  // ----- Scenarios -----

  /** The listener and the watch set of the listener tests (depth 3). */
  const TestCfg := Config(NetworkETH, 3)
  const TestListing: Result<set<string>, string> := Ok({"0xaddr"})
  const TestStore := FixedListing(TestListing)

  /** Block 1 of the confirmation test: one transfer to the watched address. */
  const ConfirmTx := BlockTx("tx1", "0xsender", "0xaddr", 100)
  const ConfirmBlock1 := BlockData(1, "h1", [ConfirmTx])
  const ConfirmEvent := BlockEvent(NetworkETH, 1, "tx1", "0xsender", "0xaddr", 100, false, false)

  /** The state after the first poll of the confirmation test. */
  const AfterFirstPoll := State(1, map[1 := "h1"], map[1 := [ConfirmEvent]], [ConfirmEvent])

  /** The first poll at head 1 emits the transfer unconfirmed and keeps it
      pending: block 1 is not yet 3 blocks deep. */
  lemma ConfirmationFirstPoll()
    ensures IsSweepOrder(TestCfg, Initial, Fetcher(Ok(1), map[1 := ConfirmBlock1]), TestStore, [])
    ensures PollStep(TestCfg, Initial, Fetcher(Ok(1), map[1 := ConfirmBlock1]), TestStore, [])
         == (AfterFirstPoll, Pass)
  {
    assert Matches(TestCfg, 1, [ConfirmTx], {"0xaddr"}) == [ConfirmEvent];
    var p1 := ProcessBlockStep(TestCfg, Initial, 1, Ok(ConfirmBlock1), TestListing);
    assert p1 == (AfterFirstPoll, Pass);
    assert Eligible(AfterFirstPoll.pending, 3, 1) == {};
  }

  /** An empty block below depth + 2 with no stored hash only moves the
      cursor and records its hash. */
  lemma QuietBlock(s: State, number: nat, hash: string)
    requires number !in s.hashes && number <= TestCfg.depth + 1
    ensures ProcessBlockStep(TestCfg, s, number, Ok(BlockData(number, hash, [])), TestListing)
         == (s.(lastBlock := number, hashes := s.hashes[number := hash]), Pass)
  {
    assert Matches(TestCfg, number, [], {"0xaddr"}) == [];
  }

  /** The chain of the second poll: blocks 2 .. 4 are empty. */
  const Chain4 := Fetcher(Ok(4), map[1 := ConfirmBlock1, 2 := BlockData(2, "h2", []),
                                     3 := BlockData(3, "h3", []), 4 := BlockData(4, "h4", [])])

  /** The state after the blocks of the second poll, before its sweep. */
  const AfterBlock4 := State(4, map[1 := "h1", 2 := "h2", 3 := "h3", 4 := "h4"],
                             map[1 := [ConfirmEvent]], [ConfirmEvent])

  /** The blocks of the second poll record hashes 2 .. 4 and emit nothing. */
  lemma ConfirmationQuietBlocks()
    ensures PollBlocks(TestCfg, AfterFirstPoll, Chain4, TestStore) == (AfterBlock4, Pass)
  {
    var q2 := AfterFirstPoll.(lastBlock := 2, hashes := AfterFirstPoll.hashes[2 := "h2"]);
    var q3 := q2.(lastBlock := 3, hashes := q2.hashes[3 := "h3"]);
    var q4 := q3.(lastBlock := 4, hashes := q3.hashes[4 := "h4"]);
    QuietBlock(AfterFirstPoll, 2, "h2");
    QuietBlock(q2, 3, "h3");
    QuietBlock(q3, 4, "h4");
    assert ProcessRange(TestCfg, q4, Chain4, TestStore, 5, 4) == (q4, Pass);
    assert ProcessRange(TestCfg, q3, Chain4, TestStore, 4, 4) == (q4, Pass);
    assert ProcessRange(TestCfg, q2, Chain4, TestStore, 3, 4) == (q4, Pass);
    assert q4 == AfterBlock4;
  }

  /** Once blocks 2 .. 4 exist, the second poll's sweep at head 4 emits the
      transfer confirmed and clears the ledger. */
  lemma ConfirmationSecondPoll()
    ensures IsSweepOrder(TestCfg, AfterFirstPoll, Chain4, TestStore, [1])
    ensures PollStep(TestCfg, AfterFirstPoll, Chain4, TestStore, [1])
         == (AfterBlock4.(pending := map[], emitted := [ConfirmEvent, ConfirmEvent.(confirmed := true)]), Pass)
  {
    ConfirmationQuietBlocks();
    assert Eligible(AfterBlock4.pending, 3, 4) == {1};
    assert AllConfirmed([ConfirmEvent]) == [ConfirmEvent.(confirmed := true)];
    assert [1][..0] == [];
    assert ConfirmBlocks(AfterBlock4, [1]) == ConfirmBlock(AfterBlock4, 1);
    assert AfterBlock4.pending - {1} == map[];
    assert ConfirmBlock(AfterBlock4, 1)
        == AfterBlock4.(pending := map[], emitted := [ConfirmEvent, ConfirmEvent.(confirmed := true)]);
    assert IsEnumeration([1], {1});
  }

  /** With the cursor moved back but block 1 unchanged, reprocessing block 1
      finds the same hash, so no reorganisation is detected: the transfer is
      recorded and emitted fresh a second time. */
  lemma RewindSameHashRepeats()
    ensures ProcessBlockStep(TestCfg, AfterFirstPoll.(lastBlock := 0), 1, Ok(ConfirmBlock1), TestListing)
         == (State(1, map[1 := "h1"], map[1 := [ConfirmEvent, ConfirmEvent]], [ConfirmEvent, ConfirmEvent]), Pass)
  {
    var rewound := AfterFirstPoll.(lastBlock := 0);
    assert !ReorgDetected(rewound, 1, "h1");
    assert Matches(TestCfg, 1, [ConfirmTx], {"0xaddr"}) == [ConfirmEvent];
    var recorded := Record(rewound, 3, 1, "h1");
    assert recorded == AfterFirstPoll;
    assert Lookup(recorded.pending, 1) + [ConfirmEvent] == [ConfirmEvent, ConfirmEvent];
    assert ReorgRepaired(rewound, 1, "h1") == rewound;
    var after := AddMatches(recorded, 1, [ConfirmEvent]);
    assert after == State(1, map[1 := "h1"], map[1 := [ConfirmEvent, ConfirmEvent]], [ConfirmEvent, ConfirmEvent]);
    assert ProcessBlockStep(TestCfg, rewound, 1, Ok(ConfirmBlock1), TestListing) == (after, Pass);
  }

  /** Block 1 of the reorganisation test, first as mined and then as
      replaced by a block with another hash and another transfer. */
  const OriginalBlock1 := BlockData(1, "h1-original", [ConfirmTx])
  const ReplacingTx := BlockTx("tx1-new", "0xsender", "0xaddr", 200)
  const ReplacingBlock1 := BlockData(1, "h1-reorged", [ReplacingTx])
  const ReplacingEvent := BlockEvent(NetworkETH, 1, "tx1-new", "0xsender", "0xaddr", 200, false, false)

  /** The state after the first poll of the reorganisation test, with the
      cursor moved back to 0 as the test does. */
  const Rewound := State(0, map[1 := "h1-original"], map[1 := [ConfirmEvent]], [ConfirmEvent])

  /** The first poll of the reorganisation test emits the original
      transfer, not reorged, and keeps it pending. */
  lemma ReorgFirstPoll()
    ensures IsSweepOrder(TestCfg, Initial, Fetcher(Ok(1), map[1 := OriginalBlock1]), TestStore, [])
    ensures PollStep(TestCfg, Initial, Fetcher(Ok(1), map[1 := OriginalBlock1]), TestStore, [])
         == (Rewound.(lastBlock := 1), Pass)
  {
    assert Matches(TestCfg, 1, [ConfirmTx], {"0xaddr"}) == [ConfirmEvent];
    assert Eligible(Rewound.pending, 3, 1) == {};
  }

  /** Refetching block 1 with its new hash retracts the original transfer
      and deletes block 1's ledger entry and hash. */
  lemma ReorgRetractsOriginal()
    ensures ReorgDetected(Rewound, 1, "h1-reorged")
    ensures ReorgRepaired(Rewound, 1, "h1-reorged")
         == State(0, map[], map[], [ConfirmEvent, ConfirmEvent.(reorged := true)])
  {
    assert MaxKey(Rewound.hashes.Keys) == 1;
    assert RetractRange(Rewound, 1, 1) == Rewound;
  }

  /** The second poll emits the original transfer reorged and then the
      replacing transfer fresh, which is now the only pending event, and
      block 1's hash is the new one. */
  lemma ReorgSecondPoll()
    ensures IsSweepOrder(TestCfg, Rewound, Fetcher(Ok(1), map[1 := ReplacingBlock1]), TestStore, [])
    ensures PollStep(TestCfg, Rewound, Fetcher(Ok(1), map[1 := ReplacingBlock1]), TestStore, [])
         == (State(1, map[1 := "h1-reorged"], map[1 := [ReplacingEvent]],
                   [ConfirmEvent, ConfirmEvent.(reorged := true), ReplacingEvent]), Pass)
  {
    ReorgRetractsOriginal();
    var repaired := State(0, map[], map[], [ConfirmEvent, ConfirmEvent.(reorged := true)]);
    var recorded := Record(repaired, 3, 1, "h1-reorged");
    assert recorded == State(1, map[1 := "h1-reorged"], map[], repaired.emitted);
    assert Matches(TestCfg, 1, [ReplacingTx], {"0xaddr"}) == [ReplacingEvent];
    var after := AddMatches(recorded, 1, [ReplacingEvent]);
    assert after == State(1, map[1 := "h1-reorged"], map[1 := [ReplacingEvent]], repaired.emitted + [ReplacingEvent]);
    var chain := Fetcher(Ok(1), map[1 := ReplacingBlock1]);
    assert GetBlock(chain, 1) == Ok(ReplacingBlock1);
    assert ProcessBlockStep(TestCfg, Rewound, 1, Ok(ReplacingBlock1), TestListing) == (after, Pass);
    assert ProcessRange(TestCfg, after, chain, TestStore, 2, 1) == (after, Pass);
    assert PollBlocks(TestCfg, Rewound, chain, TestStore) == (after, Pass);
    assert Eligible(map[1 := [ReplacingEvent]], 3, 1) == {};
    assert ConfirmBlocks(after, []) == after;
    assert repaired.emitted + [ReplacingEvent] == [ConfirmEvent, ConfirmEvent.(reorged := true), ReplacingEvent];
    assert IsEnumeration([], Eligible(after.pending, 3, 1));
  }
}
