/** The polling block listener as a pure state machine.

    A listener keeps a cursor (the last processed block), a window of recent
    block hashes used to detect chain reorganisations, a ledger of pending
    (not yet confirmed) events per block, and the stream of events it has
    emitted so far. `ProcessBlockStep`, `RetractRange`, `ConfirmBlocks` and
    `PollStep` say what one call of processBlock, handleReorg,
    checkConfirmations and poll does to that state; the class in module
    `Listener` is proved to follow them, and the lemmas below prove the
    listener's promises about them. */
module ListenerModel {
  import opened Models

  /** The confirmation depth used when none (0) is configured. */
  const DefaultConfirmationDepth: nat := 12

  /** The depth a listener works with, given the configured one. */
  function EffectiveDepth(configured: nat): (depth: nat)
    ensures depth > 0
    ensures configured != 0 ==> depth == configured
    ensures configured == 0 ==> depth == DefaultConfirmationDepth
  {
    if configured == 0 then DefaultConfirmationDepth else configured
  }

  /** What a listener is configured with: its network and its depth. */
  datatype Config = Config(network: Network, depth: nat)

  // ----- What the block fetcher returns -----

  datatype BlockTx = BlockTx(hash: string, from: string, to: string, amount: int)

  datatype BlockData = BlockData(number: nat, hash: string, txs: seq<BlockTx>)

  /** The chain as the fetcher sees it during one poll: the head height (or
      the error the head query returns), and the blocks it can deliver; a
      block number it has no block for makes GetBlock fail. */
  datatype Fetcher = Fetcher(head: Result<nat, string>, blocks: map<nat, BlockData>)

  function GetBlock(chain: Fetcher, number: nat): Result<BlockData, string> {
    if number in chain.blocks then Ok(chain.blocks[number]) else Err("block not available")
  }

  /** Errors of the listener and of the manager. */
  datatype Error =
    | LatestBlockFailed(cause: string)
    | GetBlockFailed(number: nat, cause: string)
    | ListWatchedFailed(number: nat, cause: string)
    | WatchStoreFailed(cause: string)
    | UnregisteredNetwork(network: Network)

  // ----- State -----

  /** The listener's state: `lastBlock` is the cursor, `hashes` the window of
      block hashes, `pending` the ledger and `emitted` everything sent on the
      event channel, oldest first. */
  datatype State = State(
    lastBlock: nat,
    hashes: map<nat, string>,
    pending: map<nat, seq<BlockEvent>>,
    emitted: seq<BlockEvent>)

  /** A freshly constructed listener. */
  const Initial: State := State(0, map[], map[], [])

  /** The pending events of block `b` (none if it has no ledger entry). */
  function Lookup(pending: map<nat, seq<BlockEvent>>, b: nat): seq<BlockEvent> {
    if b in pending then pending[b] else []
  }

  // ----- Events -----

  /** The event a watched transaction of block `number` produces. */
  function NewEvent(cfg: Config, number: nat, tx: BlockTx): BlockEvent {
    BlockEvent(cfg.network, number, tx.hash, tx.from, tx.to, tx.amount, false, false)
  }

  /** The retraction of an event after a reorganisation. */
  function AsReorged(e: BlockEvent): BlockEvent {
    e.(reorged := true, confirmed := false)
  }

  /** The promotion of an event once it is deep enough. */
  function AsConfirmed(e: BlockEvent): BlockEvent {
    e.(confirmed := true)
  }

  /** A fresh event: neither confirmed nor reorged. */
  predicate IsFresh(e: BlockEvent) {
    !e.confirmed && !e.reorged
  }

  /** Every event of `evs`, retracted, in order. */
  function AllReorged(evs: seq<BlockEvent>): (r: seq<BlockEvent>)
    ensures |r| == |evs|
    ensures forall i :: 0 <= i < |evs| ==> r[i] == AsReorged(evs[i])
  {
    if evs == [] then [] else AllReorged(evs[..|evs| - 1]) + [AsReorged(evs[|evs| - 1])]
  }

  /** Every event of `evs`, confirmed, in order. */
  function AllConfirmed(evs: seq<BlockEvent>): (r: seq<BlockEvent>)
    ensures |r| == |evs|
    ensures forall i :: 0 <= i < |evs| ==> r[i] == AsConfirmed(evs[i])
  {
    if evs == [] then [] else AllConfirmed(evs[..|evs| - 1]) + [AsConfirmed(evs[|evs| - 1])]
  }

  // ----- Transaction matching -----

  /** A transaction concerns the watch set if its recipient or its sender is
      watched. */
  predicate IsWatched(tx: BlockTx, watched: set<string>) {
    tx.to in watched || tx.from in watched
  }

  /** The events the transactions `txs` of block `number` produce, in
      transaction order. */
  function Matches(cfg: Config, number: nat, txs: seq<BlockTx>, watched: set<string>): seq<BlockEvent>
    decreases |txs|
  {
    if txs == [] then []
    else
      var last := txs[|txs| - 1];
      Matches(cfg, number, txs[..|txs| - 1], watched)
        + (if IsWatched(last, watched) then [NewEvent(cfg, number, last)] else [])
  }

  /** The positions of the watched transactions of `txs`, ascending. */
  function MatchIndices(txs: seq<BlockTx>, watched: set<string>): (idx: seq<nat>)
    ensures forall j :: 0 <= j < |idx| ==> idx[j] < |txs|
    decreases |txs|
  {
    if txs == [] then []
    else
      MatchIndices(txs[..|txs| - 1], watched)
        + (if IsWatched(txs[|txs| - 1], watched) then [|txs| - 1] else [])
  }

  // ----- Hash window -----

  /** The highest block number in a finite set (0 for the empty set). */
  ghost function MaxKey(keys: set<nat>): (m: nat)
    ensures forall k :: k in keys ==> k <= m
    ensures keys != {} ==> m in keys
    ensures keys == {} ==> m == 0
    decreases keys
  {
    if keys == {} then 0
    else
      var k :| k in keys;
      var rest := MaxKey(keys - {k});
      assert forall j :: j in keys ==> j == k || j in keys - {k};
      if k >= rest then k else rest
  }

  /** A stored hash for `number` that differs from the fetched one. */
  predicate ReorgDetected(s: State, number: nat, hash: string) {
    number in s.hashes && s.hashes[number] != hash
  }

  // ----- handleReorg -----

  /** Retracts the ledger entry of block `b`, if any: its events are emitted
      reorged, then the entry and the block's hash are deleted. */
  function RetractBlock(s: State, b: nat): State {
    if b in s.pending then
      State(s.lastBlock, s.hashes - {b}, s.pending - {b}, s.emitted + AllReorged(s.pending[b]))
    else s
  }

  /** handleReorg(lo, hi - 1): retracts blocks lo, lo + 1, ..., hi - 1 in
      ascending order. */
  function RetractRange(s: State, lo: nat, hi: nat): State
    decreases hi
  {
    if hi <= lo then s else RetractBlock(RetractRange(s, lo, hi - 1), hi - 1)
  }

  /** The events handleReorg(lo, hi - 1) emits for ledger `pending`. */
  function RetractedEvents(pending: map<nat, seq<BlockEvent>>, lo: nat, hi: nat): seq<BlockEvent>
    decreases hi
  {
    if hi <= lo then []
    else RetractedEvents(pending, lo, hi - 1) + AllReorged(Lookup(pending, hi - 1))
  }

  // ----- processBlock -----

  /** Records `hash` for `number`, moves the cursor to `number` and prunes
      the hash that has just left the window. */
  function Record(s: State, depth: nat, number: nat, hash: string): State {
    var h := s.hashes[number := hash];
    s.(lastBlock := number,
       hashes := if number > depth + 1 then h - {number - depth - 1} else h)
  }

  /** Appends the matches `ms` of block `number` to its ledger entry and to
      the event stream (no entry is created when there are none). */
  function AddMatches(s: State, number: nat, ms: seq<BlockEvent>): State {
    if ms == [] then s
    else s.(pending := s.pending[number := Lookup(s.pending, number) + ms],
            emitted := s.emitted + ms)
  }

  /** The state before recording: retracted from `number` up to the highest
      stored block when a reorganisation is detected. */
  ghost function ReorgRepaired(s: State, number: nat, hash: string): State {
    if ReorgDetected(s, number, hash) then RetractRange(s, number, MaxKey(s.hashes.Keys) + 1) else s
  }

  /** processBlock(number), given what GetBlock(number) and the watch store's
      List return. */
  ghost function ProcessBlockStep(cfg: Config, s: State, number: nat,
                            fetched: Result<BlockData, string>,
                            listing: Result<set<string>, string>): (State, Outcome<Error>)
  {
    match fetched
    case Err(cause) => (s, Fail(GetBlockFailed(number, cause)))
    case Ok(block) =>
      var recorded := Record(ReorgRepaired(s, number, block.hash), cfg.depth, number, block.hash);
      match listing
      case Err(cause) => (recorded, Fail(ListWatchedFailed(number, cause)))
      case Ok(watched) => (AddMatches(recorded, number, Matches(cfg, number, block.txs, watched)), Pass)
  }

  // ----- checkConfirmations -----

  /** The ledger entries deep enough at head `current`. */
  function Eligible(pending: map<nat, seq<BlockEvent>>, depth: nat, current: nat): set<nat> {
    set b | b in pending && current >= b + depth
  }

  /** `order` lists each block of `keys` exactly once. */
  ghost predicate IsEnumeration(order: seq<nat>, keys: set<nat>) {
    Distinct(order) && forall b :: b in order <==> b in keys
  }

  /** Promotes the ledger entry of block `b`, if any: its events are emitted
      confirmed and the entry is deleted. */
  function ConfirmBlock(s: State, b: nat): State {
    if b in s.pending then
      s.(pending := s.pending - {b}, emitted := s.emitted + AllConfirmed(s.pending[b]))
    else s
  }

  /** checkConfirmations, when it visits the eligible blocks in `order` (the
      source iterates over a Go map, so the order is not fixed). */
  function ConfirmBlocks(s: State, order: seq<nat>): State
    decreases |order|
  {
    if order == [] then s
    else ConfirmBlock(ConfirmBlocks(s, order[..|order| - 1]), order[|order| - 1])
  }

  /** The events checkConfirmations emits for ledger `pending` and `order`. */
  function ConfirmedEvents(pending: map<nat, seq<BlockEvent>>, order: seq<nat>): seq<BlockEvent>
    decreases |order|
  {
    if order == [] then []
    else ConfirmedEvents(pending, order[..|order| - 1]) + AllConfirmed(Lookup(pending, order[|order| - 1]))
  }

  // ----- poll -----

  /** What the watch store's List returns while a poll runs: processBlock
      lists the watch store anew for every block, so the result may differ
      from block to block (`byBlock`), and is `otherwise` for the others. */
  datatype Listing = Listing(otherwise: Result<set<string>, string>,
                             byBlock: map<nat, Result<set<string>, string>>)

  /** What List returns when block `n` is processed. */
  function ListAt(listing: Listing, n: nat): Result<set<string>, string> {
    if n in listing.byBlock then listing.byBlock[n] else listing.otherwise
  }

  /** A watch store whose List always returns `r`, as the in-memory store
      does with `Ok` of its set. */
  function FixedListing(r: Result<set<string>, string>): Listing {
    Listing(r, map[])
  }

  /** Processes blocks num, num + 1, ..., latest, stopping at the first
      failure. */
  ghost function ProcessRange(cfg: Config, s: State, chain: Fetcher, listing: Listing,
                        num: nat, latest: nat): (State, Outcome<Error>)
    decreases latest + 1 - num
  {
    if num > latest then (s, Pass)
    else
      var step := ProcessBlockStep(cfg, s, num, GetBlock(chain, num), ListAt(listing, num));
      if step.1.Fail? then step
      else ProcessRange(cfg, step.0, chain, listing, num + 1, latest)
  }

  /** One step of ProcessRange: block `num` is processed with the listing
      of its own number, then the range goes on unless that failed. */
  lemma ProcessRangeNext(cfg: Config, s: State, chain: Fetcher, listing: Listing, num: nat, latest: nat,
                         s1: State, out: Outcome<Error>)
    requires num <= latest
    requires (s1, out) == ProcessBlockStep(cfg, s, num, GetBlock(chain, num), ListAt(listing, num))
    ensures out.Fail? ==> ProcessRange(cfg, s, chain, listing, num, latest) == (s1, out)
    ensures out.Pass? ==> ProcessRange(cfg, s, chain, listing, num, latest)
                          == ProcessRange(cfg, s1, chain, listing, num + 1, latest)
  {
  }

  /** The part of poll before the confirmation sweep. */
  ghost function PollBlocks(cfg: Config, s: State, chain: Fetcher, listing: Listing)
    : (State, Outcome<Error>)
  {
    match chain.head
    case Err(cause) => (s, Fail(LatestBlockFailed(cause)))
    case Ok(latest) => ProcessRange(cfg, s, chain, listing, s.lastBlock + 1, latest)
  }

  /** The orders in which the sweep of a poll may visit the eligible blocks. */
  ghost predicate IsSweepOrder(cfg: Config, s: State, chain: Fetcher,
                               listing: Listing, order: seq<nat>)
  {
    var blocks := PollBlocks(cfg, s, chain, listing);
    blocks.1.Pass? && chain.head.Ok? ==>
      IsEnumeration(order, Eligible(blocks.0.pending, cfg.depth, chain.head.value))
  }

  /** poll: process the new blocks, then, if nothing failed, sweep the
      ledger for confirmations in `order`. */
  ghost function PollStep(cfg: Config, s: State, chain: Fetcher, listing: Listing,
                    order: seq<nat>): (State, Outcome<Error>)
  {
    var blocks := PollBlocks(cfg, s, chain, listing);
    if blocks.1.Fail? then blocks else (ConfirmBlocks(blocks.0, order), Pass)
  }

  // ----- Closed forms of the iterated steps -----

  /** handleReorg(lo, hi - 1) keeps the cursor and deletes the ledger
      entries of blocks lo .. hi - 1. */
  lemma {:induction false} RetractRangePending(s: State, lo: nat, hi: nat)
    ensures RetractRange(s, lo, hi).lastBlock == s.lastBlock
    ensures RetractRange(s, lo, hi).pending == (map b | b in s.pending && !(lo <= b < hi) :: s.pending[b])
    decreases hi
  {
    if hi > lo {
      RetractRangePending(s, lo, hi - 1);
    }
  }

  /** handleReorg(lo, hi - 1) deletes the hashes of exactly those blocks of
      lo .. hi - 1 that had a ledger entry. */
  lemma {:induction false} RetractRangeHashes(s: State, lo: nat, hi: nat)
    ensures RetractRange(s, lo, hi).hashes
         == (map b | b in s.hashes && !(lo <= b < hi && b in s.pending) :: s.hashes[b])
    decreases hi
  {
    if hi > lo {
      RetractRangeHashes(s, lo, hi - 1);
      RetractRangePending(s, lo, hi - 1);
      var r1 := RetractRange(s, lo, hi - 1);
      assert hi - 1 in r1.pending <==> hi - 1 in s.pending;
    }
  }

  /** handleReorg(lo, hi - 1) emits `RetractedEvents` and nothing else. */
  lemma {:induction false} RetractRangeEmitted(s: State, lo: nat, hi: nat)
    ensures RetractRange(s, lo, hi).emitted == s.emitted + RetractedEvents(s.pending, lo, hi)
    decreases hi
  {
    if hi > lo {
      RetractRangeEmitted(s, lo, hi - 1);
      RetractRangePending(s, lo, hi - 1);
      var r1 := RetractRange(s, lo, hi - 1);
      assert Lookup(r1.pending, hi - 1) == Lookup(s.pending, hi - 1);
    }
  }

  /** checkConfirmations in `order` deletes the ledger entries of the blocks
      of `order`, keeps the cursor and the hashes, and, when no block is
      visited twice, emits `ConfirmedEvents`. */
  lemma {:induction false} ConfirmBlocksEffect(s: State, order: seq<nat>)
    ensures ConfirmBlocks(s, order).lastBlock == s.lastBlock
    ensures ConfirmBlocks(s, order).hashes == s.hashes
    ensures ConfirmBlocks(s, order).pending == (map b | b in s.pending && b !in order :: s.pending[b])
    ensures Distinct(order) ==> ConfirmBlocks(s, order).emitted == s.emitted + ConfirmedEvents(s.pending, order)
    decreases |order|
  {
    if order != [] {
      var init := order[..|order| - 1];
      var b := order[|order| - 1];
      ConfirmBlocksEffect(s, init);
      assert forall x :: x in order <==> x in init || x == b;
      if Distinct(order) {
        assert Distinct(init);
        assert b !in init;
        var r1 := ConfirmBlocks(s, init);
        assert Lookup(r1.pending, b) == Lookup(s.pending, b);
      }
    }
  }

  /** A block not yet visited keeps its ledger entry. */
  lemma ConfirmBlocksKeepsUnvisited(s: State, order: seq<nat>, b: nat)
    requires b in s.pending && b !in order
    ensures b in ConfirmBlocks(s, order).pending
    ensures ConfirmBlocks(s, order).pending[b] == s.pending[b]
  {
    ConfirmBlocksEffect(s, order);
  }

  /** Appending matches in two batches is appending them in one. */
  lemma AddMatchesAppend(s: State, number: nat, ms: seq<BlockEvent>, more: seq<BlockEvent>)
    ensures AddMatches(AddMatches(s, number, ms), number, more) == AddMatches(s, number, ms + more)
  {
    if ms != [] && more != [] {
      assert Lookup(s.pending, number) + ms + more == Lookup(s.pending, number) + (ms + more);
      assert s.emitted + ms + more == s.emitted + (ms + more);
    } else if ms == [] {
      assert ms + more == more;
    } else {
      assert ms + more == ms;
    }
  }
}
