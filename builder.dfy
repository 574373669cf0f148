/** The transaction builder: idempotent sends with per-address nonces, a
    fee table, pluggable signers and a bounded broadcast retry. `SendStep`
    is the reference definition of one send over the contents of the two
    stores; the `Builder` class performs it on the stores in place. */
module Tx {
  import opened Models
  import Storage

  /** The retry bound NewBuilder uses when none (or a non-positive one) is
      configured. */
  const DefaultMaxRetries: int := 3

  /** NewBuilder's retry bound: positive values are kept, the others
      replaced by the default. */
  function EffectiveMaxRetries(configured: int): (n: int)
    ensures n >= 1
    ensures configured > 0 ==> n == configured
    ensures configured <= 0 ==> n == DefaultMaxRetries
  {
    if configured <= 0 then DefaultMaxRetries else configured
  }

  /** Builder configuration; `fees == None` stands for a nil fee map. */
  datatype BuilderConfig = BuilderConfig(maxRetries: int, fees: Option<map<Network, int>>)

  /** A request to send a transaction. */
  datatype SendRequest = SendRequest(
    idempotencyKey: string,
    network: Network,
    from: string,
    to: string,
    amount: int,
    data: Bytes,
    privateKey: Bytes)

  /** A transaction signer: the signed transaction, or the reason signing
      failed. Signing itself (HSM, key derivation, curves) is not modelled. */
  datatype Signer = Signer(sign: (Transaction, Bytes) -> Result<Transaction, string>)

  /** Why a send failed. */
  datatype Error =
    | TxStoreGetFailed(cause: Storage.StoreError)
    | NonceStoreFailed(cause: Storage.StoreError)
    | NoSigner(network: Network)
    | SignFailed(cause: string)
    | BroadcastFailed(attempts: int)
    | TxStorePutFailed(cause: Storage.StoreError)

  /** estimateFee: the configured fee of `network`, or 0 if it has none. */
  function EstimateFee(fees: map<Network, int>, network: Network): (fee: int)
    ensures network in fees ==> fee == fees[network]
    ensures network !in fees ==> fee == 0
  {
    if network in fees then fees[network] else 0
  }

  /** The unsigned transaction Send builds for `req` with nonce `nonce`
      and fee `fee`. */
  function Build(req: SendRequest, nonce: nat, fee: int): Transaction {
    Transaction(req.network, req.from, req.to, req.amount, fee, nonce, req.data, false, "", [])
  }

  // ----- Broadcasting -----

  /** Some attempt among 1 .. maxRetries is accepted. */
  ghost predicate SomeAttemptAccepted(maxRetries: int, accepted: nat -> bool) {
    exists k: nat :: 1 <= k <= maxRetries && accepted(k)
  }

  /** broadcastWithRetry: tries attempts 1, 2, ..., maxRetries and stops at
      the first one `accepted` admits. It succeeds exactly when some attempt
      within the bound is accepted, after exactly the first accepted attempt;
      otherwise it fails after every attempt of the bound (none if the bound
      is not positive). */
  method BroadcastWithRetry(maxRetries: int, accepted: nat -> bool) returns (r: Outcome<Error>, attempts: nat)
    ensures r.Pass? <==> SomeAttemptAccepted(maxRetries, accepted)
    ensures r.Pass? ==> 1 <= attempts <= maxRetries && accepted(attempts)
    ensures r.Pass? ==> forall k: nat :: 1 <= k < attempts ==> !accepted(k)
    ensures r.Fail? ==> r == Fail(BroadcastFailed(maxRetries)) && attempts == (if maxRetries > 0 then maxRetries else 0)
  {
    attempts := 0;
    var attempt: nat := 1;
    while attempt <= maxRetries
      invariant 1 <= attempt
      invariant attempt <= maxRetries + 1 || attempt == 1
      invariant attempts == attempt - 1
      invariant forall k: nat :: 1 <= k < attempt ==> !accepted(k)
      decreases maxRetries + 1 - attempt
    {
      attempts := attempt;
      if accepted(attempt) {
        return Pass, attempts;
      }
      attempt := attempt + 1;
    }
    r := Fail(BroadcastFailed(maxRetries));
  }

  /** The broadcast stub Send uses: every attempt is accepted. */
  function AlwaysAccepted(attempt: nat): bool {
    true
  }

  // ----- Send over the stores' contents -----

  /** The contents of the transaction store and the nonce store. */
  datatype Stores = Stores(txs: map<string, Transaction>, nonces: map<string, nat>)

  /** Send, on stores with contents `st`, with the source's broadcast stub:
      the result and the new contents of the stores. */
  function SendStep(signers: map<Network, Signer>, fees: map<Network, int>, maxRetries: int,
                    st: Stores, req: SendRequest): (Result<Transaction, Error>, Stores)
  {
    if req.idempotencyKey in st.txs then (Ok(st.txs[req.idempotencyKey]), st)
    else
      var nonce := Storage.Counter(st.nonces, req.from);
      var consumed := st.(nonces := st.nonces[req.from := nonce + 1]);
      var tx := Build(req, nonce, EstimateFee(fees, req.network));
      if req.network !in signers then (Err(NoSigner(req.network)), consumed)
      else
        match signers[req.network].sign(tx, req.privateKey)
        case Err(cause) => (Err(SignFailed(cause)), consumed)
        case Ok(signed) =>
          if maxRetries < 1 then (Err(BroadcastFailed(maxRetries)), consumed)
          else (Ok(signed), consumed.(txs := st.txs[req.idempotencyKey := signed]))
  }

  /** A signer that only adds the signature: the signed transaction keeps
      every built field. */
  ghost predicate KeepsFields(signer: Signer) {
    forall tx, key :: signer.sign(tx, key).Ok? ==>
      var s := signer.sign(tx, key).value;
      s.network == tx.network && s.from == tx.from && s.to == tx.to && s.amount == tx.amount
      && s.fee == tx.fee && s.nonce == tx.nonce && s.data == tx.data
  }

  /** A repeated key returns the stored transaction and leaves both stores
      as they were, whatever the rest of the request says; in particular a
      send that succeeded is returned again by the next send with its key
      (`EveryLaterSend` extends this to any later send). */
  lemma SendIsIdempotent(signers: map<Network, Signer>, fees: map<Network, int>, maxRetries: int,
                         st: Stores, req: SendRequest, again: SendRequest)
    requires again.idempotencyKey == req.idempotencyKey
    ensures var (r, st1) := SendStep(signers, fees, maxRetries, st, req);
            && (req.idempotencyKey in st.txs ==> r == Ok(st.txs[req.idempotencyKey]) && st1 == st)
            && (r.Ok? ==> SendStep(signers, fees, maxRetries, st1, again) == (r, st1))
  {
  }

  /** A new key always consumes exactly one nonce of the sender, even when
      the send then fails; only a successful send stores a transaction, and
      it stores the signed transaction under the key, leaving every other
      key as it was. */
  lemma SendNewKey(signers: map<Network, Signer>, fees: map<Network, int>, maxRetries: int,
                   st: Stores, req: SendRequest)
    requires req.idempotencyKey !in st.txs
    ensures var (r, st1) := SendStep(signers, fees, maxRetries, st, req);
            && st1.nonces == st.nonces[req.from := Storage.Counter(st.nonces, req.from) + 1]
            && (r.Err? ==> st1.txs == st.txs)
            && (r.Ok? ==> st1.txs == st.txs[req.idempotencyKey := r.value])
            && (req.network !in signers ==> r == Err(NoSigner(req.network)))
            && (r.Ok? ==>
                  && req.network in signers
                  && signers[req.network].sign(Build(req, Storage.Counter(st.nonces, req.from),
                                                     EstimateFee(fees, req.network)), req.privateKey) == Ok(r.value))
  {
  }

  /** With a signer that keeps the built fields, a successful new-key send
      returns a transaction carrying the sender's counter as its nonce, the
      configured fee of its network (0 if none), and the request's network,
      addresses, amount and call data. */
  lemma SendBuildsFromRequest(signers: map<Network, Signer>, fees: map<Network, int>, maxRetries: int,
                              st: Stores, req: SendRequest)
    requires req.idempotencyKey !in st.txs
    requires req.network in signers ==> KeepsFields(signers[req.network])
    ensures var r := SendStep(signers, fees, maxRetries, st, req).0;
            r.Ok? ==>
              && r.value.nonce == Storage.Counter(st.nonces, req.from)
              && r.value.fee == EstimateFee(fees, req.network)
              && r.value.network == req.network && r.value.from == req.from && r.value.to == req.to
              && r.value.amount == req.amount && r.value.data == req.data
  {
  }

  /** With a positive retry bound (which NewBuilder guarantees) a send never
      fails in broadcasting: the stub accepts the first attempt. */
  lemma SendNeverFailsBroadcast(signers: map<Network, Signer>, fees: map<Network, int>, maxRetries: int,
                                st: Stores, req: SendRequest)
    requires maxRetries >= 1
    ensures !SendStep(signers, fees, maxRetries, st, req).0.Err?
         || !SendStep(signers, fees, maxRetries, st, req).0.error.BroadcastFailed?
  {
  }

  /** Two sends with new keys from the same address advance its counter by
      two, whatever the signers do and whether or not the first one
      succeeded; with signers that keep the built fields, two successful
      sends carry consecutive nonces. */
  lemma ConsecutiveSendNonces(signers: map<Network, Signer>, fees: map<Network, int>, maxRetries: int,
                              st: Stores, req1: SendRequest, req2: SendRequest)
    requires req1.from == req2.from
    requires req1.idempotencyKey !in st.txs
    requires req2.idempotencyKey !in SendStep(signers, fees, maxRetries, st, req1).1.txs
    ensures var (r1, st1) := SendStep(signers, fees, maxRetries, st, req1);
            var (r2, st2) := SendStep(signers, fees, maxRetries, st1, req2);
            && Storage.Counter(st2.nonces, req1.from) == Storage.Counter(st.nonces, req1.from) + 2
            && (r1.Ok? && r2.Ok? && KeepsFields(signers[req1.network]) && KeepsFields(signers[req2.network]) ==>
                  r2.value.nonce == r1.value.nonce + 1)
  {
  }

  /** A send never changes nor removes a transaction already stored under a
      key. */
  lemma SendKeepsStored(signers: map<Network, Signer>, fees: map<Network, int>, maxRetries: int,
                        st: Stores, req: SendRequest, key: string)
    requires key in st.txs
    ensures var st1 := SendStep(signers, fees, maxRetries, st, req).1;
            key in st1.txs && st1.txs[key] == st.txs[key]
  {
  }

  /** The stores after the sends `reqs`, made in order. */
  function SendAll(signers: map<Network, Signer>, fees: map<Network, int>, maxRetries: int,
                   st: Stores, reqs: seq<SendRequest>): Stores
    decreases |reqs|
  {
    if reqs == [] then st
    else SendStep(signers, fees, maxRetries, SendAll(signers, fees, maxRetries, st, reqs[..|reqs| - 1]),
                  reqs[|reqs| - 1]).1
  }

  /** Any sequence of sends keeps every stored transaction. */
  lemma {:induction false} SendAllKeepsStored(signers: map<Network, Signer>, fees: map<Network, int>,
                                              maxRetries: int, st: Stores, reqs: seq<SendRequest>, key: string)
    requires key in st.txs
    ensures var st1 := SendAll(signers, fees, maxRetries, st, reqs);
            key in st1.txs && st1.txs[key] == st.txs[key]
    decreases |reqs|
  {
    if reqs != [] {
      var init := reqs[..|reqs| - 1];
      SendAllKeepsStored(signers, fees, maxRetries, st, init, key);
      SendKeepsStored(signers, fees, maxRetries, SendAll(signers, fees, maxRetries, st, init),
                      reqs[|reqs| - 1], key);
    }
  }

  /** A send that succeeded is returned again, with both stores unchanged,
      by a send with its key made after any sequence of other sends. */
  lemma EveryLaterSend(signers: map<Network, Signer>, fees: map<Network, int>, maxRetries: int,
                       st: Stores, req: SendRequest, between: seq<SendRequest>, again: SendRequest)
    requires again.idempotencyKey == req.idempotencyKey
    ensures var (r, st1) := SendStep(signers, fees, maxRetries, st, req);
            var later := SendAll(signers, fees, maxRetries, st1, between);
            r.Ok? ==> SendStep(signers, fees, maxRetries, later, again) == (r, later)
  {
    var (r, st1) := SendStep(signers, fees, maxRetries, st, req);
    if r.Ok? {
      assert req.idempotencyKey in st1.txs && st1.txs[req.idempotencyKey] == r.value;
      SendAllKeepsStored(signers, fees, maxRetries, st1, between, req.idempotencyKey);
    }
  }

  // ----- The builder -----

  /** The builder: the signer registry, the two stores and the defaulted
      configuration. */
  class Builder {
    var signers: map<Network, Signer>
    const nonceStore: Storage.MemoryNonceStore
    const txStore: Storage.MemoryTxStore
    const maxRetries: int
    const fees: map<Network, int>

    /** NewBuilder: a non-positive retry bound becomes 3, a nil fee map an
        empty one, and no signer is registered. */
    constructor (cfg: BuilderConfig, nonces: Storage.MemoryNonceStore, txs: Storage.MemoryTxStore)
      ensures maxRetries == EffectiveMaxRetries(cfg.maxRetries)
      ensures fees == (match cfg.fees case None => map[] case Some(m) => m)
      ensures signers == map[]
      ensures nonceStore == nonces && txStore == txs
    {
      maxRetries := if cfg.maxRetries <= 0 then DefaultMaxRetries else cfg.maxRetries;
      fees := match cfg.fees case None => map[] case Some(m) => m;
      signers := map[];
      nonceStore := nonces;
      txStore := txs;
    }

    /** Registers `signer` for `network`; the last registration wins. */
    method RegisterSigner(network: Network, signer: Signer)
      modifies this`signers
      ensures signers == old(signers)[network := signer]
    {
      signers := signers[network := signer];
    }

    /** Send: idempotency lookup, nonce, build, sign, broadcast, store. */
    method Send(req: SendRequest) returns (r: Result<Transaction, Error>)
      modifies nonceStore, txStore
      ensures (r, Stores(txStore.txs, nonceStore.nonces))
           == SendStep(signers, fees, maxRetries, Stores(old(txStore.txs), old(nonceStore.nonces)), req)
    {
      var existing, getErr := txStore.Get(req.idempotencyKey);
      match getErr {
        case Fail(cause) => return Err(TxStoreGetFailed(cause));
        case Pass =>
      }
      if existing.Some? {
        return Ok(existing.value);
      }

      var nonce, nonceErr := nonceStore.GetAndIncrement(req.from);
      match nonceErr {
        case Fail(cause) => return Err(NonceStoreFailed(cause));
        case Pass =>
      }
      var tx := Build(req, nonce, EstimateFee(fees, req.network));

      if req.network !in signers {
        return Err(NoSigner(req.network));
      }
      var signed := signers[req.network].sign(tx, req.privateKey);
      if signed.Err? {
        return Err(SignFailed(signed.error));
      }

      assert AlwaysAccepted(1);
      var broadcastErr, _ := BroadcastWithRetry(maxRetries, AlwaysAccepted);
      if broadcastErr.Fail? {
        return Err(broadcastErr.error);
      }

      var putErr := txStore.Put(req.idempotencyKey, signed.value);
      match putErr {
        case Fail(cause) => return Err(TxStorePutFailed(cause));
        case Pass =>
      }
      r := Ok(signed.value);
    }
  }

  // ----- Scenarios -----

  /** The signer of the builder tests: it sets the hash, the signed flag and
      the raw signature and keeps everything else. */
  function MockSign(tx: Transaction, key: Bytes): Result<Transaction, string> {
    Ok(tx.(txHash := "0xmockhash", signed := true, rawSigned := [0x73, 0x69, 0x67, 0x6e, 0x65, 0x64]))
  }

  /** The fee table of the builder tests. */
  const TestFees: map<Network, int> :=
    map[NetworkETH := 21_000 * 20_000_000_000, NetworkBTC := 10_000, NetworkTRX := 1_000_000]

  /** The mock signer keeps every built field. */
  lemma MockSignerKeepsFields()
    ensures KeepsFields(Signer(MockSign))
  {
    forall tx, key | Signer(MockSign).sign(tx, key).Ok?
      ensures var s := Signer(MockSign).sign(tx, key).value;
              s.network == tx.network && s.from == tx.from && s.to == tx.to && s.amount == tx.amount
              && s.fee == tx.fee && s.nonce == tx.nonce && s.data == tx.data
    {
    }
  }

  /** Three sends from one address with fresh stores and distinct keys get
      nonces 0, 1 and 2 and the configured ETH fee. */
  lemma NonceIncrementScenario()
    ensures var signers := map[NetworkETH := Signer(MockSign)];
            var st0 := Stores(map[], map[]);
            var req := (k: string) => SendRequest(k, NetworkETH, "0xaddr", "0xto", 100, [], [0x70, 0x6b]);
            var (r0, st1) := SendStep(signers, TestFees, 3, st0, req("nonce-0"));
            var (r1, st2) := SendStep(signers, TestFees, 3, st1, req("nonce-1"));
            var (r2, st3) := SendStep(signers, TestFees, 3, st2, req("nonce-2"));
            && r0.Ok? && r1.Ok? && r2.Ok?
            && r0.value.nonce == 0 && r1.value.nonce == 1 && r2.value.nonce == 2
            && r0.value.fee == 420_000_000_000_000
            && Storage.Counter(st3.nonces, "0xaddr") == 3
  {
  }

  /** Without a registered signer a send fails, stores nothing and still
      consumes the sender's nonce. */
  lemma NoSignerScenario()
    ensures var st0 := Stores(map[], map[]);
            var req := SendRequest("no-signer", NetworkETH, "0xfrom", "0xto", 100, [], [0x70, 0x6b]);
            var (r, st1) := SendStep(map[], map[], EffectiveMaxRetries(0), st0, req);
            && r == Err(NoSigner(NetworkETH))
            && st1.txs == map[]
            && Storage.Counter(st1.nonces, "0xfrom") == 1
  {
  }
}
