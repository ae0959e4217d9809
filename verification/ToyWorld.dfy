/**
 A small world and single steps in it, from which concrete runs are built: toy cryptography
 that meets `Ideal`, a wallet with one key and two coins, an offer without delay or
 confirmations, and a buyer whose key may be the wallet's or not.
 */
module ToyWorld {
  import opened Types
  import opened Interpreter
  import opened HtlcScript
  import opened Transaction
  import opened Chain
  import opened Funding
  import opened Records
  import opened Offer
  import opened Protocol

  const ZEROS: Hash20 := [0, 0, 0, 0, 0, 0, 0, 0, 0, 0, 0, 0, 0, 0, 0, 0, 0, 0, 0, 0]
  const ONES: Hash20 := [1, 1, 1, 1, 1, 1, 1, 1, 1, 1, 1, 1, 1, 1, 1, 1, 1, 1, 1, 1]
  const NO_KEY: Hash20 := [2, 2, 2, 2, 2, 2, 2, 2, 2, 2, 2, 2, 2, 2, 2, 2, 2, 2, 2, 2]
  const OUTSIDER: bytes := [9]
  const PREIMAGE: Hash32 :=
    [7, 7, 7, 7, 7, 7, 7, 7, 7, 7, 7, 7, 7, 7, 7, 7, 7, 7, 7, 7, 7, 7, 7, 7, 7, 7, 7, 7, 7, 7, 7, 7]
  const CFG: Config := Config([2], 1, 1000, 0, 600, 0, 1)

  /** The P2WPKH address of a key hash. */
  function Home(keyHash: Hash20): Address {
    Address(P2wpkhScript(keyHash), 0, [])
  }

  /**
   A world whose wallet has one key, with hash ZEROS, where a txid is just the version
   byte.
   */
  ghost predicate Toy(w: World) {
    && WorldOk(w)
    && (forall tx: Tx :: w.c.txid(tx) == [tx.version % 256])
    && (forall k: nat :: w.addressAt(k) == Home(ZEROS) && KeyHash(w, k) == ZEROS)
    && |w.c.sha256(PREIMAGE)| == 32
    && w.policyAsset == [1] && w.network == 0
  }

  /** The shape of the wallet's one public key. */
  predicate LooksOwned(key: bytes) {
    |key| == 33 && key[0] == 2
  }

  /** Hashes of keys the wallet does not have start with another byte. */
  ghost predicate OthersHashApart(w: World) {
    forall key: bytes :: !LooksOwned(key) ==> |w.c.hash160(key)| == 20 && w.c.hash160(key)[0] != 0
  }

  /** OUTSIDER is the secret of a key the wallet does not have, with hash ONES; signatures are one byte long. */
  ghost predicate HasOutsider(w: World) {
    && OthersHashApart(w)
    && w.c.hash160(w.c.pubkey(OUTSIDER)) == ONES
    && |w.c.pubkey(OUTSIDER)| == 33 && w.c.pubkey(OUTSIDER)[0] == 3
    && forall k: bytes, m: bytes :: |w.c.sign(k, m)| == 1
  }

  function ToyPubkey(secret: bytes): bytes {
    (if secret == OUTSIDER then [3] else [2]) + PREIMAGE
  }

  function ToyHash160(key: bytes): bytes {
    if key == ToyPubkey([]) then ZEROS else if key == ToyPubkey(OUTSIDER) then ONES else NO_KEY
  }

  lemma ToyKeys()
    ensures ToyHash160(ToyPubkey([])) == ZEROS && ToyHash160(ToyPubkey(OUTSIDER)) == ONES
    ensures forall key: bytes :: !LooksOwned(key) ==> |ToyHash160(key)| == 20 && ToyHash160(key)[0] != 0
    ensures forall k: bytes :: |ToyPubkey(k)| == 33
    ensures ToyPubkey(OUTSIDER)[0] == 3
  {
    assert ToyPubkey([])[0] == 2 && ToyPubkey(OUTSIDER)[0] == 3;
    assert ZEROS[0] == 0 && ONES[0] == 1 && NO_KEY[0] == 2;
  }

  lemma OutsiderExists() returns (w: World)
    ensures Toy(w) && HasOutsider(w)
  {
    ToyKeys();
    var home := Home(ZEROS);
    var c := Crypto(
      (b: bytes) => b,
      (b: bytes) => ToyHash160(b),
      (t: Tx) => [t.version % 256],
      (t: Tx, i: nat, s: bytes, v: u64, ty: byte) => [ty],
      (k: bytes, m: bytes) => [|m| % 256],
      (k: bytes, m: bytes, s: bytes) => s == [|m| % 256],
      (k: bytes) => ToyPubkey(k));
    w := World(c, (k: nat) => [], (k: nat) => home, [1], 0);
  }

  lemma ToyExists() returns (w: World)
    ensures Toy(w)
  {
    w := OutsiderExists();
  }

  function Hash(w: World): Hash32
    requires |w.c.sha256(PREIMAGE)| == 32
  {
    w.c.sha256(PREIMAGE)
  }

  // ----- the pieces

  const COIN: Tx := Tx(4, 0, [], [Blinded(P2wpkhScript(ZEROS)), Blinded(P2wpkhScript(ZEROS))])

  /** One quote for each direction. */
  function QuoteId(d: SwapDirection): Id {
    if d.LnToLiquid? then "q" else "p"
  }

  function Quote(w: World, d: SwapDirection := LnToLiquid): QuoteRecord {
    QuoteRecord(QuoteId(d), OfferId(w.c, CurrentOffer(CFG)), d, [2], 1, 0, 1, 1, 1000, 0, 600, 6, None)
  }

  /** The buyer's key hash is `b`, the seller's ZEROS. */
  ghost function ToySpec(w: World, b: Hash20, d: SwapDirection := LnToLiquid): HtlcSpec
    requires Toy(w)
  {
    match d
    case LnToLiquid => HtlcSpec(Hash(w), b, ZEROS, 0)
    case LiquidToLn => HtlcSpec(Hash(w), ZEROS, b, 0)
  }

  ghost function ToyScript(w: World, b: Hash20, d: SwapDirection := LnToLiquid): bytes
    requires Toy(w)
  {
    WitnessScript(ToySpec(w, b, d))
  }

  ghost function FundingTx(w: World, b: Hash20, version: byte, coin: u32, d: SwapDirection := LnToLiquid): Tx
    requires Toy(w)
  {
    var locked := P2wshScript(w.c, ToyScript(w, b, d));
    Tx(version, 0, [TxIn(OutPoint([4], coin), SEQUENCE_MAX, [])],
       [Explicit([2], 1, locked), Explicit([1], 1000, locked)])
  }

  ghost function Terms(w: World, b: Hash20, id: Id, version: byte, d: SwapDirection := LnToLiquid): SwapTerms
    requires Toy(w)
  {
    SwapTerms(id, QuoteId(d), d, [], Hash(w), [2], 1, 1, Home(b), 1000, 0,
              Address(P2wshScript(w.c, ToyScript(w, b, d)), 0, []), ToyScript(w, b, d), [version], 0, 1, 0)
  }

  ghost function Reading(w: World, b: Hash20, id: Id, d: SwapDirection := LnToLiquid): Task
    requires Toy(w)
  {
    CreateRead(Quote(w, d), id, Home(b), [], Hash(w))
  }

  lemma HomeKeyHash(b: Hash20)
    ensures KeyHashOfScript(Home(b).script) == Ok(b)
  {
  }

  lemma FundingTxid(w: World, b: Hash20, version: byte, coin: u32, d: SwapDirection := LnToLiquid)
    requires Toy(w)
    ensures TxidOf(w.c, FundingTx(w, b, version, coin, d)) == [version]
  {
    assert Strip(FundingTx(w, b, version, coin, d)).version == version;
  }

  /** The two coins of the wallet, some perhaps spent. */
  predicate CoinThere(ch: Chain, coin: u32) {
    coin < 2 && [4] in ch.txs && ch.txs[[4]] == COIN && OutPoint([4], coin) !in ch.spent
  }

  lemma FundingAcceptable(w: World, b: Hash20, ch: Chain, version: byte, coin: u32, d: SwapDirection := LnToLiquid)
    requires Toy(w) && CoinThere(ch, coin) && [version] !in ch.txs
    ensures Acceptable(w.c, ch, FundingTx(w, b, version, coin, d))
    ensures WalletInputs(ch, FundingTx(w, b, version, coin, d))
  {
    var tx := FundingTx(w, b, version, coin, d);
    FundingTxid(w, b, version, coin, d);
    HomeKeyHash(ZEROS);
    assert OutputAt(ch, tx.inputs[0].prev) == COIN.outputs[coin];
    assert SpentOutputs(ch, tx.inputs)[0] == COIN.outputs[coin];
  }

  lemma FundingFound(w: World, b: Hash20, version: byte, coin: u32, d: SwapDirection := LnToLiquid)
    requires Toy(w)
    ensures var locked := P2wshScript(w.c, ToyScript(w, b, d)); var tx := FundingTx(w, b, version, coin, d);
            FundsHtlc(tx, locked, [2], 1, [1], 1000, 0, 1) && ScanOutputs(tx.outputs, locked, [2], [1]) == Ok((0, 1))
  {
    var locked := P2wshScript(w.c, ToyScript(w, b, d));
    ScanFindsOutputsIff(FundingTx(w, b, version, coin, d), locked, [2], 1, [1], 1000, 0, 1);
  }

  lemma FundSpecIs(w: World, b: Hash20, s: State, id: Id, d: SwapDirection := LnToLiquid)
    requires Toy(w) && s.cfg == CFG
    ensures FundSpec(w, s, Reading(w, b, id, d), 0) == Ok(ToySpec(w, b, d))
  {
    HomeKeyHash(b);
    HomeKeyHash(ZEROS);
  }

  ghost function FundAction(w: World, b: Hash20, t: TaskId, version: byte, coin: u32, reported: bool,
                            d: SwapDirection := LnToLiquid): Action
    requires Toy(w)
  {
    Fund(t, 0, FundingTx(w, b, version, coin, d), 0, 1, Reply(true, reported))
  }

  lemma FundTermsAre(w: World, b: Hash20, s: State, t: TaskId, id: Id, version: byte, coin: u32, reported: bool,
                     d: SwapDirection := LnToLiquid)
    requires Toy(w) && s.cfg == CFG && t in s.tasks && s.tasks[t] == Reading(w, b, id, d)
    ensures FundTerms(w, s, FundAction(w, b, t, version, coin, reported, d)) == Ok(Terms(w, b, id, version, d))
  {
    FundSpecIs(w, b, s, id, d);
    FundingTxid(w, b, version, coin, d);
    FundingFound(w, b, version, coin, d);
  }

  lemma FundIsEnabled(w: World, b: Hash20, s: State, t: TaskId, id: Id, version: byte, coin: u32, reported: bool,
                      d: SwapDirection := LnToLiquid)
    requires Toy(w) && s.cfg == CFG && s.walletLock.None? && t in s.tasks && s.tasks[t] == Reading(w, b, id, d)
    requires CoinThere(s.chain, coin) && [version] !in s.chain.txs
    ensures FundEnabled(w, s, FundAction(w, b, t, version, coin, reported, d))
  {
    FundSpecIs(w, b, s, id, d);
    FundingFound(w, b, version, coin, d);
    FundingAcceptable(w, b, s.chain, version, coin, d);
  }
}
