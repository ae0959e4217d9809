/**
 When the two spends go through: exactly which reachable swaps the claim handler and the
 refund worker can move, and that doing so conserves every asset.
 */
module Liveness {
  import opened Types
  import opened Interpreter
  import opened HtlcScript
  import opened Transaction
  import opened HtlcSpend
  import opened Chain
  import opened Records
  import opened Offer
  import opened Protocol
  import opened Invariant
  import Safety

  predicate Unspent(ch: Chain, t: SwapTerms) {
    AssetOut(t) !in ch.spent && LbtcOut(t) !in ch.spent
  }

  /** No transaction on the chain shares its txid with a different one. */
  predicate NoTxidCollision(c: Crypto, ch: Chain, tx: Tx) {
    TxidOf(c, tx) in ch.txs ==> Strip(ch.txs[TxidOf(c, tx)]) == Strip(tx)
  }

  /** The claimer's index still leads to the claimer's key. */
  predicate ClaimKeysOk(w: World, cfg: Config, f: FundedHtlc) {
    match f.terms.direction
    case LnToLiquid => w.addressAt(cfg.buyerKeyIndex) == f.terms.buyerAddress
    case LiquidToLn => KeyHash(w, cfg.sellerKeyIndex) == KeyHash(w, f.sellerKey)
  }

  /** The refunder's index still leads to the refunder's key. */
  predicate RefundKeysOk(w: World, cfg: Config, f: FundedHtlc) {
    match f.terms.direction
    case LnToLiquid => KeyHash(w, cfg.sellerKeyIndex) == KeyHash(w, f.sellerKey)
    case LiquidToLn => w.addressAt(cfg.buyerKeyIndex) == f.terms.buyerAddress
  }

  // ----- conservation

  lemma SumOutTwo(a: TxOut, b: TxOut, asset: Asset)
    ensures SumOut([a, b], asset) == SumOut([a], asset) + SumOut([b], asset)
  {
    assert [a, b][1..] == [b];
  }

  lemma SumOutThree(a: TxOut, b: TxOut, d: TxOut, asset: Asset)
    ensures SumOut([a, b, d], asset) == SumOut([a], asset) + SumOut([b], asset) + SumOut([d], asset)
  {
    assert [a, b, d][1..] == [b, d];
    SumOutTwo(b, d, asset);
  }

  /**
   A spend pays out the asset in full and an LBTC remainder that is positive and never
   underflows, and conserves every asset, the policy asset sold for itself included.
   */
  lemma SpendConserves(c: Crypto, script: bytes, f: HtlcFunding, receive: bytes, fee: u64, lockTime: u32,
                       sequence: u32, asset: Asset)
    requires fee < f.feeSubsidy
    ensures var body := SpendBody(f, receive, fee, lockTime, sequence);
            && SumOut([HtlcOutput(c, script, f, 0), HtlcOutput(c, script, f, 1)], asset) == SumOut(body.outputs, asset)
            && body.outputs[0] == Explicit(f.assetId, f.assetAmount, receive)
            && 0 < Amount(body.outputs[1]) == f.feeSubsidy - Amount(body.outputs[2])
  {
    var outs := SpendBody(f, receive, fee, lockTime, sequence).outputs;
    SumOutTwo(HtlcOutput(c, script, f, 0), HtlcOutput(c, script, f, 1), asset);
    SumOutThree(outs[0], outs[1], outs[2], asset);
  }

  /** `tx` is a spend of the HTLC, up to witnesses. */
  predicate Spends(tx: Tx, f: HtlcFunding, receive: bytes, fee: u64, lockTime: u32, sequence: u32)
    requires fee < f.feeSubsidy
  {
    Strip(tx) == SpendBody(f, receive, fee, lockTime, sequence)
  }

  lemma SpendInputs(tx: Tx, f: HtlcFunding, receive: bytes, fee: u64, lockTime: u32, sequence: u32)
    requires fee < f.feeSubsidy && Spends(tx, f, receive, fee, lockTime, sequence)
    ensures |tx.inputs| == 2 && tx.inputs[0].prev == AssetOutPoint(f) && tx.inputs[1].prev == LbtcOutPoint(f)
    ensures tx.inputs[0].sequence == tx.inputs[1].sequence == sequence && tx.lockTime == lockTime
    ensures tx.outputs == SpendBody(f, receive, fee, lockTime, sequence).outputs
  {
    assert Strip(tx).inputs[0].prev == tx.inputs[0].prev && Strip(tx).inputs[1].prev == tx.inputs[1].prev;
    assert Strip(tx).inputs[0].sequence == tx.inputs[0].sequence
           && Strip(tx).inputs[1].sequence == tx.inputs[1].sequence;
  }

  lemma SpendBalanced(w: World, ch: Chain, h: FundedHtlc, tx: Tx, receive: bytes, fee: u64, lockTime: u32,
                      sequence: u32)
    requires HtlcOk(w, ch, h) && fee < h.terms.feeSubsidy
    requires Spends(tx, FundingOf(h.terms, w.policyAsset), receive, fee, lockTime, sequence)
    ensures forall i :: 0 <= i < |tx.inputs| ==> HasOutput(ch, tx.inputs[i].prev)
    ensures Balanced(ch, tx)
  {
    var f := FundingOf(h.terms, w.policyAsset);
    var script := h.terms.witnessScript;
    SpendInputs(tx, f, receive, fee, lockTime, sequence);
    SpentOutputsTwo(ch, tx.inputs);
    assert SpentOutputs(ch, tx.inputs) == [HtlcOutput(w.c, script, f, 0), HtlcOutput(w.c, script, f, 1)];
    forall a: Asset
      ensures SumOut(SpentOutputs(ch, tx.inputs), a) == SumOut(tx.outputs, a)
    {
      SpendConserves(w.c, script, f, receive, fee, lockTime, sequence, a);
    }
  }

  lemma SpentOutputsTwo(ch: Chain, ins: seq<TxIn>)
    requires |ins| == 2 && HasOutput(ch, ins[0].prev) && HasOutput(ch, ins[1].prev)
    ensures SpentOutputs(ch, ins) == [OutputAt(ch, ins[0].prev), OutputAt(ch, ins[1].prev)]
  {
    assert SpentOutputs(ch, ins[1..]) == [OutputAt(ch, ins[1].prev)];
  }

  // ----- acceptance of a spend

  lemma SameInputs(a: Tx, b: Tx)
    requires Strip(a) == Strip(b) && b.inputs != []
    ensures a.inputs != [] && a.inputs[0].prev == b.inputs[0].prev
  {
    assert |Strip(a).inputs| == |Strip(b).inputs|;
    assert Strip(a).inputs[0].prev == a.inputs[0].prev && Strip(b).inputs[0].prev == b.inputs[0].prev;
  }

  /** A transaction whose inputs are unspent is not on the chain yet. */
  lemma UnspentIsNew(c: Crypto, ch: Chain, tx: Tx)
    requires InputsRecorded(ch) && NoTxidCollision(c, ch, tx)
    requires tx.inputs != [] && tx.inputs[0].prev !in ch.spent
    ensures TxidOf(c, tx) !in ch.txs
  {
    if TxidOf(c, tx) in ch.txs {
      SameInputs(ch.txs[TxidOf(c, tx)], tx);
      assert false;
    }
  }

  lemma SpendOutputsPositive(f: HtlcFunding, tx: Tx, receive: bytes, fee: u64, lockTime: u32, sequence: u32)
    requires fee < f.feeSubsidy && f.assetAmount > 0 && Spends(tx, f, receive, fee, lockTime, sequence)
    ensures OutputsPositive(tx) && |tx.outputs| == 3
  {
    SpendInputs(tx, f, receive, fee, lockTime, sequence);
  }

  /** The network takes a spend exactly when both outputs are unspent, both scripts pass and it is final. */
  lemma SpendAcceptableIff(w: World, ch: Chain, h: FundedHtlc, tx: Tx, receive: bytes, fee: u64, lockTime: u32,
                           sequence: u32)
    requires ChainValid(w.c, ch) && HtlcOk(w, ch, h) && fee < h.terms.feeSubsidy && NoTxidCollision(w.c, ch, tx)
    requires Spends(tx, FundingOf(h.terms, w.policyAsset), receive, fee, lockTime, sequence)
    ensures |tx.inputs| == 2
    ensures var f := FundingOf(h.terms, w.policyAsset);
            Acceptable(w.c, ch, tx) <==>
            && Unspent(ch, h.terms) && Final(ch, tx)
            && InputAccepted(w.c, tx, 0, HtlcOutput(w.c, h.terms.witnessScript, f, 0))
            && InputAccepted(w.c, tx, 1, HtlcOutput(w.c, h.terms.witnessScript, f, 1))
  {
    var f := FundingOf(h.terms, w.policyAsset);
    SpendInputs(tx, f, receive, fee, lockTime, sequence);
    SpendBalanced(w, ch, h, tx, receive, fee, lockTime, sequence);
    SpendOutputsPositive(f, tx, receive, fee, lockTime, sequence);
    assert tx.inputs[0].prev == AssetOut(h.terms) && tx.inputs[1].prev == LbtcOut(h.terms);
    if Unspent(ch, h.terms) {
      UnspentIsNew(w.c, ch, tx);
    }
  }

  // ----- the claim

  ghost predicate ClaimGoesThrough(w: World, ch: Chain, cfg: Config, t: SwapTerms, preimage: Hash32, fee: u64) {
    var tx := ClaimFor(w, cfg, t, preimage, fee);
    tx.Ok? && Acceptable(w.c, ch, tx.value)
  }

  lemma KeyHashOfAddress(w: World, k: nat)
    requires WorldOk(w)
    ensures KeyHashOfScript(w.addressAt(k).script) == Ok(KeyHash(w, k))
  {
    var h: Hash20 := KeyHash(w, k);
    assert w.addressAt(k).script == P2wpkhScript(h);
  }

  /** Whose hash the script names, and which key signs. */
  lemma ClaimSigner(w: World, cfg: Config, f: FundedHtlc)
    requires WorldOk(w) && SpecOf(w, f).Ok?
    requires var (index, expected) := ClaimKey(f.terms, cfg.sellerKeyIndex, cfg.buyerKeyIndex);
             expected.Some? ==> w.addressAt(index) == expected.value
    ensures KeyHash(w, ClaimKey(f.terms, cfg.sellerKeyIndex, cfg.buyerKeyIndex).0) == SpecOf(w, f).value.claimerHash
            <==> ClaimKeysOk(w, cfg, f)
  {
    KeyHashOfAddress(w, f.sellerKey);
    KeyHashOfAddress(w, cfg.buyerKeyIndex);
  }

  lemma RefundSigner(w: World, cfg: Config, f: FundedHtlc)
    requires WorldOk(w) && SpecOf(w, f).Ok?
    requires var (index, expected) := RefundKey(f.terms, cfg.sellerKeyIndex, cfg.buyerKeyIndex);
             expected.Some? ==> w.addressAt(index) == expected.value
    ensures KeyHash(w, RefundKey(f.terms, cfg.sellerKeyIndex, cfg.buyerKeyIndex).0) == SpecOf(w, f).value.refunderHash
            <==> RefundKeysOk(w, cfg, f)
  {
    KeyHashOfAddress(w, f.sellerKey);
    KeyHashOfAddress(w, cfg.buyerKeyIndex);
  }

  lemma ClaimTxSpends(c: Crypto, script: bytes, f: HtlcFunding, receive: bytes, key: bytes, preimage: bytes, fee: u64)
    requires fee < f.feeSubsidy
    ensures var tx := ClaimTx(c, script, f, receive, key, preimage, fee).value;
            Spends(tx, f, receive, fee, 0, SEQUENCE_MAX)
  {
    var tx := ClaimTx(c, script, f, receive, key, preimage, fee).value;
    StripWithWitnesses(ClaimBody(f, receive, fee), tx.inputs[0].scriptWitness, tx.inputs[1].scriptWitness);
  }

  lemma RefundTxSpends(c: Crypto, script: bytes, height: u32, f: HtlcFunding, receive: bytes, key: bytes, fee: u64)
    requires fee < f.feeSubsidy && height < LOCKTIME_THRESHOLD
    ensures var tx := RefundTx(c, script, height, f, receive, key, fee).value;
            Spends(tx, f, receive, fee, height, SEQUENCE_LOCKTIME)
  {
    var tx := RefundTx(c, script, height, f, receive, key, fee).value;
    StripWithWitnesses(RefundBody(f, receive, fee, height), tx.inputs[0].scriptWitness, tx.inputs[1].scriptWitness);
  }

  /** The claim's inputs pass exactly with the preimage and the claimer's key. */
  lemma ClaimInputsIff(w: World, spec: HtlcSpec, f: HtlcFunding, receive: bytes, k: nat, preimage: Hash32, fee: u64)
    requires WorldOk(w) && fee < f.feeSubsidy
    ensures var script := WitnessScript(spec);
            var tx := ClaimTx(w.c, script, f, receive, w.secretKey(k), preimage, fee).value;
            InputAccepted(w.c, tx, 0, HtlcOutput(w.c, script, f, 0))
            && InputAccepted(w.c, tx, 1, HtlcOutput(w.c, script, f, 1))
            <==> w.c.sha256(preimage) == spec.paymentHash && KeyHash(w, k) == spec.claimerHash
  {
    ClaimAcceptedIff(w.c, spec, f, receive, w.secretKey(k), preimage, fee, 0);
    ClaimAcceptedIff(w.c, spec, f, receive, w.secretKey(k), preimage, fee, 1);
  }

  lemma RefundInputsIff(w: World, spec: HtlcSpec, f: HtlcFunding, receive: bytes, k: nat, fee: u64)
    requires WorldOk(w) && fee < f.feeSubsidy && spec.refundLockHeight < LOCKTIME_THRESHOLD
    ensures var script := WitnessScript(spec);
            var tx := RefundTx(w.c, script, spec.refundLockHeight, f, receive, w.secretKey(k), fee).value;
            InputAccepted(w.c, tx, 0, HtlcOutput(w.c, script, f, 0))
            && InputAccepted(w.c, tx, 1, HtlcOutput(w.c, script, f, 1))
            <==> KeyHash(w, k) == spec.refunderHash
  {
    RefundAcceptedIff(w.c, spec, f, receive, w.secretKey(k), spec.refundLockHeight, fee, 0);
    RefundAcceptedIff(w.c, spec, f, receive, w.secretKey(k), spec.refundLockHeight, fee, 1);
  }

  lemma ClaimGoesThroughIff(w: World, ch: Chain, cfg: Config, h: FundedHtlc, preimage: Hash32, fee: u64)
    requires WorldOk(w) && ChainValid(w.c, ch) && HtlcOk(w, ch, h)
    requires var tx := ClaimFor(w, cfg, h.terms, preimage, fee); tx.Ok? ==> NoTxidCollision(w.c, ch, tx.value)
    ensures ClaimGoesThrough(w, ch, cfg, h.terms, preimage, fee) <==>
            && fee < h.terms.feeSubsidy && ClaimKeysOk(w, cfg, h)
            && w.c.sha256(preimage) == h.terms.paymentHash && Unspent(ch, h.terms)
  {
    var (index, expected) := ClaimKey(h.terms, cfg.sellerKeyIndex, cfg.buyerKeyIndex);
    var receive := w.addressAt(index);
    if fee < h.terms.feeSubsidy && (expected.Some? ==> receive == expected.value) {
      var f := FundingOf(h.terms, w.policyAsset);
      var tx := ClaimFor(w, cfg, h.terms, preimage, fee).value;
      ClaimTxSpends(w.c, h.terms.witnessScript, f, receive.script, w.secretKey(index), preimage, fee);
      SpendAcceptableIff(w, ch, h, tx, receive.script, fee, 0, SEQUENCE_MAX);
      SpendInputs(tx, f, receive.script, fee, 0, SEQUENCE_MAX);
      assert Final(ch, tx);
      ClaimInputsIff(w, SpecOf(w, h).value, f, receive.script, index, preimage, fee);
      ClaimSigner(w, cfg, h);
    }
  }

  // ----- the refund

  ghost predicate RefundGoesThrough(w: World, ch: Chain, cfg: Config, t: SwapTerms, fee: u64) {
    var tx := RefundFor(w, cfg, t, fee);
    tx.Ok? && Acceptable(w.c, ch, tx.value)
  }

  lemma RefundGoesThroughIff(w: World, ch: Chain, cfg: Config, h: FundedHtlc, fee: u64)
    requires WorldOk(w) && ChainValid(w.c, ch) && HtlcOk(w, ch, h)
    requires var tx := RefundFor(w, cfg, h.terms, fee); tx.Ok? ==> NoTxidCollision(w.c, ch, tx.value)
    ensures RefundGoesThrough(w, ch, cfg, h.terms, fee) <==>
            && fee < h.terms.feeSubsidy && RefundKeysOk(w, cfg, h)
            && h.terms.refundLockHeight < LOCKTIME_THRESHOLD && h.terms.refundLockHeight <= ch.height
            && Unspent(ch, h.terms)
  {
    var (index, expected) := RefundKey(h.terms, cfg.sellerKeyIndex, cfg.buyerKeyIndex);
    var receive := w.addressAt(index);
    var lock := h.terms.refundLockHeight;
    if fee < h.terms.feeSubsidy && (expected.Some? ==> receive == expected.value) && lock < LOCKTIME_THRESHOLD {
      var f := FundingOf(h.terms, w.policyAsset);
      var tx := RefundFor(w, cfg, h.terms, fee).value;
      RefundTxSpends(w.c, h.terms.witnessScript, lock, f, receive.script, w.secretKey(index), fee);
      SpendAcceptableIff(w, ch, h, tx, receive.script, fee, lock, SEQUENCE_LOCKTIME);
      SpendInputs(tx, f, receive.script, fee, lock, SEQUENCE_LOCKTIME);
      assert Final(ch, tx) <==> lock <= ch.height;
      RefundInputsIff(w, SpecOf(w, h).value, f, receive.script, index, fee);
      RefundSigner(w, cfg, h);
    }
  }

  /** A built refund is final and passes the script's CLTV exactly at the lock height, which is below 500,000,000. */
  ghost predicate GateExact(w: World, ch: Chain, cfg: Config, t: SwapTerms, fee: u64, i: nat) {
    var r := RefundFor(w, cfg, t, fee);
    r.Ok? ==>
      && t.refundLockHeight < LOCKTIME_THRESHOLD && |r.value.inputs| == 2 && i < 2
      && var env := ScriptEnvOf(w.c, r.value, i, t.witnessScript, if i == 0 then t.assetAmount else t.feeSubsidy);
         ch.height >= t.refundLockHeight <==> Final(ch, r.value) && LockTimeReached(env, t.refundLockHeight)
  }

  lemma RefundGateAt(w: World, ch: Chain, cfg: Config, t: SwapTerms, fee: u64, i: nat)
    requires i < 2
    ensures GateExact(w, ch, cfg, t, fee, i)
  {
    var (index, expected) := RefundKey(t, cfg.sellerKeyIndex, cfg.buyerKeyIndex);
    var receive := w.addressAt(index);
    var lock := t.refundLockHeight;
    var r := RefundFor(w, cfg, t, fee);
    if r.Ok? {
      var f := FundingOf(t, w.policyAsset);
      RefundTxSpends(w.c, t.witnessScript, lock, f, receive.script, w.secretKey(index), fee);
      SpendInputs(r.value, f, receive.script, fee, lock, SEQUENCE_LOCKTIME);
      assert r.value.inputs[i].sequence == SEQUENCE_LOCKTIME;
    }
  }

  // ----- in every reachable state

  /**
   In every reachable state a stored preimage yields an accepted claim exactly when the
   claimer's key is unchanged, the fee is below the subsidy and the outputs are unspent.
   */
  lemma StoredPreimageClaims(w: World, run: seq<State>, acts: seq<Action>, i: nat, id: Id, fee: u64)
    requires WorldOk(w) && IsRun(w, run, acts) && i < |run|
    requires id in run[i].swaps && run[i].swaps[id].lnPreimage.Some?
    requires |run[i].swaps[id].lnPreimage.value| == 32
    requires var tx := ClaimFor(w, run[i].cfg, run[i].swaps[id].terms, run[i].swaps[id].lnPreimage.value, fee);
             tx.Ok? ==> NoTxidCollision(w.c, run[i].chain, tx.value)
    ensures id in run[i].funded
    ensures var s := run[i]; var t := s.swaps[id].terms;
            ClaimGoesThrough(w, s.chain, s.cfg, t, s.swaps[id].lnPreimage.value, fee) <==>
            fee < t.feeSubsidy && ClaimKeysOk(w, s.cfg, s.funded[id]) && Unspent(s.chain, t)
  {
    Safety.RunKeepsInv(w, run, acts, i);
    StoredPreimageClaimsAt(w, run[i], id, fee);
  }

  lemma StoredPreimageClaimsAt(w: World, s: State, id: Id, fee: u64)
    requires WorldOk(w) && ChainValid(w.c, s.chain) && HtlcsOk(w, s) && SwapsFunded(s) && RecordsOk(w, s)
    requires id in s.swaps && s.swaps[id].lnPreimage.Some? && |s.swaps[id].lnPreimage.value| == 32
    requires var tx := ClaimFor(w, s.cfg, s.swaps[id].terms, s.swaps[id].lnPreimage.value, fee);
             tx.Ok? ==> NoTxidCollision(w.c, s.chain, tx.value)
    ensures id in s.funded
    ensures var t := s.swaps[id].terms;
            ClaimGoesThrough(w, s.chain, s.cfg, t, s.swaps[id].lnPreimage.value, fee) <==>
            fee < t.feeSubsidy && ClaimKeysOk(w, s.cfg, s.funded[id]) && Unspent(s.chain, t)
  {
    assert FieldsOk(w, s.chain, s.swaps[id]);
    ClaimGoesThroughIff(w, s.chain, s.cfg, s.funded[id], s.swaps[id].lnPreimage.value, fee);
  }

  /**
   In every reachable state any stored swap can be refunded exactly when its lock height
   is reached and below 500,000,000, the refunder's key is unchanged, the fee is below
   the subsidy and the outputs are unspent.
   */
  lemma LockedSwapRefunds(w: World, run: seq<State>, acts: seq<Action>, i: nat, id: Id, fee: u64)
    requires WorldOk(w) && IsRun(w, run, acts) && i < |run| && id in run[i].swaps
    requires var tx := RefundFor(w, run[i].cfg, run[i].swaps[id].terms, fee);
             tx.Ok? ==> NoTxidCollision(w.c, run[i].chain, tx.value)
    ensures id in run[i].funded
    ensures var s := run[i]; var t := s.swaps[id].terms;
            RefundGoesThrough(w, s.chain, s.cfg, t, fee) <==>
            && fee < t.feeSubsidy && RefundKeysOk(w, s.cfg, s.funded[id])
            && t.refundLockHeight < LOCKTIME_THRESHOLD && t.refundLockHeight <= s.chain.height
            && Unspent(s.chain, t)
  {
    Safety.RunKeepsInv(w, run, acts, i);
    RefundGoesThroughIff(w, run[i].chain, run[i].cfg, run[i].funded[id], fee);
  }

  /**
   In every reachable state the worker's height test is exact: the tip has reached the
   lock height iff the refund it builds is final in the next block and passes the script's
   CLTV; and that height is the tip at creation plus the delta then offered, saturated.
   */
  lemma RefundGateExact(w: World, run: seq<State>, acts: seq<Action>, k: nat, id: Id, fee: u64, i: nat)
    requires WorldOk(w) && IsRun(w, run, acts) && k < |run| && id in run[k].swaps && i < 2
    ensures id in run[k].funded
    ensures var f := run[k].funded[id];
            f.terms == run[k].swaps[id].terms && f.terms.refundLockHeight == SaturatingAdd(f.tip, f.delta)
    ensures GateExact(w, run[k].chain, run[k].cfg, run[k].swaps[id].terms, fee, i)
  {
    Safety.RunKeepsInv(w, run, acts, k);
    assert HtlcOk(w, run[k].chain, run[k].funded[id]);
    RefundGateAt(w, run[k].chain, run[k].cfg, run[k].swaps[id].terms, fee, i);
  }
}
