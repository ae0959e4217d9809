/**
 The two transactions that spend an HTLC: the claim with the preimage and the refund
 after the lock height. Both spend the asset output and the LBTC subsidy output together.
 */
module HtlcSpend {
  import opened Types
  import opened Interpreter
  import opened HtlcScript
  import opened HtlcMeaning
  import opened Transaction

  /** `Sequence::ENABLE_LOCKTIME_NO_RBF`. */
  const SEQUENCE_LOCKTIME: u32 := 0xFFFF_FFFE

  datatype HtlcFunding = HtlcFunding(
    fundingTxid: Txid,
    assetVout: u32,
    lbtcVout: u32,
    assetId: Asset,
    assetAmount: u64,
    policyAsset: Asset,
    feeSubsidy: u64)

  function AssetOutPoint(f: HtlcFunding): OutPoint {
    OutPoint(f.fundingTxid, f.assetVout)
  }

  function LbtcOutPoint(f: HtlcFunding): OutPoint {
    OutPoint(f.fundingTxid, f.lbtcVout)
  }

  /** `LockTime::from_height`. */
  function LockTimeFromHeight(height: u32): Result<u32> {
    if height < LOCKTIME_THRESHOLD then Ok(height) else Err
  }

  function SpendBody(f: HtlcFunding, receive: bytes, fee: u64, lockTime: u32, sequence: u32): Tx
    requires fee < f.feeSubsidy
  {
    Tx(2, lockTime,
       [TxIn(AssetOutPoint(f), sequence, []), TxIn(LbtcOutPoint(f), sequence, [])],
       [Explicit(f.assetId, f.assetAmount, receive),
        Explicit(f.policyAsset, f.feeSubsidy - fee, receive),
        Explicit(f.policyAsset, fee, [])])
  }

  function ClaimBody(f: HtlcFunding, receive: bytes, fee: u64): Tx
    requires fee < f.feeSubsidy
  {
    SpendBody(f, receive, fee, 0, SEQUENCE_MAX)
  }

  function RefundBody(f: HtlcFunding, receive: bytes, fee: u64, height: u32): Tx
    requires fee < f.feeSubsidy
  {
    SpendBody(f, receive, fee, height, SEQUENCE_LOCKTIME)
  }

  /** `segwit_v0_sign`. */
  function SignInput(c: Crypto, body: Tx, i: nat, script: bytes, value: u64, key: bytes): bytes {
    c.sign(key, c.sighash(Strip(body), i, script, value, SIGHASH_ALL)) + [SIGHASH_ALL]
  }

  function WithWitnesses(tx: Tx, w0: seq<bytes>, w1: seq<bytes>): Tx
    requires |tx.inputs| == 2
  {
    tx.(inputs := [tx.inputs[0].(scriptWitness := w0), tx.inputs[1].(scriptWitness := w1)])
  }

  function ClaimTx(c: Crypto, script: bytes, f: HtlcFunding, receive: bytes, key: bytes, preimage: bytes, fee: u64)
    : Result<Tx>
  {
    if fee >= f.feeSubsidy then Err
    else
      var body := ClaimBody(f, receive, fee);
      Ok(WithWitnesses(body,
                       [SignInput(c, body, 0, script, f.assetAmount, key), c.pubkey(key), preimage, [1], script],
                       [SignInput(c, body, 1, script, f.feeSubsidy, key), c.pubkey(key), preimage, [1], script]))
  }

  function RefundTx(c: Crypto, script: bytes, height: u32, f: HtlcFunding, receive: bytes, key: bytes, fee: u64)
    : Result<Tx>
  {
    if fee >= f.feeSubsidy then Err
    else
      var lockTime :- LockTimeFromHeight(height);
      var body := RefundBody(f, receive, fee, lockTime);
      Ok(WithWitnesses(body,
                       [SignInput(c, body, 0, script, f.assetAmount, key), c.pubkey(key), [], script],
                       [SignInput(c, body, 1, script, f.feeSubsidy, key), c.pubkey(key), [], script]))
  }

  // ----- the builders as the code runs them: sign the bare transaction, then fill the witnesses in place

  method BuildClaimTx(c: Crypto, script: bytes, f: HtlcFunding, receive: bytes, key: bytes, preimage: bytes, fee: u64)
    returns (r: Result<Tx>)
    ensures r == ClaimTx(c, script, f, receive, key, preimage, fee)
  {
    if !(fee < f.feeSubsidy) { return Err; }
    var inputs := [TxIn(AssetOutPoint(f), SEQUENCE_MAX, []), TxIn(LbtcOutPoint(f), SEQUENCE_MAX, [])];
    var outputs := [Explicit(f.assetId, f.assetAmount, receive),
                    Explicit(f.policyAsset, f.feeSubsidy - fee, receive),
                    Explicit(f.policyAsset, fee, [])];
    var tx := Tx(2, 0, inputs, outputs);
    var assetSig := SignInput(c, tx, 0, script, f.assetAmount, key);
    var lbtcSig := SignInput(c, tx, 1, script, f.feeSubsidy, key);
    var claimerKey := c.pubkey(key);
    tx := tx.(inputs := tx.inputs[0 := tx.inputs[0].(scriptWitness := [assetSig, claimerKey, preimage, [1], script])]);
    tx := tx.(inputs := tx.inputs[1 := tx.inputs[1].(scriptWitness := [lbtcSig, claimerKey, preimage, [1], script])]);
    assert tx.inputs == ClaimTx(c, script, f, receive, key, preimage, fee).value.inputs;
    return Ok(tx);
  }

  method BuildRefundTx(c: Crypto, script: bytes, height: u32, f: HtlcFunding, receive: bytes, key: bytes, fee: u64)
    returns (r: Result<Tx>)
    ensures r == RefundTx(c, script, height, f, receive, key, fee)
  {
    if !(fee < f.feeSubsidy) { return Err; }
    var inputs := [TxIn(AssetOutPoint(f), SEQUENCE_LOCKTIME, []), TxIn(LbtcOutPoint(f), SEQUENCE_LOCKTIME, [])];
    var outputs := [Explicit(f.assetId, f.assetAmount, receive),
                    Explicit(f.policyAsset, f.feeSubsidy - fee, receive),
                    Explicit(f.policyAsset, fee, [])];
    var lockTime := LockTimeFromHeight(height);
    if lockTime.Err? { return Err; }
    var tx := Tx(2, lockTime.value, inputs, outputs);
    var assetSig := SignInput(c, tx, 0, script, f.assetAmount, key);
    var lbtcSig := SignInput(c, tx, 1, script, f.feeSubsidy, key);
    var refunderKey := c.pubkey(key);
    tx := tx.(inputs := tx.inputs[0 := tx.inputs[0].(scriptWitness := [assetSig, refunderKey, [], script])]);
    tx := tx.(inputs := tx.inputs[1 := tx.inputs[1].(scriptWitness := [lbtcSig, refunderKey, [], script])]);
    assert tx.inputs == RefundTx(c, script, height, f, receive, key, fee).value.inputs;
    return Ok(tx);
  }

  // ----- what the network says of them

  /** Filling in witnesses does not change what was signed. */
  lemma StripWithWitnesses(body: Tx, w0: seq<bytes>, w1: seq<bytes>)
    requires |body.inputs| == 2
    requires body.inputs[0].scriptWitness == [] && body.inputs[1].scriptWitness == []
    ensures Strip(WithWitnesses(body, w0, w1)) == body == Strip(body)
  {
    assert Strip(body).inputs == body.inputs;
    assert Strip(WithWitnesses(body, w0, w1)).inputs == body.inputs;
  }

  /** The two outputs a funding transaction locks, as the spender sees them. */
  function HtlcOutput(c: Crypto, script: bytes, f: HtlcFunding, i: nat): TxOut {
    if i == 0 then Explicit(f.assetId, f.assetAmount, P2wshScript(c, script))
    else Explicit(f.policyAsset, f.feeSubsidy, P2wshScript(c, script))
  }

  lemma OwnSignatureChecks(c: Crypto, body: Tx, tx: Tx, i: nat, script: bytes, value: u64, key: bytes)
    requires Ideal(c) && Strip(tx) == Strip(body)
    ensures var sig := SignInput(c, body, i, script, value, key);
            CheckSig(c, tx, i, script, value, sig, c.pubkey(key)) && |sig| <= 73
  {
    var m := c.sighash(Strip(body), i, script, value, SIGHASH_ALL);
    var sig := c.sign(key, m) + [SIGHASH_ALL];
    assert sig[..|sig| - 1] == c.sign(key, m);
  }

  /** A script-hash spend of an HTLC output, reduced to its witness stack. */
  lemma HtlcInputAccepted(c: Crypto, spec: HtlcSpec, tx: Tx, i: nat, out: TxOut, stack: seq<bytes>)
    requires i < |tx.inputs|
    requires tx.inputs[i].scriptWitness == stack + [WitnessScript(spec)]
    requires OutScript(out) == P2wshScript(c, WitnessScript(spec))
    requires forall k :: 0 <= k < |stack| ==> |stack[k]| <= MAX_ELEMENT_SIZE
    ensures var env := ScriptEnvOf(c, tx, i, WitnessScript(spec), Amount(out));
            InputAccepted(c, tx, i, out) <==> ClaimStack(env, spec, stack) || RefundStack(env, spec, stack)
  {
    var script := WitnessScript(spec);
    var w := tx.inputs[i].scriptWitness;
    assert w[|w| - 1] == script && w[..|w| - 1] == stack;
    HtlcAcceptsIff(ScriptEnvOf(c, tx, i, script, Amount(out)), spec, stack);
  }

  lemma TruthyConstants()
    ensures Truthy([1]) && !Truthy([])
  {
    TruthyBool(true);
    TruthyBool(false);
  }

  /**
   The network accepts both inputs of the claim exactly when the preimage opens the
   payment hash and the signing key is the claimer's.
   */
  lemma ClaimAcceptedIff(c: Crypto, spec: HtlcSpec, f: HtlcFunding, receive: bytes, key: bytes,
                         preimage: Hash32, fee: u64, i: nat)
    requires Ideal(c) && fee < f.feeSubsidy && i < 2
    ensures var script := WitnessScript(spec);
            var tx := ClaimTx(c, script, f, receive, key, preimage, fee).value;
            InputAccepted(c, tx, i, HtlcOutput(c, script, f, i)) <==>
            c.sha256(preimage) == spec.paymentHash && c.hash160(c.pubkey(key)) == spec.claimerHash
  {
    var script := WitnessScript(spec);
    var body := ClaimBody(f, receive, fee);
    var tx := ClaimTx(c, script, f, receive, key, preimage, fee).value;
    var value := if i == 0 then f.assetAmount else f.feeSubsidy;
    StripWithWitnesses(body, tx.inputs[0].scriptWitness, tx.inputs[1].scriptWitness);
    OwnSignatureChecks(c, body, tx, i, script, value, key);
    var stack := [SignInput(c, body, i, script, value, key), c.pubkey(key), preimage, [1]];
    assert tx.inputs[i].scriptWitness == stack + [script];
    TruthyConstants();
    HtlcInputAccepted(c, spec, tx, i, HtlcOutput(c, script, f, i), stack);
    var env := ScriptEnvOf(c, tx, i, script, value);
    assert env.checkSig(stack[0], stack[1]);
  }

  /**
   The network accepts both inputs of the refund exactly when the signing key is the
   refunder's and the script's lock height is at most the transaction's.
   */
  lemma RefundAcceptedIff(c: Crypto, spec: HtlcSpec, f: HtlcFunding, receive: bytes, key: bytes,
                          height: u32, fee: u64, i: nat)
    requires Ideal(c) && fee < f.feeSubsidy && height < LOCKTIME_THRESHOLD && i < 2
    ensures var script := WitnessScript(spec);
            var tx := RefundTx(c, script, height, f, receive, key, fee).value;
            InputAccepted(c, tx, i, HtlcOutput(c, script, f, i)) <==>
            c.hash160(c.pubkey(key)) == spec.refunderHash && spec.refundLockHeight <= height
  {
    var script := WitnessScript(spec);
    var body := RefundBody(f, receive, fee, height);
    var tx := RefundTx(c, script, height, f, receive, key, fee).value;
    var value := if i == 0 then f.assetAmount else f.feeSubsidy;
    StripWithWitnesses(body, tx.inputs[0].scriptWitness, tx.inputs[1].scriptWitness);
    OwnSignatureChecks(c, body, tx, i, script, value, key);
    var stack := [SignInput(c, body, i, script, value, key), c.pubkey(key), []];
    assert tx.inputs[i].scriptWitness == stack + [script];
    TruthyConstants();
    HtlcInputAccepted(c, spec, tx, i, HtlcOutput(c, script, f, i), stack);
    var env := ScriptEnvOf(c, tx, i, script, value);
    assert env.checkSig(stack[0], stack[1]);
  }
}
