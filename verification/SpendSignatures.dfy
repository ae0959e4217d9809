/**
 What the signatures of a claim or refund cover: every byte of the two transactions, and
 that nobody can redirect their outputs.
 */
module SpendSignatures {
  import opened Types
  import opened Interpreter
  import opened HtlcScript
  import opened HtlcMeaning
  import opened Transaction
  import opened HtlcSpend

  /**
   A spend of both HTLC outputs to `receive`: all its fields, and witnesses that start with
   a signature of sighash type ALL (0x01) over this very transaction.
   */
  predicate IsSpend(c: Crypto, script: bytes, f: HtlcFunding, receive: bytes, key: bytes, fee: u64, lockTime: u32,
                    sequence: u32, middle: seq<bytes>, tx: Tx)
    requires fee <= f.feeSubsidy
  {
    && tx.version == 2 && tx.lockTime == lockTime && |tx.inputs| == 2
    && tx.inputs[0].prev == OutPoint(f.fundingTxid, f.assetVout)
    && tx.inputs[1].prev == OutPoint(f.fundingTxid, f.lbtcVout)
    && tx.outputs == [Explicit(f.assetId, f.assetAmount, receive), Explicit(f.policyAsset, f.feeSubsidy - fee, receive),
                      Explicit(f.policyAsset, fee, [])]
    && forall i :: 0 <= i < 2 ==>
         var value := if i == 0 then f.assetAmount else f.feeSubsidy;
         var sig := c.sign(key, c.sighash(Strip(tx), i, script, value, 0x01)) + [0x01];
         && tx.inputs[i].sequence == sequence
         && tx.inputs[i].scriptWitness == [sig, c.pubkey(key)] + middle + [script]
  }

  /** A claim is built exactly for a fee below the subsidy; it is final at once and shows the preimage. */
  lemma ClaimIsSpend(c: Crypto, script: bytes, f: HtlcFunding, receive: bytes, key: bytes, preimage: bytes, fee: u64)
    ensures var r := ClaimTx(c, script, f, receive, key, preimage, fee);
            && (r.Ok? <==> fee < f.feeSubsidy)
            && (r.Ok? ==> IsSpend(c, script, f, receive, key, fee, 0, 0xFFFF_FFFF, [preimage, [1]], r.value))
  {
    if fee < f.feeSubsidy {
      var tx := ClaimTx(c, script, f, receive, key, preimage, fee).value;
      StripWithWitnesses(ClaimBody(f, receive, fee), tx.inputs[0].scriptWitness, tx.inputs[1].scriptWitness);
    }
  }

  /** A refund is built exactly if also its height is a height; it waits for it and shows no preimage. */
  lemma RefundIsSpend(c: Crypto, script: bytes, height: u32, f: HtlcFunding, receive: bytes, key: bytes, fee: u64)
    ensures var r := RefundTx(c, script, height, f, receive, key, fee);
            && (r.Ok? <==> fee < f.feeSubsidy && height < 500_000_000)
            && (r.Ok? ==> IsSpend(c, script, f, receive, key, fee, height, 0xFFFF_FFFE, [[]], r.value))
  {
    if fee < f.feeSubsidy && height < 500_000_000 {
      var tx := RefundTx(c, script, height, f, receive, key, fee).value;
      StripWithWitnesses(RefundBody(f, receive, fee, height), tx.inputs[0].scriptWitness, tx.inputs[1].scriptWitness);
    }
  }

  // ----- nobody else's outputs

  /**
   No collision between the two: of sighash type ALL their hashes for this input differ, and
   the signature of one hash does not verify for the other.
   */
  predicate SignedApart(c: Crypto, key: bytes, tx: Tx, other: Tx, i: nat, script: bytes, value: u64) {
    var m, n := c.sighash(Strip(tx), i, script, value, 0x01), c.sighash(Strip(other), i, script, value, 0x01);
    m != n && !c.verify(c.pubkey(key), n, c.sign(key, m))
  }

  lemma WitnessIs(sig: bytes, key: bytes, middle: seq<bytes>, script: bytes)
    ensures var w := [sig, key] + middle + [script];
            w[|w| - 1] == script && w[..|w| - 1] == [sig, key] + middle && w[0] == sig && w[1] == key
  {
  }

  /** Every stack the HTLC accepts starts with a signature that verifies under the key after it. */
  lemma StackSigned(env: ScriptEnv, spec: HtlcSpec, stack: seq<bytes>)
    requires ClaimStack(env, spec, stack) || RefundStack(env, spec, stack)
    ensures |stack| >= 2 && env.checkSig(stack[0], stack[1])
  {
  }

  lemma SignatureFails(c: Crypto, key: bytes, tx: Tx, other: Tx, i: nat, script: bytes, value: u64)
    requires SignedApart(c, key, tx, other, i, script, value)
    ensures var sig := c.sign(key, c.sighash(Strip(tx), i, script, value, 0x01)) + [0x01];
            !CheckSig(c, other, i, script, value, sig, c.pubkey(key))
  {
    var m := c.sign(key, c.sighash(Strip(tx), i, script, value, 0x01));
    assert (m + [0x01])[..|m + [0x01]| - 1] == m;
  }

  /**
   With its outputs changed in any way, a built claim or refund no longer spends the HTLC:
   the witnesses it carries commit to the outputs it was built with.
   */
  lemma AlteredOutputsRejected(c: Crypto, spec: HtlcSpec, f: HtlcFunding, receive: bytes, key: bytes, fee: u64,
                               lockTime: u32, sequence: u32, middle: seq<bytes>, tx: Tx, outputs: seq<TxOut>, i: nat)
    requires Ideal(c) && i < 2 && fee <= f.feeSubsidy
    requires IsSpend(c, WitnessScript(spec), f, receive, key, fee, lockTime, sequence, middle, tx)
    requires var value := Amount(HtlcOutput(c, WitnessScript(spec), f, i));
             SignedApart(c, key, tx, tx.(outputs := outputs), i, WitnessScript(spec), value)
    ensures !InputAccepted(c, tx.(outputs := outputs), i, HtlcOutput(c, WitnessScript(spec), f, i))
  {
    var script := WitnessScript(spec);
    var out := HtlcOutput(c, script, f, i);
    var other := tx.(outputs := outputs);
    var sig := c.sign(key, c.sighash(Strip(tx), i, script, Amount(out), 0x01)) + [0x01];
    WitnessIs(sig, c.pubkey(key), middle, script);
    var env := ScriptEnvOf(c, other, i, script, Amount(out));
    HtlcAcceptsIff(env, spec, [sig, c.pubkey(key)] + middle);
    SignatureFails(c, key, tx, other, i, script, Amount(out));
    if InputAccepted(c, other, i, out) {
      StackSigned(env, spec, [sig, c.pubkey(key)] + middle);
      assert false;
    }
  }
}
