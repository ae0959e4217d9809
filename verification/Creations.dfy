/**
 What a create_swap call leaves, told from the request, the quote and the funding
 transaction: which swap is stored, for which invoice, and what later calls answer.
 */
module Creations {
  import opened Types
  import opened HtlcScript
  import opened Transaction
  import opened Funding
  import opened Records
  import opened Offer
  import opened Protocol
  import opened Wallet
  import opened Service
  import opened Decisions

  // ----- the record

  /** The script, read back, names the invoice's hash, the parties' keys and a lock `delta` blocks above the tip. */
  predicate ScriptFits(w: World, cfg: Config, d: SwapDirection, buyer: Address, hash: Hash32, tip: u32, script: bytes) {
    var spec := Parse(script);
    var seller := w.addressAt(cfg.sellerKeyIndex).script;
    && |buyer.script| == 22 && |seller| == 22
    && spec.Ok? && spec.value.paymentHash == hash
    && spec.value.refundLockHeight == (if tip + cfg.refundDeltaBlocks <= 0xFFFF_FFFF then tip + cfg.refundDeltaBlocks
                                       else 0xFFFF_FFFF)
    && spec.value.claimerHash == (if d.LnToLiquid? then buyer.script else seller)[2..]
    && spec.value.refunderHash == (if d.LnToLiquid? then seller else buyer.script)[2..]
  }

  /** Output `vout` of the transaction pays the asset to the HTLC. */
  predicate PaysHtlc(tx: Tx, vout: u32, asset: Asset, script: bytes) {
    && vout < |tx.outputs| && tx.outputs[vout].Explicit?
    && tx.outputs[vout].asset == asset && tx.outputs[vout].script == script
  }

  /** The stored terms are the quote's, the request's, the invoice's and the funding transaction's. */
  predicate TermsFit(w: World, cfg: Config, q: QuoteRecord, buyer: Address, inv: InvoiceText, env: CreateEnv,
                     t: SwapTerms)
    requires inv.Invoice? && env.tip.Some? && env.built.Some?
  {
    && t.swapId == env.swapId && t.quoteId == q.quoteId && t.direction == q.direction
    && t.invoice == inv.text && t.paymentHash == inv.paymentHash
    && t.assetId == cfg.sellAssetId && t.assetAmount == q.assetAmount && t.totalPriceMsat == q.totalPriceMsat
    && t.buyerAddress == buyer && t.feeSubsidy == cfg.feeSubsidy && t.minFundingConfs == q.minFundingConfs
    && t.fundingTxid == w.c.txid(Strip(env.built.value))
    && t.p2wshAddress == Address([0x00, 0x20] + w.c.sha256(t.witnessScript), w.network, [])
    && PaysHtlc(env.built.value, t.assetVout, cfg.sellAssetId, t.p2wshAddress.script)
    && PaysHtlc(env.built.value, t.lbtcVout, w.policyAsset, t.p2wshAddress.script)
    && ScriptFits(w, cfg, q.direction, buyer, inv.paymentHash, env.tip.value, t.witnessScript)
    && Parse(t.witnessScript).value.refundLockHeight == t.refundLockHeight
  }

  predicate RecordFits(w: World, cfg: Config, q: QuoteRecord, buyer: Address, inv: InvoiceText, env: CreateEnv,
                       r: SwapRecord)
    requires inv.Invoice? && env.tip.Some? && env.built.Some?
  {
    && TermsFit(w, cfg, q, buyer, inv, env, r.terms)
    && r.lnPaymentId.None? && r.lnPreimage.None? && r.claimTxid.None?
  }

  lemma RecordIsFit(w: World, cfg: Config, q: QuoteRecord, buyer: Address, inv: InvoiceText, env: CreateEnv,
                    r: SwapRecord)
    requires inv.Invoice? && env.tip.Some? && env.built.Some?
    requires FundedRecord(w, cfg, q, buyer, inv, env.swapId, env.tip.value, env.built.value) == Ok(r)
    ensures RecordFits(w, cfg, q, buyer, inv, env, r) && r.status == Created
  {
    ParseUndoesPrint(SwapSpec(w, cfg, q, buyer, inv.paymentHash, env.tip.value).value);
  }

  // ----- what one call leaves

  /** Nothing is sent, and the tables are as before. */
  predicate Untouched(before: Tables, sent: seq<Broadcast>, after: Tables) {
    sent == [] && after == before
  }

  /** The request, its quote and its invoice are such that the call goes on to fund. */
  predicate Fundable(w: World, cfg: Config, caller: Option<CallerRole>, req: CreateRequest, env: CreateEnv,
                     before: Tables, inv: InvoiceText) {
    && caller == Some(Buyer) && !Blank(req.quoteId) && req.quoteId in before.quotes && PayableAddress(w, req.address)
    && var q := before.quotes[req.quoteId];
       && q.swapId.None? && OfferStands(w, cfg, q) && q.minFundingConfs <= 6
       && InvoiceFits(q, req.invoice, env.node, inv)
  }

  lemma FundableGoesOn(w: World, cfg: Config, caller: Option<CallerRole>, req: CreateRequest, env: CreateEnv,
                       before: Tables, inv: InvoiceText)
    ensures Fundable(w, cfg, caller, req, env, before, inv) <==>
            && req.quoteId in before.quotes && req.address.Parsed?
            && var q, d := before.quotes[req.quoteId], CreateDecision(w, cfg, before.quotes, before.swaps, caller, req);
               && d == Done(FundNew(q, req.address.address))
               && InvoiceDecision(q, req.invoice, env.node) == Done(inv)
  {
    if req.quoteId in before.quotes && req.address.Parsed? {
      var q := before.quotes[req.quoteId];
      SwapFundedIff(w, cfg, before.quotes, before.swaps, caller, req, q, req.address.address);
      InvoiceTakenIff(q, req.invoice, env.node, inv);
    }
  }

  /** A call that sends anything, or changes a table, had a fundable request; and it sends the one funding built. */
  lemma EffectsNeedFundable(w: World, cfg: Config, caller: Option<CallerRole>, req: CreateRequest, env: CreateEnv,
                            before: Tables, sent: seq<Broadcast>, after: Tables, r: Response<SwapRecord>)
    returns (inv: InvoiceText)
    requires CreateOutcome(w, cfg, caller, req, env, before, sent, after, r) && !Untouched(before, sent, after)
    ensures Fundable(w, cfg, caller, req, env, before, inv)
    ensures |sent| == 1 && Some(sent[0].tx) == env.built
  {
    var d := CreateDecision(w, cfg, before.quotes, before.swaps, caller, req);
    var q, buyer := d.value.quote, d.value.buyer;
    SwapFundedIff(w, cfg, before.quotes, before.swaps, caller, req, q, buyer);
    inv := InvoiceDecision(q, req.invoice, env.node).value;
    FundableGoesOn(w, cfg, caller, req, env, before, inv);
  }

  /** With a fundable request the call is not refused for the request: only a failure of the server can end it. */
  lemma FundableNotRefused(w: World, cfg: Config, caller: Option<CallerRole>, req: CreateRequest, env: CreateEnv,
                           before: Tables, sent: seq<Broadcast>, after: Tables, r: Response<SwapRecord>,
                           inv: InvoiceText)
    requires CreateOutcome(w, cfg, caller, req, env, before, sent, after, r)
    requires WorldOk(w) && Fundable(w, cfg, caller, req, env, before, inv)
    ensures r.Refused? ==> r.code == Internal
    ensures sent != [] <==> env.tip.Some? && env.built.Some?
  {
    FundableGoesOn(w, cfg, caller, req, env, before, inv);
    var h: Hash20 := KeyHash(w, cfg.sellerKeyIndex);
    assert w.addressAt(cfg.sellerKeyIndex).script == P2wpkhScript(h);
  }

  /** The swap stored: under the call's id, fit, linked to its quote, Funded exactly if the confirmations came. */
  predicate StoresFit(w: World, cfg: Config, req: CreateRequest, env: CreateEnv, before: Tables, after: Tables,
                      inv: InvoiceText, r: Response<SwapRecord>) {
    && env.tip.Some? && env.built.Some? && req.quoteId in before.quotes && req.address.Parsed? && inv.Invoice?
    && env.swapId !in before.swaps && env.swapId in after.swaps
    && var q := before.quotes[req.quoteId];
       var row := after.swaps[env.swapId];
       && after.swaps == before.swaps[env.swapId := row]
       && after.quotes == before.quotes[req.quoteId := q.(swapId := Some(env.swapId))]
       && RecordFits(w, cfg, q, req.address.address, inv, env, row)
       && if PollsSucceed(env.polls, q.minFundingConfs) then row.status == SwapStatus.Funded && r == Done(row)
          else row.status == Created && r == Refused(Internal)
  }

  lemma StoredIsFit(w: World, cfg: Config, q: QuoteRecord, buyer: Address, inv: InvoiceText, env: CreateEnv,
                    before: Tables, sent: seq<Broadcast>, after: Tables, r: Response<SwapRecord>)
    requires inv.Invoice? && FundOutcome(w, cfg, q, buyer, inv, env, before, sent, after, r) && after != before
    ensures env.tip.Some? && env.built.Some? && env.swapId !in before.swaps && env.swapId in after.swaps
    ensures var row := after.swaps[env.swapId];
            && after.swaps == before.swaps[env.swapId := row]
            && after.quotes == before.quotes[q.quoteId := q.(swapId := Some(env.swapId))]
            && RecordFits(w, cfg, q, buyer, inv, env, row)
            && if PollsSucceed(env.polls, q.minFundingConfs) then row.status == SwapStatus.Funded && r == Done(row)
               else row.status == Created && r == Refused(Internal)
  {
    var record := FundedRecord(w, cfg, q, buyer, inv, env.swapId, env.tip.value, env.built.value).value;
    RecordIsFit(w, cfg, q, buyer, inv, env, record);
  }

  /**
   A call that changes the tables stores one swap: that of the request, the quote, the
   invoice that fits them and the funding it sent.
   */
  lemma CreatedSwapFits(w: World, cfg: Config, caller: Option<CallerRole>, req: CreateRequest, env: CreateEnv,
                        before: Tables, sent: seq<Broadcast>, after: Tables, r: Response<SwapRecord>)
    returns (inv: InvoiceText)
    requires CreateOutcome(w, cfg, caller, req, env, before, sent, after, r) && after != before
    requires req.quoteId in before.quotes ==> before.quotes[req.quoteId].quoteId == req.quoteId
    ensures Fundable(w, cfg, caller, req, env, before, inv) && StoresFit(w, cfg, req, env, before, after, inv, r)
    ensures |sent| == 1 && sent[0].ok && Some(sent[0].tx) == env.built
  {
    inv := EffectsNeedFundable(w, cfg, caller, req, env, before, sent, after, r);
    FundableGoesOn(w, cfg, caller, req, env, before, inv);
    StoredIsFit(w, cfg, before.quotes[req.quoteId], req.address.address, inv, env, before, sent, after, r);
  }

  /** The script of the HTLC that the call funds. */
  function FundedScript(w: World, cfg: Config, q: QuoteRecord, buyer: Address, inv: InvoiceText, tip: u32)
    : Result<bytes>
    requires inv.Invoice?
  {
    var spec :- SwapSpec(w, cfg, q, buyer, inv.paymentHash, tip);
    Ok(WitnessScript(spec))
  }

  /** Both HTLC outputs can be told apart and the amounts fit the store. */
  predicate Storable(w: World, cfg: Config, q: QuoteRecord, tx: Tx, spk: bytes) {
    && cfg.sellAssetId != w.policyAsset
    && (exists a: u32 :: PaysHtlc(tx, a, cfg.sellAssetId, spk))
    && (exists b: u32 :: PaysHtlc(tx, b, w.policyAsset, spk))
    && q.assetAmount <= 0x7FFF_FFFF_FFFF_FFFF && q.totalPriceMsat <= 0x7FFF_FFFF_FFFF_FFFF
    && cfg.feeSubsidy <= 0x7FFF_FFFF_FFFF_FFFF
  }

  /** A funding the network took is stored exactly if its outputs are found and its amounts fit. */
  lemma FundingStoredIff(w: World, cfg: Config, q: QuoteRecord, buyer: Address, inv: InvoiceText, env: CreateEnv,
                         before: Tables, sent: seq<Broadcast>, after: Tables, r: Response<SwapRecord>)
    requires inv.Invoice? && FundOutcome(w, cfg, q, buyer, inv, env, before, sent, after, r)
    requires |sent| == 1 && sent[0].ok && |sent[0].tx.outputs| <= U32_MAX && env.swapId !in before.swaps
    ensures env.tip.Some? && FundedScript(w, cfg, q, buyer, inv, env.tip.value).Ok?
    ensures var script := FundedScript(w, cfg, q, buyer, inv, env.tip.value).value;
            after != before <==> Storable(w, cfg, q, sent[0].tx, [0x00, 0x20] + w.c.sha256(script))
  {
    var script := FundedScript(w, cfg, q, buyer, inv, env.tip.value).value;
    ScanFindsIff(sent[0].tx, [0x00, 0x20] + w.c.sha256(script), cfg.sellAssetId, w.policyAsset);
    if after == before {
      assert env.swapId !in after.swaps;
    }
  }

  lemma ScanFindsIff(tx: Tx, spk: bytes, asset: Asset, policy: Asset)
    requires |tx.outputs| <= U32_MAX
    ensures ScanOutputs(tx.outputs, spk, asset, policy).Ok? <==>
            && asset != policy
            && (exists a: u32 :: PaysHtlc(tx, a, asset, spk)) && (exists b: u32 :: PaysHtlc(tx, b, policy, spk))
  {
    LastMatchIff(tx, spk, asset);
    LastMatchIff(tx, spk, policy);
  }

  lemma LastMatchIff(tx: Tx, spk: bytes, asset: Asset)
    requires |tx.outputs| <= U32_MAX
    ensures LastMatch(tx.outputs, spk, asset).Some? <==> exists a: u32 :: PaysHtlc(tx, a, asset, spk)
  {
    var m := LastMatch(tx.outputs, spk, asset);
    if m.Some? {
      assert PaysHtlc(tx, m.value, asset, spk);
    }
    if a: u32 :| PaysHtlc(tx, a, asset, spk) {
      assert Matches(tx.outputs[a], spk, asset);
    }
  }

  /** A successful answer is the row of the linked swap, new or old. */
  lemma AnswerIsLinked(w: World, cfg: Config, caller: Option<CallerRole>, req: CreateRequest, env: CreateEnv,
                       before: Tables, sent: seq<Broadcast>, after: Tables, record: SwapRecord)
    requires CreateOutcome(w, cfg, caller, req, env, before, sent, after, Done(record))
    requires req.quoteId in before.quotes ==> before.quotes[req.quoteId].quoteId == req.quoteId
    ensures !Blank(req.quoteId) && req.quoteId in after.quotes && after.quotes[req.quoteId].swapId.Some?
    ensures after.quotes[req.quoteId].swapId.value in after.swaps
    ensures after.swaps[after.quotes[req.quoteId].swapId.value] == record
  {
    if after == before && CreateDecision(w, cfg, before.quotes, before.swaps, caller, req).value.Existing? {
      SwapExistsIff(w, cfg, before.quotes, before.swaps, caller, req, record);
    } else {
      DoneChanges(w, cfg, caller, req, env, before, sent, after, record);
      var inv := CreatedSwapFits(w, cfg, caller, req, env, before, sent, after, Done(record));
    }
  }

  lemma DoneChanges(w: World, cfg: Config, caller: Option<CallerRole>, req: CreateRequest, env: CreateEnv,
                    before: Tables, sent: seq<Broadcast>, after: Tables, record: SwapRecord)
    requires CreateOutcome(w, cfg, caller, req, env, before, sent, after, Done(record))
    requires !CreateDecision(w, cfg, before.quotes, before.swaps, caller, req).value.Existing?
    ensures after != before
  {
    assert env.swapId in after.swaps && env.swapId !in before.swaps;
  }

  /**
   After a call that was answered with a swap, every later call on that quote gets the
   same row, sends nothing and changes nothing, whatever configuration is then in force.
   */
  lemma CreateIsIdempotent(w: World, cfg: Config, caller: Option<CallerRole>, req: CreateRequest, env: CreateEnv,
                           before: Tables, sent: seq<Broadcast>, after: Tables, record: SwapRecord, later: Config,
                           again: CreateRequest, env2: CreateEnv, sent2: seq<Broadcast>, after2: Tables,
                           r2: Response<SwapRecord>)
    requires CreateOutcome(w, cfg, caller, req, env, before, sent, after, Done(record))
    requires req.quoteId in before.quotes ==> before.quotes[req.quoteId].quoteId == req.quoteId
    requires CreateOutcome(w, later, Some(Buyer), again, env2, after, sent2, after2, r2)
    requires again.quoteId == req.quoteId && !again.address.NoAddress?
    ensures r2 == Done(record) && Untouched(after, sent2, after2)
  {
    AnswerIsLinked(w, cfg, caller, req, env, before, sent, after, record);
    SwapExistsIff(w, later, after.quotes, after.swaps, Some(Buyer), again, record);
  }
}
