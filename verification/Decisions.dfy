/**
 What the request handlers answer, told from the request, the tables and the
 configuration alone: who may call, what is accepted, and which code refuses what.
 */
module Decisions {
  import opened Types
  import opened Transaction
  import opened Records
  import opened Offer
  import opened Protocol
  import opened Service

  // ----- create_quote

  /** A quote is made for the seller, for the sold asset, for 0 to 6 confirmations, at a price that fits 64 bits. */
  lemma QuoteMadeIff(w: World, cfg: Config, caller: Option<CallerRole>, direction: Option<SwapDirection>, amount: u64,
                     assetId: Option<Asset>, minConfs: u32, quoteId: Id)
    ensures QuoteDecision(w, cfg, caller, direction, amount, assetId, minConfs, quoteId).Done? <==>
            && caller == Some(Seller) && direction.Some? && amount > 0 && assetId == Some(cfg.sellAssetId)
            && minConfs <= 6 && amount * cfg.priceMsatPerAssetUnit <= 0xFFFF_FFFF_FFFF_FFFF
  {
  }

  /** The quote says what was asked for and what the configuration offers. */
  lemma QuoteSays(w: World, cfg: Config, caller: Option<CallerRole>, direction: Option<SwapDirection>, amount: u64,
                  assetId: Option<Asset>, minConfs: u32, quoteId: Id, q: QuoteRecord)
    requires QuoteDecision(w, cfg, caller, direction, amount, assetId, minConfs, quoteId) == Done(q)
    ensures q.quoteId == quoteId && Some(q.direction) == direction && Some(q.assetId) == assetId
    ensures q.assetAmount == amount && q.minFundingConfs == minConfs && q.swapId.None?
    ensures q.totalPriceMsat == amount * cfg.priceMsatPerAssetUnit
    ensures q.priceMsatPerAssetUnit == cfg.priceMsatPerAssetUnit
    ensures q.feeSubsidy == cfg.feeSubsidy && q.refundDeltaBlocks == cfg.refundDeltaBlocks
    ensures q.invoiceExpirySecs == cfg.invoiceExpirySecs && q.maxMinFundingConfs == 6
    ensures q.offerId == OfferId(w.c, QuoteOffer(q))
  {
  }

  lemma QuoteRefusals(w: World, cfg: Config, caller: Option<CallerRole>, direction: Option<SwapDirection>, amount: u64,
                      assetId: Option<Asset>, minConfs: u32, quoteId: Id)
    ensures var d := QuoteDecision(w, cfg, caller, direction, amount, assetId, minConfs, quoteId);
            && (d == Refused(Unauthenticated) <==> caller.None?)
            && (d == Refused(PermissionDenied) <==> caller == Some(Buyer))
            && (d == Refused(FailedPrecondition) <==>
                  && caller == Some(Seller) && direction.Some? && amount > 0
                  && assetId.Some? && assetId.value != cfg.sellAssetId)
            && d != Refused(NotFound) && d != Refused(Internal)
  {
  }

  // ----- create_lightning_payment

  /** Who pays the invoice. */
  function PayerOf(d: SwapDirection): CallerRole {
    if d.LnToLiquid? then Buyer else Seller
  }

  /** The payer, and nobody else, gets a payment made or the stored one back. */
  lemma PaymentMadeIff(swaps: map<Id, SwapRecord>, caller: Option<CallerRole>, swapId: Id, r: SwapRecord)
    ensures PayDecision(swaps, caller, swapId) == Done(PayInvoice(r)) <==>
            && !Blank(swapId) && swapId in swaps && r == swaps[swapId] && caller == Some(PayerOf(r.terms.direction))
            && r.status == SwapStatus.Funded && (r.lnPaymentId.None? || r.lnPreimage.None?)
  {
  }

  lemma PaymentStoredIff(swaps: map<Id, SwapRecord>, caller: Option<CallerRole>, swapId: Id, p: Payment)
    ensures PayDecision(swaps, caller, swapId) == Done(StoredPayment(p)) <==>
            && !Blank(swapId) && swapId in swaps && caller == Some(PayerOf(swaps[swapId].terms.direction))
            && swaps[swapId].lnPaymentId == Some(p.id) && swaps[swapId].lnPreimage == Some(p.preimage)
  {
  }

  lemma PaymentRefusals(swaps: map<Id, SwapRecord>, caller: Option<CallerRole>, swapId: Id)
    ensures var d := PayDecision(swaps, caller, swapId);
            && (d == Refused(Unauthenticated) <==> caller.None?)
            && (d == Refused(InvalidArgument) <==> caller.Some? && Blank(swapId))
            && (d == Refused(NotFound) <==> caller.Some? && !Blank(swapId) && swapId !in swaps)
            && (d == Refused(PermissionDenied) <==>
                  && caller.Some? && !Blank(swapId) && swapId in swaps
                  && caller.value != PayerOf(swaps[swapId].terms.direction))
            && d != Refused(Internal)
  {
  }

  /**
   The node is told to pay the stored invoice. The answer is stored exactly if its
   preimage opens the stored hash, and then with the id and the preimage the node gave.
   */
  lemma PaymentStoredAfter(c: Crypto, swaps: map<Id, SwapRecord>, caller: Option<CallerRole>, swapId: Id, pay: Payer)
    requires PayDecision(swaps, caller, swapId).Done? && PayDecision(swaps, caller, swapId).value.PayInvoice?
    ensures swapId in swaps
    ensures var r, (answer, after) := swaps[swapId], PayResult(c, swaps, caller, swapId, pay);
            match pay(r.terms.invoice)
            case None => answer == Refused(Internal) && after == swaps
            case Some((id, preimage)) =>
              if c.sha256(preimage) != r.terms.paymentHash then answer == Refused(Internal) && after == swaps
              else
                && answer == Done(Payment(id, preimage))
                && after == swaps[swapId := r.(lnPaymentId := Some(id), lnPreimage := Some(preimage), status := Paid)]
  {
  }

  // ----- create_asset_claim

  /** Who claims, with which key, and where the claim pays. */
  function ClaimerOf(d: SwapDirection): CallerRole {
    if d.LnToLiquid? then Buyer else Seller
  }

  function ClaimerIndex(cfg: Config, d: SwapDirection): u32 {
    if d.LnToLiquid? then cfg.buyerKeyIndex else cfg.sellerKeyIndex
  }

  /** The fee of a claim: 500 unless the caller names one. */
  function FeePaid(request: u64): u64 {
    if request > 0 then request else 500
  }

  /** A claim is sent for the claimer of a paid, unclaimed swap if the fee leaves something, to its own address. */
  lemma ClaimSentIff(w: World, cfg: Config, swaps: map<Id, SwapRecord>, caller: Option<CallerRole>, swapId: Id,
                     feeRequest: u64, synced: bool)
    ensures (exists tx :: ClaimDecision(w, cfg, swaps, caller, swapId, feeRequest, synced) == Done(SendClaim(tx))) <==>
            && !Blank(swapId) && swapId in swaps && synced
            && var r := swaps[swapId];
               && caller == Some(ClaimerOf(r.terms.direction)) && r.claimTxid.None?
               && r.lnPreimage.Some? && |r.lnPreimage.value| == 32
               && FeePaid(feeRequest) < r.terms.feeSubsidy
               && (r.terms.direction.LnToLiquid? ==> w.addressAt(cfg.buyerKeyIndex) == r.terms.buyerAddress)
  {
  }

  /** The claim sent pays the asset and what the fee leaves to the claimer's own address, and the fee. */
  lemma ClaimPays(w: World, cfg: Config, swaps: map<Id, SwapRecord>, caller: Option<CallerRole>, swapId: Id,
                  feeRequest: u64, synced: bool, tx: Tx)
    requires ClaimDecision(w, cfg, swaps, caller, swapId, feeRequest, synced) == Done(SendClaim(tx))
    ensures swapId in swaps
    ensures var t := swaps[swapId].terms;
            var fee := FeePaid(feeRequest);
            var own := w.addressAt(ClaimerIndex(cfg, t.direction)).script;
            && fee < t.feeSubsidy
            && tx.outputs == [Explicit(t.assetId, t.assetAmount, own), Explicit(w.policyAsset, t.feeSubsidy - fee, own),
                              Explicit(w.policyAsset, fee, [])]
            && |tx.inputs| == 2
            && tx.inputs[0].prev == OutPoint(t.fundingTxid, t.assetVout)
            && tx.inputs[1].prev == OutPoint(t.fundingTxid, t.lbtcVout)
            && forall i :: 0 <= i < 2 ==>
                 && |tx.inputs[i].scriptWitness| == 5
                 && tx.inputs[i].scriptWitness[1] == w.c.pubkey(w.secretKey(ClaimerIndex(cfg, t.direction)))
                 && Some(tx.inputs[i].scriptWitness[2]) == swaps[swapId].lnPreimage
                 && tx.inputs[i].scriptWitness[4] == t.witnessScript
  {
  }

  lemma ClaimRefusals(w: World, cfg: Config, swaps: map<Id, SwapRecord>, caller: Option<CallerRole>, swapId: Id,
                      feeRequest: u64, synced: bool)
    ensures var d := ClaimDecision(w, cfg, swaps, caller, swapId, feeRequest, synced);
            && (d == Refused(Unauthenticated) <==> caller.None?)
            && (d == Refused(InvalidArgument) <==> caller.Some? && Blank(swapId))
            && (d == Refused(NotFound) <==> caller.Some? && !Blank(swapId) && swapId !in swaps)
            && (d == Refused(PermissionDenied) <==>
                  && caller.Some? && !Blank(swapId) && swapId in swaps
                  && caller.value != ClaimerOf(swaps[swapId].terms.direction))
            && (d == Refused(FailedPrecondition) <==>
                  && !Blank(swapId) && swapId in swaps && caller == Some(ClaimerOf(swaps[swapId].terms.direction))
                  && swaps[swapId].claimTxid.None? && swaps[swapId].lnPreimage.None?)
            && (forall txid :: d == Done(StoredClaim(txid)) <==>
                  && !Blank(swapId) && swapId in swaps && caller == Some(ClaimerOf(swaps[swapId].terms.direction))
                  && swaps[swapId].claimTxid == Some(txid))
  {
  }

  // ----- the refund of a stored swap

  function RefunderIndex(cfg: Config, d: SwapDirection): u32 {
    if d.LnToLiquid? then cfg.sellerKeyIndex else cfg.buyerKeyIndex
  }

  /** The refund sent pays the asset and what the fee leaves to the refunder's own address, and the fee. */
  lemma RefundPays(w: World, cfg: Config, t: SwapTerms, fee: u64, tx: Tx)
    requires RefundFor(w, cfg, t, fee) == Ok(tx)
    ensures fee < t.feeSubsidy && (t.direction.LiquidToLn? ==> w.addressAt(cfg.buyerKeyIndex) == t.buyerAddress)
    ensures var own := w.addressAt(RefunderIndex(cfg, t.direction)).script;
            && tx.outputs == [Explicit(t.assetId, t.assetAmount, own), Explicit(w.policyAsset, t.feeSubsidy - fee, own),
                              Explicit(w.policyAsset, fee, [])]
            && tx.lockTime == t.refundLockHeight && |tx.inputs| == 2
            && tx.inputs[0].prev == OutPoint(t.fundingTxid, t.assetVout)
            && tx.inputs[1].prev == OutPoint(t.fundingTxid, t.lbtcVout)
            && forall i :: 0 <= i < 2 ==>
                 && |tx.inputs[i].scriptWitness| == 4
                 && tx.inputs[i].scriptWitness[1] == w.c.pubkey(w.secretKey(RefunderIndex(cfg, t.direction)))
                 && tx.inputs[i].scriptWitness[2] == [] && tx.inputs[i].scriptWitness[3] == t.witnessScript
  {
  }

  // ----- create_swap

  /** A P2WPKH address of the network. */
  predicate PayableAddress(w: World, a: AddressText) {
    && a.Parsed? && a.address.network == w.network
    && |a.address.script| == 22 && a.address.script[0] == 0x00 && a.address.script[1] == 0x14
  }

  /** The quote is the seller's current offer. */
  predicate OfferStands(w: World, cfg: Config, q: QuoteRecord) {
    q.offerId == OfferId(w.c, CurrentOffer(cfg)) && q.assetId == cfg.sellAssetId
  }

  /** A buyer's request goes on to fund exactly if its quote is unlinked, still offered, and the address can be paid. */
  lemma SwapFundedIff(w: World, cfg: Config, quotes: map<Id, QuoteRecord>, swaps: map<Id, SwapRecord>,
                      caller: Option<CallerRole>, req: CreateRequest, q: QuoteRecord, buyer: Address)
    ensures CreateDecision(w, cfg, quotes, swaps, caller, req) == Done(FundNew(q, buyer)) <==>
            && caller == Some(Buyer) && !Blank(req.quoteId) && req.quoteId in quotes && q == quotes[req.quoteId]
            && q.swapId.None? && OfferStands(w, cfg, q) && q.minFundingConfs <= 6
            && PayableAddress(w, req.address) && buyer == req.address.address
  {
    if req.address.Parsed? {
      KeyHashIff(req.address.address.script);
    }
  }

  lemma KeyHashIff(script: bytes)
    ensures KeyHashOfScript(script).Ok? <==> |script| == 22 && script[0] == 0x00 && script[1] == 0x14
  {
  }

  /** Once its quote is linked, a buyer's request is answered with the linked row, whatever the configuration. */
  lemma SwapExistsIff(w: World, cfg: Config, quotes: map<Id, QuoteRecord>, swaps: map<Id, SwapRecord>,
                      caller: Option<CallerRole>, req: CreateRequest, r: SwapRecord)
    ensures CreateDecision(w, cfg, quotes, swaps, caller, req) == Done(Existing(r)) <==>
            && caller == Some(Buyer) && !Blank(req.quoteId) && !req.address.NoAddress? && req.quoteId in quotes
            && quotes[req.quoteId].swapId.Some? && quotes[req.quoteId].swapId.value in swaps
            && r == swaps[quotes[req.quoteId].swapId.value]
  {
  }

  lemma SwapRefusals(w: World, cfg: Config, quotes: map<Id, QuoteRecord>, swaps: map<Id, SwapRecord>,
                     caller: Option<CallerRole>, req: CreateRequest)
    ensures var d := CreateDecision(w, cfg, quotes, swaps, caller, req);
            && (d == Refused(Unauthenticated) <==> caller.None?)
            && (d == Refused(PermissionDenied) <==> caller == Some(Seller))
            && (d == Refused(NotFound) <==>
                  caller == Some(Buyer) && !Blank(req.quoteId) && !req.address.NoAddress? && req.quoteId !in quotes)
            && (d == Refused(Internal) <==>
                  && caller == Some(Buyer) && !Blank(req.quoteId) && !req.address.NoAddress? && req.quoteId in quotes
                  && quotes[req.quoteId].swapId.Some? && quotes[req.quoteId].swapId.value !in swaps)
            && (d == Refused(FailedPrecondition) <==>
                  && caller == Some(Buyer) && !Blank(req.quoteId) && !req.address.NoAddress? && req.quoteId in quotes
                  && quotes[req.quoteId].swapId.None? && !OfferStands(w, cfg, quotes[req.quoteId]))
  {
  }

  /**
   The invoice of a new swap: for LN_TO_LIQUID the one the seller's node makes for the
   quoted price and expiry, and the buyer brings none; for LIQUID_TO_LN the buyer's, of the
   quoted price and not expired.
   */
  predicate InvoiceFits(q: QuoteRecord, buyers: Option<InvoiceText>, node: Invoicer, inv: InvoiceText) {
    && inv.Invoice?
    && if q.direction.LnToLiquid?
       then buyers.None? && node(q.totalPriceMsat, q.invoiceExpirySecs) == Some(inv)
       else buyers == Some(inv) && inv.msat == Some(q.totalPriceMsat) && !inv.expired
  }

  lemma InvoiceTakenIff(q: QuoteRecord, buyers: Option<InvoiceText>, node: Invoicer, inv: InvoiceText)
    ensures InvoiceDecision(q, buyers, node) == Done(inv) <==> InvoiceFits(q, buyers, node, inv)
  {
  }

  /** A node that fails is the server's fault; everything else is the buyer's. */
  lemma InvoiceRefusals(q: QuoteRecord, buyers: Option<InvoiceText>, node: Invoicer)
    ensures var d := InvoiceDecision(q, buyers, node);
            && (d == Refused(InvalidArgument) <==>
                  if q.direction.LnToLiquid? then buyers.Some? else !exists inv :: InvoiceFits(q, buyers, node, inv))
            && (d == Refused(Internal) <==>
                  q.direction.LnToLiquid? && buyers.None? && !exists inv :: InvoiceFits(q, buyers, node, inv))
            && (d.Refused? ==> d.code == InvalidArgument || d.code == Internal)
  {
    var d := InvoiceDecision(q, buyers, node);
    if d.Done? {
      InvoiceTakenIff(q, buyers, node, d.value);
    }
    if inv :| InvoiceFits(q, buyers, node, inv) {
      InvoiceTakenIff(q, buyers, node, inv);
    }
  }
}
