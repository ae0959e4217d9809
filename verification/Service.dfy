/**
 The request handlers as the service runs them, one call at a time: authorization,
 argument checks in order, the store and wallet calls, and the status code of each
 refusal. Each handler is then matched with the protocol actions it takes.

 The caller is `None` without a valid token. Answers of the Lightning node, the Electrum
 server and the transaction builder are inputs.
 */
module Service {
  import opened Types
  import opened HtlcScript
  import opened Transaction
  import opened HtlcSpend
  import opened Funding
  import opened Records
  import opened Offer
  import opened Store
  import opened Protocol
  import opened Wallet

  datatype Code = Unauthenticated | PermissionDenied | InvalidArgument | NotFound | FailedPrecondition | Internal

  datatype Response<+T> = Done(value: T) | Refused(code: Code)

  /** The Unicode property White_Space. */
  predicate WhiteSpace(c: char) {
    var n := c as int;
    || 0x09 <= n <= 0x0D || n == 0x20 || n == 0x85 || n == 0xA0 || n == 0x1680 || 0x2000 <= n <= 0x200A
    || n == 0x2028 || n == 0x2029 || n == 0x202F || n == 0x205F || n == 0x3000
  }

  /** `str::trim` leaves nothing. */
  predicate Blank(s: string) {
    forall c :: c in s ==> WhiteSpace(c)
  }

  /** `require_seller`, `require_buyer` and `require_swap_role`. */
  function RoleRefusal(caller: Option<CallerRole>, required: CallerRole): Option<Code> {
    if caller.None? then Some(Unauthenticated)
    else if caller.value != required then Some(PermissionDenied)
    else None
  }

  // ----- create_quote

  function QuoteDecision(w: World, cfg: Config, caller: Option<CallerRole>, direction: Option<SwapDirection>,
                         amount: u64, assetId: Option<Asset>, minConfs: u32, quoteId: Id): Response<QuoteRecord> {
    var refusal := RoleRefusal(caller, Seller);
    if refusal.Some? then Refused(refusal.value)
    else if direction.None? || amount == 0 || assetId.None? then Refused(InvalidArgument)
    else if assetId.value != cfg.sellAssetId then Refused(FailedPrecondition)
    else
      match NewQuote(w, cfg, quoteId, direction.value, amount, minConfs)
      case Err => Refused(InvalidArgument)
      case Ok(q) => Done(q)
  }

  // ----- create_lightning_payment

  datatype Payment = Payment(id: bytes, preimage: bytes)

  datatype PayPlan = StoredPayment(payment: Payment) | PayInvoice(record: SwapRecord)

  function PayDecision(swaps: map<Id, SwapRecord>, caller: Option<CallerRole>, swapId: Id): Response<PayPlan> {
    if caller.None? then Refused(Unauthenticated)
    else if Blank(swapId) then Refused(InvalidArgument)
    else if swapId !in swaps then Refused(NotFound)
    else
      var r := swaps[swapId];
      var refusal := RoleRefusal(caller, PartiesFor(r.terms.direction).lnPayer);
      if refusal.Some? then Refused(refusal.value)
      else if r.lnPaymentId.Some? && r.lnPreimage.Some? then
        Done(StoredPayment(Payment(r.lnPaymentId.value, r.lnPreimage.value)))
      else if !r.status.Funded? then Refused(FailedPrecondition)
      else Done(PayInvoice(r))
  }

  /** What the Lightning node answers when told to pay an invoice: payment id and preimage, or `None` if it fails. */
  type Payer = bytes -> Option<(bytes, Hash32)>

  /** The response and the table after the call. */
  function PayResult(c: Crypto, swaps: map<Id, SwapRecord>, caller: Option<CallerRole>, swapId: Id, pay: Payer)
    : (Response<Payment>, map<Id, SwapRecord>) {
    match PayDecision(swaps, caller, swapId)
    case Refused(code) => (Refused(code), swaps)
    case Done(StoredPayment(payment)) => (Done(payment), swaps)
    case Done(PayInvoice(r)) =>
      var settled := pay(r.terms.invoice);
      if settled.Some? && c.sha256(settled.value.1) == r.terms.paymentHash
      then (Done(Payment(settled.value.0, settled.value.1)),
            ApplyUpdate(swaps, SetPayment(swapId, settled.value.0, settled.value.1, Paid)))
      else (Refused(Internal), swaps)
  }

  /** A second payment call returns the first one's answer and pays nothing, whatever the node says. */
  lemma PayIsIdempotent(c: Crypto, swaps: map<Id, SwapRecord>, caller: Option<CallerRole>, swapId: Id, pay: Payer,
                        payAgain: Payer)
    requires PayResult(c, swaps, caller, swapId, pay).0.Done?
    ensures var (r, after) := PayResult(c, swaps, caller, swapId, pay);
            PayResult(c, after, caller, swapId, payAgain) == (r, after)
  {
  }

  // ----- create_asset_claim

  datatype ClaimPlan = StoredClaim(txid: Txid) | SendClaim(tx: Tx)

  function ClaimDecision(w: World, cfg: Config, swaps: map<Id, SwapRecord>, caller: Option<CallerRole>, swapId: Id,
                         feeRequest: u64, synced: bool): Response<ClaimPlan> {
    if caller.None? then Refused(Unauthenticated)
    else if Blank(swapId) then Refused(InvalidArgument)
    else if swapId !in swaps then Refused(NotFound)
    else
      var r := swaps[swapId];
      var refusal := RoleRefusal(caller, PartiesFor(r.terms.direction).liquidClaimer);
      if refusal.Some? then Refused(refusal.value)
      else if r.claimTxid.Some? then Done(StoredClaim(r.claimTxid.value))
      else if r.lnPreimage.None? then Refused(FailedPrecondition)
      else if |r.lnPreimage.value| != 32 || !synced then Refused(Internal)
      else
        match ClaimFor(w, cfg, r.terms, r.lnPreimage.value, ClaimFee(feeRequest))
        case Err => Refused(Internal)
        case Ok(tx) => Done(SendClaim(tx))
  }

  /** After a claim went out, every later claim call returns its txid and sends nothing. */
  lemma ClaimIsIdempotent(w: World, cfg: Config, swaps: map<Id, SwapRecord>, caller: Option<CallerRole>, swapId: Id,
                          feeRequest: u64, tx: Tx, laterFee: u64, synced: bool)
    requires ClaimDecision(w, cfg, swaps, caller, swapId, feeRequest, true) == Done(SendClaim(tx))
    ensures var after := ApplyUpdate(swaps, SetClaim(swapId, TxidOf(w.c, tx), Claimed));
            ClaimDecision(w, cfg, after, caller, swapId, laterFee, synced) == Done(StoredClaim(TxidOf(w.c, tx)))
  {
  }

  // ----- create_swap

  datatype AddressText = NoAddress | BadAddress | Parsed(address: Address)

  datatype InvoiceText = BadInvoice | Invoice(text: bytes, msat: Option<u64>, expired: bool, paymentHash: Hash32)

  /** `invoice` is the buyer's, `None` when left blank. */
  datatype CreateRequest = CreateRequest(quoteId: Id, address: AddressText, invoice: Option<InvoiceText>)

  datatype CreatePlan = Existing(record: SwapRecord) | FundNew(quote: QuoteRecord, buyer: Address)

  function CreateDecision(w: World, cfg: Config, quotes: map<Id, QuoteRecord>, swaps: map<Id, SwapRecord>,
                          caller: Option<CallerRole>, req: CreateRequest): Response<CreatePlan> {
    var refusal := RoleRefusal(caller, Buyer);
    if refusal.Some? then Refused(refusal.value)
    else if Blank(req.quoteId) || req.address.NoAddress? then Refused(InvalidArgument)
    else if req.quoteId !in quotes then Refused(NotFound)
    else
      var q := quotes[req.quoteId];
      if q.swapId.Some? then
        if q.swapId.value in swaps then Done(Existing(swaps[q.swapId.value])) else Refused(Internal)
      else if OfferId(w.c, CurrentOffer(cfg)) != q.offerId || q.assetId != cfg.sellAssetId then
        Refused(FailedPrecondition)
      else if req.address.BadAddress? || q.minFundingConfs > MAX_MIN_FUNDING_CONFS then Refused(InvalidArgument)
      else if KeyHashOfScript(req.address.address.script).Err? || req.address.address.network != w.network
      then Refused(InvalidArgument)
      else Done(FundNew(q, req.address.address))
  }

  /** The invoice the Lightning node makes for an amount and an expiry, `None` when it fails. */
  type Invoicer = (u64, u32) -> Option<InvoiceText>

  function InvoiceDecision(q: QuoteRecord, buyers: Option<InvoiceText>, node: Invoicer)
    : Response<InvoiceText> {
    match q.direction
    case LnToLiquid =>
      if buyers.Some? then Refused(InvalidArgument)
      else
        var made := node(q.totalPriceMsat, q.invoiceExpirySecs);
        if made.None? || made.value.BadInvoice? then Refused(Internal) else Done(made.value)
    case LiquidToLn =>
      if buyers.None? || buyers.value.BadInvoice? then Refused(InvalidArgument)
      else if buyers.value.msat != Some(q.totalPriceMsat) || buyers.value.expired then Refused(InvalidArgument)
      else Done(buyers.value)
  }

  /** What the world answers during one create_swap call; `built` is the signed funding transaction. */
  datatype CreateEnv = CreateEnv(swapId: Id, node: Invoicer, tip: Option<u32>, built: Option<Tx>,
                                 polls: seq<Result<Option<u32>>>)

  function SwapSpec(w: World, cfg: Config, q: QuoteRecord, buyer: Address, paymentHash: Hash32, tip: u32)
    : Result<HtlcSpec> {
    SpecFor(w, q.direction, paymentHash, buyer, cfg.sellerKeyIndex, SaturatingAdd(tip, cfg.refundDeltaBlocks))
  }

  /** The record of a funded swap: what was built, with the outputs the scan found. */
  function FundedRecord(w: World, cfg: Config, q: QuoteRecord, buyer: Address, invoice: InvoiceText, swapId: Id,
                        tip: u32, tx: Tx)
    : Result<SwapRecord>
    requires invoice.Invoice?
  {
    var spec :- SwapSpec(w, cfg, q, buyer, invoice.paymentHash, tip);
    var script := WitnessScript(spec);
    var vouts :- ScanOutputs(tx.outputs, P2wshScript(w.c, script), cfg.sellAssetId, w.policyAsset);
    if vouts.0 > U32_MAX || vouts.1 > U32_MAX then Err
    else Ok(NewRecord(TermsFor(w, cfg, CreateRead(q, swapId, buyer, invoice.text, invoice.paymentHash), script,
                               spec.refundLockHeight, TxidOf(w.c, tx), vouts.0, vouts.1)))
  }

  /** Some poll sees enough confirmations, and none before it fails. */
  predicate PollsSucceed(polls: seq<Result<Option<u32>>>, minConfs: u32) {
    exists k :: 0 <= k < |polls| && Sufficient(polls[k], minConfs)
                && forall j :: 0 <= j < k ==> polls[j].Ok? && !Sufficient(polls[j], minConfs)
  }

  datatype Tables = Tables(quotes: map<Id, QuoteRecord>, swaps: map<Id, SwapRecord>)

  function WithSwap(t: Tables, q: QuoteRecord, r: SwapRecord): Tables {
    Tables(t.quotes[q.quoteId := q.(swapId := Some(r.terms.swapId))], t.swaps[r.terms.swapId := r])
  }

  /**
   The funding half of create_swap. A failure before the broadcast changes nothing; a
   failure between the broadcast and the insertion leaves a funded HTLC without a record;
   a failure while waiting leaves the swap Created and linked.
   */
  predicate FundOutcome(w: World, cfg: Config, q: QuoteRecord, buyer: Address, invoice: InvoiceText, env: CreateEnv,
                        before: Tables, sent: seq<Broadcast>, after: Tables, r: Response<SwapRecord>)
    requires invoice.Invoice?
  {
    if env.tip.None? || env.built.None? || SwapSpec(w, cfg, q, buyer, invoice.paymentHash, env.tip.value).Err? then
      r == Refused(Internal) && sent == [] && after == before
    else
      var record := FundedRecord(w, cfg, q, buyer, invoice, env.swapId, env.tip.value, env.built.value);
      && |sent| == 1 && sent[0].tx == env.built.value
      && if !sent[0].ok || record.Err? || !SwapStorable(record.value) || env.swapId in before.swaps then
           r == Refused(Internal) && after == before
         else if !PollsSucceed(env.polls, q.minFundingConfs) then
           r == Refused(Internal) && after == WithSwap(before, q, record.value)
         else
           var funded := record.value.(status := SwapStatus.Funded);
           r == Done(funded) && after == WithSwap(before, q, funded)
  }

  /** What one create_swap call sends, leaves and answers. */
  predicate CreateOutcome(w: World, cfg: Config, caller: Option<CallerRole>, req: CreateRequest, env: CreateEnv,
                          before: Tables, sent: seq<Broadcast>, after: Tables, r: Response<SwapRecord>) {
    match CreateDecision(w, cfg, before.quotes, before.swaps, caller, req)
    case Refused(code) => r == Refused(code) && sent == [] && after == before
    case Done(Existing(record)) => r == Done(record) && sent == [] && after == before
    case Done(FundNew(q, buyer)) =>
      match InvoiceDecision(q, req.invoice, env.node)
      case Refused(code) => r == Refused(code) && sent == [] && after == before
      case Done(invoice) =>
        invoice.Invoice? && FundOutcome(w, cfg, q, buyer, invoice, env, before, sent, after, r)
  }

  /** Told by the counts that the polls read. */
  lemma PollsSucceedIff(polls: seq<Result<Option<u32>>>, minConfs: u32)
    ensures PollsSucceed(polls, minConfs) <==>
            exists k :: 0 <= k < |polls| && polls[k].Ok? && polls[k].value.Some? && polls[k].value.value >= minConfs
                        && forall j :: 0 <= j < k ==>
                             polls[j].Ok? && (polls[j].value.None? || polls[j].value.value < minConfs)
  {
    if k :| 0 <= k < |polls| && polls[k].Ok? && polls[k].value.Some? && polls[k].value.value >= minConfs
            && forall j :: 0 <= j < k ==> polls[j].Ok? && (polls[j].value.None? || polls[j].value.value < minConfs)
    {
      assert Sufficient(polls[k], minConfs);
      assert forall j :: 0 <= j < k ==> polls[j].Ok? && !Sufficient(polls[j], minConfs);
    }
  }

  class SwapService {
    const cfg: Config
    const wallet: LiquidWallet
    const store: SqliteStore

    constructor (cfg: Config, wallet: LiquidWallet, store: SqliteStore)
      ensures this.cfg == cfg && this.wallet == wallet && this.store == store
    {
      this.cfg := cfg;
      this.wallet := wallet;
      this.store := store;
    }

    ghost function State(): Tables
      reads this, store
      requires store.Valid()
    {
      Tables(store.Quotes(), store.Swaps())
    }

    method CreateQuote(caller: Option<CallerRole>, direction: Option<SwapDirection>, amount: u64,
                       assetId: Option<Asset>, minConfs: u32, quoteId: Id) returns (r: Response<QuoteRecord>)
      requires store.Valid()
      modifies store
      ensures store.Valid() && store.Swaps() == old(store.Swaps())
      ensures var d := QuoteDecision(wallet.world, cfg, caller, direction, amount, assetId, minConfs, quoteId);
              if d.Done? && QuoteStorable(d.value) && quoteId !in old(store.Quotes())
              then r == d && store.Quotes() == old(store.Quotes())[quoteId := d.value]
              else r == (if d.Done? then Refused(Internal) else d) && store.Quotes() == old(store.Quotes())
    {
      var refusal := RoleRefusal(caller, Seller);
      if refusal.Some? { return Refused(refusal.value); }
      if direction.None? || amount == 0 || assetId.None? { return Refused(InvalidArgument); }
      if assetId.value != cfg.sellAssetId { return Refused(FailedPrecondition); }
      if minConfs > MAX_MIN_FUNDING_CONFS { return Refused(InvalidArgument); }
      var offer := CurrentOffer(cfg);
      var total := amount * offer.priceMsatPerAssetUnit;
      if total > U64_MAX { return Refused(InvalidArgument); }
      var q := QuoteRecord(quoteId, OfferId(wallet.world.c, offer), direction.value, offer.assetId, amount, minConfs,
                           total, offer.priceMsatPerAssetUnit, offer.feeSubsidy, offer.refundDeltaBlocks,
                           offer.invoiceExpirySecs, offer.maxMinFundingConfs, None);
      var ok := store.InsertQuote(q);
      if !ok { return Refused(Internal); }
      return Done(q);
    }

    method CreateLightningPayment(caller: Option<CallerRole>, swapId: Id, pay: Payer)
      returns (r: Response<Payment>)
      requires store.Valid()
      modifies store
      ensures store.Valid() && store.Quotes() == old(store.Quotes())
      ensures (r, store.Swaps()) == PayResult(wallet.world.c, old(store.Swaps()), caller, swapId, pay)
    {
      if caller.None? { return Refused(Unauthenticated); }
      if Blank(swapId) { return Refused(InvalidArgument); }
      var found := store.GetSwap(swapId);
      if found.Err? { return Refused(Internal); }
      if found.value.None? { return Refused(NotFound); }
      var record := found.value.value;
      var refusal := RoleRefusal(caller, PartiesFor(record.terms.direction).lnPayer);
      if refusal.Some? { return Refused(refusal.value); }
      if record.lnPaymentId.Some? && record.lnPreimage.Some? {
        return Done(Payment(record.lnPaymentId.value, record.lnPreimage.value));
      }
      if record.status != SwapStatus.Funded { return Refused(FailedPrecondition); }
      var settled := pay(record.terms.invoice);
      if settled.None? { return Refused(Internal); }
      var (paymentId, preimage) := settled.value;
      if wallet.world.c.sha256(preimage) != record.terms.paymentHash { return Refused(Internal); }
      var ok := store.UpsertSwapPayment(swapId, paymentId, preimage, Paid);
      if !ok { return Refused(Internal); }
      return Done(Payment(paymentId, preimage));
    }

    method CreateAssetClaim(caller: Option<CallerRole>, swapId: Id, feeRequest: u64, observed: Option<u32>)
      returns (r: Response<Txid>)
      requires store.Valid()
      modifies store, wallet
      ensures store.Valid() && store.Quotes() == old(store.Quotes())
      ensures match ClaimDecision(wallet.world, cfg, old(store.Swaps()), caller, swapId, feeRequest, observed.Some?)
              case Refused(code) =>
                r == Refused(code) && store.Swaps() == old(store.Swaps()) && wallet.broadcasts == old(wallet.broadcasts)
              case Done(StoredClaim(txid)) =>
                r == Done(txid) && store.Swaps() == old(store.Swaps()) && wallet.broadcasts == old(wallet.broadcasts)
              case Done(SendClaim(tx)) =>
                var txid := TxidOf(wallet.world.c, tx);
                || (wallet.broadcasts == old(wallet.broadcasts) + [Broadcast(tx, true)]
                    && r == Done(txid)
                    && store.Swaps() == ApplyUpdate(old(store.Swaps()), SetClaim(swapId, txid, Claimed)))
                || (wallet.broadcasts == old(wallet.broadcasts) + [Broadcast(tx, false)]
                    && r == Refused(Internal) && store.Swaps() == old(store.Swaps()))
    {
      if caller.None? { return Refused(Unauthenticated); }
      if Blank(swapId) { return Refused(InvalidArgument); }
      var found := store.GetSwap(swapId);
      if found.Err? { return Refused(Internal); }
      if found.value.None? { return Refused(NotFound); }
      var record := found.value.value;
      var refusal := RoleRefusal(caller, PartiesFor(record.terms.direction).liquidClaimer);
      if refusal.Some? { return Refused(refusal.value); }
      if record.claimTxid.Some? { return Done(record.claimTxid.value); }
      if record.lnPreimage.None? { return Refused(FailedPrecondition); }
      if |record.lnPreimage.value| != 32 { return Refused(Internal); }
      var synced := wallet.Sync(observed);
      if !synced { return Refused(Internal); }
      var tx := BuildClaim(wallet.world, cfg, record, record.lnPreimage.value, ClaimFee(feeRequest));
      if tx.Err? { return Refused(Internal); }
      var sent := wallet.BroadcastTransaction(tx.value);
      if !sent { return Refused(Internal); }
      var ok := store.UpsertSwapClaim(swapId, TxidOf(wallet.world.c, tx.value), Claimed);
      return Done(TxidOf(wallet.world.c, tx.value));
    }

    method CreateSwap(caller: Option<CallerRole>, req: CreateRequest, env: CreateEnv) returns (r: Response<SwapRecord>)
      requires store.Valid() && env.polls != []
      modifies store, wallet
      ensures store.Valid() && old(wallet.broadcasts) <= wallet.broadcasts
      ensures CreateOutcome(wallet.world, cfg, caller, req, env, old(State()),
                            wallet.broadcasts[|old(wallet.broadcasts)|..], State(), r)
    {
      var plan := ReadQuote(caller, req);
      if plan.Refused? { return Refused(plan.code); }
      if plan.value.Existing? { return Done(plan.value.record); }
      var q, buyer := plan.value.quote, plan.value.buyer;
      var invoice := InvoiceDecision(q, req.invoice, env.node);
      if invoice.Refused? { return Refused(invoice.code); }
      r := FundAndAwait(q, buyer, invoice.value, env);
    }

    /** The blocking task of create_swap: fund, then await the confirmations. */
    method FundAndAwait(q: QuoteRecord, buyer: Address, invoice: InvoiceText, env: CreateEnv)
      returns (r: Response<SwapRecord>)
      requires store.Valid() && invoice.Invoice? && env.polls != []
      requires q.quoteId in store.Quotes() && store.Quotes()[q.quoteId] == q
      modifies store, wallet
      ensures store.Valid() && old(wallet.broadcasts) <= wallet.broadcasts
      ensures FundOutcome(wallet.world, cfg, q, buyer, invoice, env, old(State()),
                          wallet.broadcasts[|old(wallet.broadcasts)|..], State(), r)
    {
      ghost var before, sentBefore := State(), wallet.broadcasts;
      var funded := FundSwap(q, buyer, invoice, env);
      ghost var mid, sent := State(), wallet.broadcasts[|sentBefore|..];
      if funded.Err? {
        FundFails(wallet.world, cfg, q, buyer, invoice, env, before, sent, mid);
        return Refused(Internal);
      }
      var confs := AwaitConfirmations(env.polls, q.minFundingConfs);
      if confs.Err? {
        WaitFails(wallet.world, cfg, q, buyer, invoice, env, before, sent, mid, funded.value);
        return Refused(Internal);
      }
      var ok := store.UpdateSwapStatus(env.swapId, SwapStatus.Funded);
      WaitSucceeds(wallet.world, cfg, q, buyer, invoice, env, before, sent, mid, funded.value);
      return Done(funded.value.(status := SwapStatus.Funded));
    }

    method AwaitConfirmations(polls: seq<Result<Option<u32>>>, minConfs: u32) returns (r: Result<u32>)
      requires polls != []
      ensures r.Ok? <==> PollsSucceed(polls, minConfs)
    {
      r := WaitForConfirmations(polls, minConfs);
      PollsSucceedIff(polls, minConfs);
    }

    /** The checks before any effect. */
    method ReadQuote(caller: Option<CallerRole>, req: CreateRequest) returns (plan: Response<CreatePlan>)
      requires store.Valid()
      ensures plan == CreateDecision(wallet.world, cfg, store.Quotes(), store.Swaps(), caller, req)
      ensures plan.Done? && plan.value.FundNew? ==>
                plan.value.quote.quoteId in store.Quotes()
                && store.Quotes()[plan.value.quote.quoteId] == plan.value.quote
    {
      var refusal := RoleRefusal(caller, Buyer);
      if refusal.Some? { return Refused(refusal.value); }
      if Blank(req.quoteId) || req.address.NoAddress? { return Refused(InvalidArgument); }
      var found := store.GetQuote(req.quoteId);
      if found.Err? { return Refused(Internal); }
      if found.value.None? { return Refused(NotFound); }
      var q := found.value.value;
      if q.swapId.Some? {
        var existing := store.GetSwap(q.swapId.value);
        if existing.Err? { return Refused(Internal); }
        if existing.value.None? { return Refused(Internal); }
        return Done(Existing(existing.value.value));
      }
      if OfferId(wallet.world.c, CurrentOffer(cfg)) != q.offerId { return Refused(FailedPrecondition); }
      if q.assetId != cfg.sellAssetId { return Refused(FailedPrecondition); }
      if req.address.BadAddress? { return Refused(InvalidArgument); }
      if q.minFundingConfs > MAX_MIN_FUNDING_CONFS { return Refused(InvalidArgument); }
      var keyHash := KeyHashOfScript(req.address.address.script);
      if keyHash.Err? { return Refused(InvalidArgument); }
      if req.address.address.network != wallet.world.network { return Refused(InvalidArgument); }
      return Done(FundNew(q, req.address.address));
    }

    /** Under the wallet lock: fund, find the outputs, insert and link. */
    method FundSwap(q: QuoteRecord, buyer: Address, invoice: InvoiceText, env: CreateEnv)
      returns (r: Result<SwapRecord>)
      requires store.Valid() && invoice.Invoice?
      requires q.quoteId in store.Quotes() && store.Quotes()[q.quoteId] == q
      modifies store, wallet
      ensures store.Valid() && old(wallet.broadcasts) <= wallet.broadcasts
      ensures var sent := wallet.broadcasts[|old(wallet.broadcasts)|..];
              FundSwapOutcome(wallet.world, cfg, q, buyer, invoice, env, old(State()), sent, State(), r)
    {
      var synced := wallet.Sync(env.tip);
      if !synced { return Err; }
      var lock := SaturatingAdd(wallet.tipHeight, cfg.refundDeltaBlocks);
      var spec := SpecFor(wallet.world, q.direction, invoice.paymentHash, buyer, cfg.sellerKeyIndex, lock);
      if spec.Err? { return Err; }
      var script := WitnessScript(spec.value);
      var spk := P2wshScript(wallet.world.c, script);
      if env.built.None? { return Err; }
      var tx := env.built.value;
      var sent := wallet.BroadcastTransaction(tx);
      assert wallet.broadcasts[|old(wallet.broadcasts)|..] == [Broadcast(tx, sent)];
      if !sent { return Err; }
      var vouts := FindHtlcOutputs(tx, spk, cfg.sellAssetId, wallet.world.policyAsset);
      if vouts.Err? { return Err; }
      if vouts.value.0 > U32_MAX || vouts.value.1 > U32_MAX { return Err; }
      var reading := CreateRead(q, env.swapId, buyer, invoice.text, invoice.paymentHash);
      var record := NewRecord(TermsFor(wallet.world, cfg, reading, script, lock, TxidOf(wallet.world.c, tx),
                                       vouts.value.0, vouts.value.1));
      assert Ok(record) == FundedRecord(wallet.world, cfg, q, buyer, invoice, env.swapId, env.tip.value, tx);
      var inserted := store.InsertSwap(record);
      if !inserted { return Err; }
      var linked := store.SetQuoteSwapId(q.quoteId, env.swapId);
      assert State() == WithSwap(old(State()), q, record);
      return Ok(record);
    }
  }

  /** What the wallet-locked half leaves behind. */
  predicate FundSwapOutcome(w: World, cfg: Config, q: QuoteRecord, buyer: Address, invoice: InvoiceText, env: CreateEnv,
                            before: Tables, sent: seq<Broadcast>, after: Tables, r: Result<SwapRecord>)
    requires invoice.Invoice?
  {
    if env.tip.None? || env.built.None? || SwapSpec(w, cfg, q, buyer, invoice.paymentHash, env.tip.value).Err? then
      r == Err && sent == [] && after == before
    else
      var record := FundedRecord(w, cfg, q, buyer, invoice, env.swapId, env.tip.value, env.built.value);
      && |sent| == 1 && sent[0].tx == env.built.value
      && if !sent[0].ok || record.Err? || !SwapStorable(record.value) || env.swapId in before.swaps
         then r == Err && after == before
         else r == record && after == WithSwap(before, q, record.value)
  }

  lemma FundFails(w: World, cfg: Config, q: QuoteRecord, buyer: Address, invoice: InvoiceText, env: CreateEnv,
                  before: Tables, sent: seq<Broadcast>, after: Tables)
    requires invoice.Invoice? && FundSwapOutcome(w, cfg, q, buyer, invoice, env, before, sent, after, Err)
    ensures FundOutcome(w, cfg, q, buyer, invoice, env, before, sent, after, Refused(Internal))
  {
  }

  lemma WaitFails(w: World, cfg: Config, q: QuoteRecord, buyer: Address, invoice: InvoiceText, env: CreateEnv,
                  before: Tables, sent: seq<Broadcast>, after: Tables, r: SwapRecord)
    requires invoice.Invoice? && FundSwapOutcome(w, cfg, q, buyer, invoice, env, before, sent, after, Ok(r))
    requires !PollsSucceed(env.polls, q.minFundingConfs)
    ensures FundOutcome(w, cfg, q, buyer, invoice, env, before, sent, after, Refused(Internal))
  {
  }

  lemma WaitSucceeds(w: World, cfg: Config, q: QuoteRecord, buyer: Address, invoice: InvoiceText, env: CreateEnv,
                     before: Tables, sent: seq<Broadcast>, mid: Tables, r: SwapRecord)
    requires invoice.Invoice? && FundSwapOutcome(w, cfg, q, buyer, invoice, env, before, sent, mid, Ok(r))
    requires PollsSucceed(env.polls, q.minFundingConfs)
    ensures FundOutcome(w, cfg, q, buyer, invoice, env, before, sent,
                        Tables(mid.quotes, ApplyUpdate(mid.swaps, SetStatus(env.swapId, SwapStatus.Funded))),
                        Done(r.(status := SwapStatus.Funded)))
  {
    assert r.terms.swapId == env.swapId;
    var funded := r.(status := SwapStatus.Funded);
    assert before.swaps[env.swapId := r][env.swapId := funded] == before.swaps[env.swapId := funded];
  }

  /** The claim of a stored swap: the address check, the key, the transaction. */
  method BuildClaim(w: World, cfg: Config, s: SwapRecord, preimage: Hash32, fee: u64) returns (r: Result<Tx>)
    ensures r == ClaimFor(w, cfg, s.terms, preimage, fee)
  {
    var (index, expected) := ClaimKey(s.terms, cfg.sellerKeyIndex, cfg.buyerKeyIndex);
    var receive := w.addressAt(index);
    if expected.Some? {
      if receive != expected.value { return Err; }
    }
    var funding := FundingOf(s.terms, w.policyAsset);
    r := BuildClaimTx(w.c, s.terms.witnessScript, funding, receive.script, w.secretKey(index), preimage, fee);
  }
}
