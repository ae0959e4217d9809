/**
 What holds in every reachable state, and the facts about single steps it rests on.
 */
module Invariant {
  import opened Types
  import opened Interpreter
  import opened HtlcScript
  import opened Transaction
  import opened HtlcSpend
  import opened Chain
  import opened Funding
  import opened Records
  import opened Offer
  import opened Store
  import opened Protocol

  // ----- the HTLCs

  function SpecOf(w: World, f: FundedHtlc): Result<HtlcSpec> {
    SpecFor(w, f.terms.direction, f.terms.paymentHash, f.terms.buyerAddress, f.sellerKey, f.terms.refundLockHeight)
  }

  /** The terms describe what is on the chain, and the lock is `delta` blocks after the tip then read. */
  ghost predicate HtlcOk(w: World, ch: Chain, f: FundedHtlc) {
    var t := f.terms;
    var funding := FundingOf(t, w.policyAsset);
    && SpecOf(w, f).Ok?
    && t.witnessScript == WitnessScript(SpecOf(w, f).value)
    && t.p2wshAddress == Address(P2wshScript(w.c, t.witnessScript), w.network, [])
    && t.refundLockHeight == SaturatingAdd(f.tip, f.delta)
    && f.tip <= ch.height
    && t.assetVout != t.lbtcVout
    && HasOutput(ch, AssetOut(t)) && OutputAt(ch, AssetOut(t)) == HtlcOutput(w.c, t.witnessScript, funding, 0)
    && HasOutput(ch, LbtcOut(t)) && OutputAt(ch, LbtcOut(t)) == HtlcOutput(w.c, t.witnessScript, funding, 1)
    && t.assetAmount > 0 && t.feeSubsidy > 0
    && t.assetId != w.policyAsset
  }

  ghost predicate HtlcsOk(w: World, s: State) {
    forall id :: id in s.funded ==> HtlcOk(w, s.chain, s.funded[id]) && s.funded[id].terms.swapId == id
  }

  /** Different swaps have different funding transactions. */
  predicate FundingsDistinct(s: State) {
    forall id, other :: id in s.funded && other in s.funded && id != other ==>
      s.funded[id].terms.fundingTxid != s.funded[other].terms.fundingTxid
  }

  /** Every stored swap is a funded HTLC, with its terms unchanged. */
  predicate SwapsFunded(s: State) {
    forall id :: id in s.swaps ==> id in s.funded && s.swaps[id].terms == s.funded[id].terms
  }

  // ----- locks and identities

  predicate LocksOk(s: State) {
    && (forall t :: t in s.tasks ==> (HoldsWallet(s.tasks[t]) <==> s.walletLock == Some(t)))
    && (s.walletLock.Some? ==> s.walletLock.value in s.tasks)
  }

  predicate FreshOk(s: State) {
    && (forall t :: t in s.tasks && s.tasks[t].CreateRead? ==> s.tasks[t].swapId !in s.funded)
    && (forall t, u :: t in s.tasks && u in s.tasks && t != u && s.tasks[t].CreateRead? && s.tasks[u].CreateRead? ==>
          s.tasks[t].swapId != s.tasks[u].swapId)
    && (forall t :: t in s.tasks && s.tasks[t].CreateFunded? ==> s.tasks[t].record.terms.swapId !in s.swaps)
  }

  // ----- spends

  ghost predicate IsWalletScript(w: World, script: bytes) {
    exists k: nat :: w.addressAt(k).script == script
  }

  /** The claimer's own address: the buyer's, or one of the wallet's. */
  ghost predicate IsClaimerScript(w: World, t: SwapTerms, script: bytes) {
    match t.direction
    case LnToLiquid => script == t.buyerAddress.script
    case LiquidToLn => IsWalletScript(w, script)
  }

  ghost predicate IsRefunderScript(w: World, t: SwapTerms, script: bytes) {
    match t.direction
    case LnToLiquid => IsWalletScript(w, script)
    case LiquidToLn => script == t.buyerAddress.script
  }

  ghost predicate IsClaimBody(w: World, t: SwapTerms, b: Tx) {
    && |b.outputs| == 3 && b.outputs[2].Explicit? && b.outputs[2].value < t.feeSubsidy
    && IsClaimerScript(w, t, b.outputs[0].script)
    && b == ClaimBody(FundingOf(t, w.policyAsset), b.outputs[0].script, b.outputs[2].value)
  }

  ghost predicate IsRefundBody(w: World, t: SwapTerms, b: Tx) {
    && |b.outputs| == 3 && b.outputs[2].Explicit? && b.outputs[2].value < t.feeSubsidy
    && t.refundLockHeight < LOCKTIME_THRESHOLD
    && IsRefunderScript(w, t, b.outputs[0].script)
    && b == RefundBody(FundingOf(t, w.policyAsset), b.outputs[0].script, b.outputs[2].value, t.refundLockHeight)
  }

  /** Both outpoints of the HTLC are spent, by `txid`. */
  predicate SpentTogether(ch: Chain, t: SwapTerms, txid: Txid) {
    && AssetOut(t) in ch.spent && ch.spent[AssetOut(t)] == txid
    && LbtcOut(t) in ch.spent && ch.spent[LbtcOut(t)] == txid
    && txid in ch.txs
  }

  ghost predicate ClaimSpent(w: World, ch: Chain, t: SwapTerms, txid: Txid) {
    SpentTogether(ch, t, txid) && IsClaimBody(w, t, Strip(ch.txs[txid]))
  }

  ghost predicate RefundSpent(w: World, ch: Chain, t: SwapTerms) {
    && AssetOut(t) in ch.spent
    && var txid := ch.spent[AssetOut(t)];
       SpentTogether(ch, t, txid) && IsRefundBody(w, t, Strip(ch.txs[txid]))
  }

  /** The funding has the confirmations the swap asks for. */
  predicate FundingConfirmed(ch: Chain, t: SwapTerms) {
    Confirmed(ch, t.fundingTxid, ch.height, t.minFundingConfs)
  }

  // ----- records

  /** The mutable fields of a record agree with each other and with the chain. */
  ghost predicate FieldsOk(w: World, ch: Chain, r: SwapRecord) {
    && !r.status.Failed?
    && (r.lnPreimage.Some? <==> r.lnPaymentId.Some?)
    && (r.lnPreimage.Some? ==>
          && |r.lnPreimage.value| == 32 && w.c.sha256(r.lnPreimage.value) == r.terms.paymentHash
          && (r.status.Paid? || r.status.Claimed? || r.status.Refunded?)
          && FundingConfirmed(ch, r.terms))
    && (r.claimTxid.Some? ==>
          r.lnPreimage.Some? && (r.status.Paid? || r.status.Claimed?) && ClaimSpent(w, ch, r.terms, r.claimTxid.value))
    && (r.status.Claimed? ==> r.claimTxid.Some?)
    && (r.status.Paid? ==> r.lnPreimage.Some?)
    && (r.status.Funded? ==> FundingConfirmed(ch, r.terms))
    && (r.status.Refunded? ==> RefundSpent(w, ch, r.terms))
  }

  ghost predicate RecordsOk(w: World, s: State) {
    forall id :: id in s.swaps ==> FieldsOk(w, s.chain, s.swaps[id])
  }

  /** The swap some create_swap call has inserted but not yet marked Funded. */
  function Creating(k: Task): Option<Id> {
    match k
    case CreateInserted(swapId, _) => Some(swapId)
    case CreateWait(terms) => Some(terms.swapId)
    case _ => None
  }

  /** Funded is written once, before any payment on that swap begins. */
  predicate CreatorsOk(s: State) {
    && (forall t :: t in s.tasks && Creating(s.tasks[t]).Some? ==>
          var id := Creating(s.tasks[t]).value;
          id in s.swaps && s.swaps[id].lnPreimage.None?
          && (s.swaps[id].status.Created? || s.swaps[id].status.Refunded?))
    && (forall t, u :: t in s.tasks && u in s.tasks && Creating(s.tasks[t]).Some? && s.tasks[u].PayRead? ==>
          s.tasks[u].terms.swapId != Creating(s.tasks[t]).value)
    && (forall t, u :: t in s.tasks && u in s.tasks && t != u && Creating(s.tasks[t]).Some? ==>
          Creating(s.tasks[u]) != Creating(s.tasks[t]))
  }

  // ----- quotes

  predicate SameQuote(a: QuoteRecord, b: QuoteRecord) {
    a.(swapId := None) == b.(swapId := None)
  }

  predicate QuoteOk(w: World, q: QuoteRecord) {
    && q.offerId == OfferId(w.c, QuoteOffer(q))
    && q.assetAmount > 0 && q.totalPriceMsat == q.assetAmount * q.priceMsatPerAssetUnit
    && q.minFundingConfs <= MAX_MIN_FUNDING_CONFS && QuoteStorable(q)
  }

  /** A funded swap was made on the quoted terms, the seller's policy included. */
  predicate MadeFrom(q: QuoteRecord, f: FundedHtlc) {
    var t := f.terms;
    && t.direction == q.direction && t.assetId == q.assetId && t.assetAmount == q.assetAmount
    && t.totalPriceMsat == q.totalPriceMsat && t.minFundingConfs == q.minFundingConfs
    && t.feeSubsidy == q.feeSubsidy && f.delta == q.refundDeltaBlocks
  }

  predicate QuotesOk(w: World, s: State) {
    && (forall qid :: qid in s.quotes ==> s.quotes[qid].quoteId == qid && QuoteOk(w, s.quotes[qid]))
    && (forall qid :: qid in s.quotes && s.quotes[qid].swapId.Some? ==>
          s.quotes[qid].swapId.value in s.swaps && s.swaps[s.quotes[qid].swapId.value].terms.quoteId == qid)
    && (forall id :: id in s.funded ==>
          s.funded[id].terms.quoteId in s.quotes && MadeFrom(s.quotes[s.funded[id].terms.quoteId], s.funded[id]))
  }

  // ----- tasks

  predicate InSwaps(s: State, t: SwapTerms) {
    t.swapId in s.swaps && s.swaps[t.swapId].terms == t
  }

  predicate AllInSwaps(s: State, todo: seq<SwapRecord>) {
    forall i :: 0 <= i < |todo| ==> InSwaps(s, todo[i].terms)
  }

  predicate CreateReadOk(w: World, s: State, q: QuoteRecord, buyer: Address) {
    && q.quoteId in s.quotes && SameQuote(s.quotes[q.quoteId], q)
    && OfferId(w.c, CurrentOffer(s.cfg)) == q.offerId && q.assetId == s.cfg.sellAssetId
    && KeyHashOfScript(buyer.script).Ok? && buyer.network == w.network
  }

  /** What a task's local variables still say about the state. */
  ghost predicate TaskOk(w: World, s: State, k: Task) {
    match k
    case CreateRead(q, _, buyer, _, _) => CreateReadOk(w, s, q, buyer)
    case CreateFunded(r) =>
      && r.terms.swapId in s.funded && s.funded[r.terms.swapId].terms == r.terms
      && r == NewRecord(r.terms)
    case CreateInserted(id, qid) => id in s.swaps && s.swaps[id].terms.quoteId == qid && s.swaps[id].terms.swapId == id
    case CreateWait(terms) => InSwaps(s, terms)
    case PayRead(terms) =>
      InSwaps(s, terms) && !s.swaps[terms.swapId].status.Created? && FundingConfirmed(s.chain, terms)
    case ClaimRead(terms, preimage, _) =>
      && InSwaps(s, terms) && s.swaps[terms.swapId].lnPreimage.Some?
      && w.c.sha256(preimage) == terms.paymentHash
    case ClaimSent(terms, txid) =>
      && InSwaps(s, terms) && s.swaps[terms.swapId].lnPreimage.Some?
      && ClaimSpent(w, s.chain, terms, txid)
    case RefundPass(tip, todo, _) => AllInSwaps(s, todo) && tip <= s.chain.height
    case RefundSent(terms, tip, todo, _) =>
      && InSwaps(s, terms) && RefundSpent(w, s.chain, terms)
      && AllInSwaps(s, todo) && tip <= s.chain.height
  }

  ghost predicate TasksOk(w: World, s: State) {
    forall t :: t in s.tasks ==> TaskOk(w, s, s.tasks[t])
  }

  // ----- signatures

  /**
   What the wallet signed: spends of coins of its own, the claim of a swap whose preimage
   is stored, or the refund of a stored swap whose lock height has been reached.
   */
  ghost predicate SignedOk(w: World, s: State, b: Tx, origin: Option<Id>) {
    match origin
    case None => forall i :: 0 <= i < |b.inputs| ==>
      HasOutput(s.chain, b.inputs[i].prev) && !IsScriptHashProgram(OutScript(OutputAt(s.chain, b.inputs[i].prev)))
    case Some(id) =>
      && id in s.swaps && id in s.funded
      && var t := s.funded[id].terms;
         || (IsClaimBody(w, t, b) && s.swaps[id].lnPreimage.Some?)
         || (IsRefundBody(w, t, b) && t.refundLockHeight <= s.chain.height)
  }

  ghost predicate AllSignedOk(w: World, s: State) {
    forall b :: b in s.signed ==> SignedOk(w, s, b, s.signed[b])
  }

  predicate IsOutPointOf(op: OutPoint, t: SwapTerms) {
    op == AssetOut(t) || op == LbtcOut(t)
  }

  /** The wallet holds both keys of the HTLC. */
  ghost predicate BothKeysOwned(w: World, f: FundedHtlc) {
    && SpecOf(w, f).Ok?
    && Owned(w, SpecOf(w, f).value.claimerHash) && Owned(w, SpecOf(w, f).value.refunderHash)
  }

  /** Such an HTLC is only ever spent by transactions the wallet signed. */
  ghost predicate OwnedSpendsSigned(w: World, s: State) {
    forall id, op :: id in s.funded && BothKeysOwned(w, s.funded[id]) && op in s.chain.spent
                     && IsOutPointOf(op, s.funded[id].terms) ==>
      s.chain.spent[op] in s.chain.txs && Strip(s.chain.txs[s.chain.spent[op]]) in s.signed
  }

  ghost predicate Inv(w: World, s: State) {
    && ChainValid(w.c, s.chain)
    && HtlcsOk(w, s) && FundingsDistinct(s) && SwapsFunded(s)
    && LocksOk(s) && FreshOk(s)
    && RecordsOk(w, s) && CreatorsOk(s)
    && QuotesOk(w, s) && TasksOk(w, s)
    && AllSignedOk(w, s) && OwnedSpendsSigned(w, s)
  }

  // ----- what one step can change

  /** The task an action belongs to. */
  function Actor(a: Action): Option<TaskId> {
    match a
    case CreateQuote(_) => None
    case MineBlock(_) => None
    case OtherTx(_) => None
    case Crash(_) => None
    case _ => Some(a.t)
  }

  function NewHtlc(w: World, s: State, a: Action): FundedHtlc
    requires a.Fund? && FundEnabled(w, s, a) && FundTerms(w, s, a).Ok?
  {
    FundedHtlc(FundTerms(w, s, a).value, s.cfg.sellerKeyIndex, a.tip, s.cfg.refundDeltaBlocks)
  }

  ghost predicate FundsNew(w: World, s: State, a: Action) {
    a.Fund? && FundEnabled(w, s, a) && a.reply.accepted && FundTerms(w, s, a).Ok?
  }

  lemma FundChangesFunded(w: World, s: State, a: Action, n: State)
    requires a.Fund? && Takes(w, s, a, n)
    ensures FundsNew(w, s, a) ==>
              n.funded == s.funded[s.tasks[a.t].swapId := NewHtlc(w, s, a)] && n.chain == Accept(w.c, s.chain, a.tx)
    ensures !FundsNew(w, s, a) ==> n.funded == s.funded
  {
  }

  lemma OthersKeepFunded(w: World, s: State, a: Action, n: State)
    requires !a.Fund? && Takes(w, s, a, n)
    ensures n.funded == s.funded
  {
  }

  lemma FundedDelta(w: World, s: State, a: Action, n: State)
    requires Takes(w, s, a, n)
    ensures FundsNew(w, s, a) ==>
              n.funded == s.funded[s.tasks[a.t].swapId := NewHtlc(w, s, a)] && n.chain == Accept(w.c, s.chain, a.tx)
    ensures !FundsNew(w, s, a) ==> n.funded == s.funded
  {
    if a.Fund? {
      FundChangesFunded(w, s, a, n);
    } else {
      OthersKeepFunded(w, s, a, n);
    }
  }

  /** The update of a stored swap an action makes. */
  function UpdateOf(s: State, a: Action): Option<Update> {
    match a
    case MarkFunded(t, _) =>
      if t in s.tasks && s.tasks[t].CreateWait? then Some(SetStatus(s.tasks[t].terms.swapId, SwapStatus.Funded))
      else None
    case PersistPayment(t, paymentId, preimage) =>
      if t in s.tasks && s.tasks[t].PayRead? then Some(SetPayment(s.tasks[t].terms.swapId, paymentId, preimage, Paid))
      else None
    case PersistClaim(t) =>
      if t in s.tasks && s.tasks[t].ClaimSent? then Some(SetClaim(s.tasks[t].terms.swapId, s.tasks[t].txid, Claimed))
      else None
    case PersistRefund(t) =>
      if t in s.tasks && s.tasks[t].RefundSent? then Some(SetStatus(s.tasks[t].terms.swapId, Refunded)) else None
    case _ => None
  }

  /** The swap table changes by one insertion of a new row, by one update of a row, or not at all. */
  predicate SwapsChange(s: State, a: Action, n: State) {
    && (a.Insert? ==>
          && a.t in s.tasks && s.tasks[a.t].CreateFunded? && s.tasks[a.t].record.terms.swapId !in s.swaps
          && n.swaps == s.swaps[s.tasks[a.t].record.terms.swapId := s.tasks[a.t].record])
    && (UpdateOf(s, a).Some? ==>
          UpdateOf(s, a).value.id in s.swaps && n.swaps == ApplyUpdate(s.swaps, UpdateOf(s, a).value))
    && (!a.Insert? && UpdateOf(s, a).None? ==> n.swaps == s.swaps)
  }

  /** The actions that write the swap table. */
  predicate WritesSwaps(a: Action) {
    a.Insert? || a.MarkFunded? || a.PersistPayment? || a.PersistClaim? || a.PersistRefund?
  }

  lemma WritersChangeSwaps(w: World, s: State, a: Action, n: State)
    requires WritesSwaps(a) && Takes(w, s, a, n)
    ensures SwapsChange(s, a, n)
  {
  }

  lemma OthersKeepSwaps(w: World, s: State, a: Action, n: State)
    requires !WritesSwaps(a) && Takes(w, s, a, n)
    ensures n.swaps == s.swaps
  {
  }

  lemma SwapsDelta(w: World, s: State, a: Action, n: State)
    requires Takes(w, s, a, n)
    ensures SwapsChange(s, a, n)
  {
    if WritesSwaps(a) {
      WritersChangeSwaps(w, s, a, n);
    } else {
      OthersKeepSwaps(w, s, a, n);
    }
  }

  /** The quote table changes by one new unlinked row, by one link, or not at all. */
  predicate QuotesChange(s: State, a: Action, n: State) {
    && (a.CreateQuote? ==>
          && a.quote.quoteId !in s.quotes && a.quote.swapId.None?
          && n.quotes == s.quotes[a.quote.quoteId := a.quote])
    && (a.Link? ==>
          && a.t in s.tasks && s.tasks[a.t].CreateInserted? && s.tasks[a.t].quoteId in s.quotes
          && var k := s.tasks[a.t];
             n.quotes == s.quotes[k.quoteId := s.quotes[k.quoteId].(swapId := Some(k.swapId))])
    && (!a.CreateQuote? && !a.Link? ==> n.quotes == s.quotes)
  }

  lemma QuotesDelta(w: World, s: State, a: Action, n: State)
    requires Takes(w, s, a, n)
    ensures QuotesChange(s, a, n)
  {
  }

  ghost predicate OtherTasksKept(s: State, n: State, t: TaskId) {
    forall u :: u != t ==> (u in n.tasks <==> u in s.tasks) && (u in s.tasks ==> n.tasks[u] == s.tasks[u])
  }

  predicate Begins(a: Action) {
    a.BeginCreate? || a.BeginPay? || a.BeginClaim? || a.BeginRefund?
  }

  predicate InCreate(a: Action) {
    a.BeginCreate? || a.Fund? || a.Insert? || a.Link? || a.MarkFunded?
  }

  predicate InPayOrClaim(a: Action) {
    a.BeginPay? || a.PersistPayment? || a.BeginClaim? || a.BroadcastClaim? || a.PersistClaim?
  }

  predicate InRefund(a: Action) {
    a.BeginRefund? || a.RefundNext? || a.PersistRefund? || a.EndRefund?
  }

  /** The phase a task must be in to take the action. */
  predicate PhaseBefore(a: Action, k: Task) {
    match a
    case Fund(_, _, _, _, _, _) => k.CreateRead?
    case Insert(_) => k.CreateFunded?
    case Link(_) => k.CreateInserted?
    case MarkFunded(_, _) => k.CreateWait?
    case PersistPayment(_, _, _) => k.PayRead?
    case BroadcastClaim(_, _) => k.ClaimRead?
    case PersistClaim(_) => k.ClaimSent?
    case RefundNext(_, _) => k.RefundPass?
    case EndRefund(_) => k.RefundPass?
    case PersistRefund(_) => k.RefundSent?
    case _ => a.Fail?
  }

  /** The phase the action leaves its task in, if it does not end there. */
  predicate PhaseAfter(a: Action, k: Task) {
    match a
    case BeginCreate(_, _, _, _, _, _, _) => k.CreateRead?
    case Fund(_, _, _, _, _, _) => k.CreateFunded?
    case Insert(_) => k.CreateInserted?
    case Link(_) => k.CreateWait?
    case BeginPay(_, _, _) => k.PayRead?
    case BeginClaim(_, _, _, _) => k.ClaimRead?
    case BroadcastClaim(_, _) => k.ClaimSent?
    case BeginRefund(_, _, _, _) => k.RefundPass?
    case RefundNext(_, _) => k.RefundPass? || k.RefundSent?
    case PersistRefund(_) => k.RefundPass?
    case _ => false
  }

  /** Only the acting task changes, from phase to phase. */
  ghost predicate ActorMoves(s: State, a: Action, n: State)
    requires Actor(a).Some?
  {
    && OtherTasksKept(s, n, a.t)
    && n.cfg == s.cfg
    && (if a.t in s.tasks then PhaseBefore(a, s.tasks[a.t]) else Begins(a))
    && (a.t in n.tasks ==> PhaseAfter(a, n.tasks[a.t]))
  }

  lemma CreateMoves(w: World, s: State, a: Action, n: State)
    requires InCreate(a) && Takes(w, s, a, n)
    ensures ActorMoves(s, a, n)
  {
  }

  lemma PayOrClaimMoves(w: World, s: State, a: Action, n: State)
    requires InPayOrClaim(a) && Takes(w, s, a, n)
    ensures ActorMoves(s, a, n)
  {
  }

  lemma RefundNextMoves(w: World, s: State, a: Action, n: State)
    requires a.RefundNext? && Takes(w, s, a, n)
    ensures ActorMoves(s, a, n)
  {
  }

  lemma RefundMoves(w: World, s: State, a: Action, n: State)
    requires (InRefund(a) || a.Fail?) && !a.RefundNext? && Takes(w, s, a, n)
    ensures ActorMoves(s, a, n)
  {
  }

  ghost predicate TasksChange(s: State, a: Action, n: State) {
    && (!a.Crash? ==> n.cfg == s.cfg)
    && (a.Crash? ==> n.tasks == map[])
    && (!a.Crash? && Actor(a).None? ==> n.tasks == s.tasks)
    && (Actor(a).Some? ==> ActorMoves(s, a, n))
  }

  lemma EnvironmentMoves(w: World, s: State, a: Action, n: State)
    requires Actor(a).None? && Takes(w, s, a, n)
    ensures TasksChange(s, a, n)
  {
  }

  lemma TasksDelta(w: World, s: State, a: Action, n: State)
    requires Takes(w, s, a, n)
    ensures TasksChange(s, a, n)
  {
    if InCreate(a) {
      CreateMoves(w, s, a, n);
    } else if InPayOrClaim(a) {
      PayOrClaimMoves(w, s, a, n);
    } else if a.RefundNext? {
      RefundNextMoves(w, s, a, n);
    } else if Actor(a).Some? {
      RefundMoves(w, s, a, n);
    } else {
      EnvironmentMoves(w, s, a, n);
    }
  }

  // ----- what steps never undo

  predicate FundedGrows(s: State, n: State) {
    forall id :: id in s.funded ==> id in n.funded && n.funded[id] == s.funded[id]
  }

  predicate SwapsGrow(s: State, n: State) {
    forall id :: id in s.swaps ==>
      && id in n.swaps && n.swaps[id].terms == s.swaps[id].terms
      && (s.swaps[id].lnPreimage.Some? ==> n.swaps[id].lnPreimage.Some?)
      && (n.swaps[id].status.Created? ==> s.swaps[id].status.Created?)
  }

  predicate QuotesGrow(s: State, n: State) {
    forall qid :: qid in s.quotes ==> qid in n.quotes && SameQuote(n.quotes[qid], s.quotes[qid])
  }

  predicate Grows(s: State, n: State) {
    Extends(s.chain, n.chain) && FundedGrows(s, n) && SwapsGrow(s, n) && QuotesGrow(s, n)
  }

  lemma BroadcastExtends(w: World, ch: Chain, tx: Tx, reply: Reply)
    requires ChainValid(w.c, ch) && ReplyPossible(w.c, ch, tx, reply)
    ensures ChainValid(w.c, AfterBroadcast(w.c, ch, tx, reply))
    ensures Extends(ch, AfterBroadcast(w.c, ch, tx, reply))
  {
    if reply.accepted {
      AcceptKeepsValid(w.c, ch, tx);
    }
  }

  lemma FundExtendsChain(w: World, s: State, a: Action, n: State)
    requires a.Fund? && ChainValid(w.c, s.chain) && Takes(w, s, a, n)
    ensures ChainValid(w.c, n.chain) && Extends(s.chain, n.chain)
  {
    BroadcastExtends(w, s.chain, a.tx, a.reply);
  }

  lemma ClaimExtendsChain(w: World, s: State, a: Action, n: State)
    requires a.BroadcastClaim? && ChainValid(w.c, s.chain) && Takes(w, s, a, n)
    ensures ChainValid(w.c, n.chain) && Extends(s.chain, n.chain)
  {
    var k := s.tasks[a.t];
    BroadcastExtends(w, s.chain, ClaimFor(w, s.cfg, k.terms, k.preimage, k.fee).value, a.reply);
  }

  lemma RefundExtendsChain(w: World, s: State, a: Action, n: State)
    requires a.RefundNext? && ChainValid(w.c, s.chain) && Takes(w, s, a, n)
    ensures ChainValid(w.c, n.chain) && Extends(s.chain, n.chain)
  {
    var k := s.tasks[a.t];
    if RefundDue(k.todo[0], k.tip) {
      BroadcastExtends(w, s.chain, RefundFor(w, s.cfg, k.todo[0].terms, k.fee).value, a.reply);
    }
  }

  lemma EnvironmentExtendsChain(w: World, s: State, a: Action, n: State)
    requires (a.MineBlock? || a.OtherTx?) && ChainValid(w.c, s.chain) && Takes(w, s, a, n)
    ensures ChainValid(w.c, n.chain) && Extends(s.chain, n.chain)
  {
    if a.MineBlock? {
      MineKeepsValid(w.c, s.chain, a.ids);
    } else {
      AcceptKeepsValid(w.c, s.chain, a.tx);
    }
  }

  lemma OthersKeepChain(w: World, s: State, a: Action, n: State)
    requires !a.Fund? && !a.BroadcastClaim? && !a.RefundNext? && !a.MineBlock? && !a.OtherTx? && Takes(w, s, a, n)
    ensures n.chain == s.chain
  {
  }

  /** The chain stays valid and only grows, whatever the step. */
  lemma StepExtendsChain(w: World, s: State, a: Action, n: State)
    requires ChainValid(w.c, s.chain) && Takes(w, s, a, n)
    ensures ChainValid(w.c, n.chain) && Extends(s.chain, n.chain)
  {
    if a.Fund? {
      FundExtendsChain(w, s, a, n);
    } else if a.BroadcastClaim? {
      ClaimExtendsChain(w, s, a, n);
    } else if a.RefundNext? {
      RefundExtendsChain(w, s, a, n);
    } else if a.MineBlock? || a.OtherTx? {
      EnvironmentExtendsChain(w, s, a, n);
    } else {
      OthersKeepChain(w, s, a, n);
    }
  }

  lemma UpdateGrows(s: State, n: State, u: Update)
    requires u.id in s.swaps && n.swaps == ApplyUpdate(s.swaps, u) && !u.status.Created?
    ensures SwapsGrow(s, n)
  {
  }

  lemma DeltaGrows(s: State, a: Action, n: State)
    requires SwapsChange(s, a, n)
    ensures SwapsGrow(s, n)
  {
    if UpdateOf(s, a).Some? {
      UpdateGrows(s, n, UpdateOf(s, a).value);
    }
  }

  lemma StepSwapsGrow(w: World, s: State, a: Action, n: State)
    requires Takes(w, s, a, n)
    ensures SwapsGrow(s, n)
  {
    SwapsDelta(w, s, a, n);
    DeltaGrows(s, a, n);
  }

  lemma QuotesChangeGrows(s: State, a: Action, n: State)
    requires QuotesChange(s, a, n)
    ensures QuotesGrow(s, n)
  {
  }

  lemma StepQuotesGrow(w: World, s: State, a: Action, n: State)
    requires Takes(w, s, a, n)
    ensures QuotesGrow(s, n)
  {
    QuotesDelta(w, s, a, n);
    QuotesChangeGrows(s, a, n);
  }

  lemma StepFundedGrows(w: World, s: State, a: Action, n: State)
    requires FreshOk(s) && Takes(w, s, a, n)
    ensures FundedGrows(s, n)
  {
    FundedDelta(w, s, a, n);
  }

  lemma StepGrows(w: World, s: State, a: Action, n: State)
    requires ChainValid(w.c, s.chain) && FreshOk(s) && Takes(w, s, a, n)
    ensures Grows(s, n)
  {
    StepExtendsChain(w, s, a, n);
    StepSwapsGrow(w, s, a, n);
    StepQuotesGrow(w, s, a, n);
    StepFundedGrows(w, s, a, n);
  }

  // ----- frames

  lemma HtlcOkStable(w: World, ch: Chain, later: Chain, f: FundedHtlc)
    requires Extends(ch, later) && HtlcOk(w, ch, f)
    ensures HtlcOk(w, later, f)
  {
  }

  lemma FieldsOkStable(w: World, ch: Chain, later: Chain, r: SwapRecord)
    requires Extends(ch, later) && FieldsOk(w, ch, r)
    ensures FieldsOk(w, later, r)
  {
  }

  lemma TaskOkStable(w: World, s: State, n: State, k: Task)
    requires Grows(s, n) && s.cfg == n.cfg && TaskOk(w, s, k)
    ensures TaskOk(w, n, k)
  {
  }
}
