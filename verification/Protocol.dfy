/**
 The swap server as a state machine: any number of request handlers, refund passes,
 blocks, foreign transactions and crashes, interleaved between lock releases and awaits.

 One action is what a task does without another task being able to see an intermediate
 state. A handler that stops with an error at any point is the action `Fail`.
 */
module Protocol {
  import opened Types
  import opened HtlcScript
  import opened Transaction
  import opened HtlcSpend
  import opened Chain
  import opened Funding
  import opened Records
  import opened Offer
  import opened Store

  type TaskId = nat

  /** What never changes: cryptography, the wallet's keys and the network. */
  datatype World = World(
    c: Crypto,
    secretKey: nat -> bytes,
    addressAt: nat -> Address,
    policyAsset: Asset,
    network: nat)

  function KeyHash(w: World, k: nat): bytes {
    w.c.hash160(w.c.pubkey(w.secretKey(k)))
  }

  /** The wallet's address at an index pays the key at that index. */
  ghost predicate WorldOk(w: World) {
    Ideal(w.c) && forall k: nat :: w.addressAt(k).script == P2wpkhScript(KeyHash(w, k))
  }

  /** Some wallet key has this hash. */
  ghost predicate Owned(w: World, h: bytes) {
    exists k: nat :: KeyHash(w, k) == h
  }

  /** History of one funded HTLC: its terms, and what create_swap read when it built them. */
  datatype FundedHtlc = FundedHtlc(terms: SwapTerms, sellerKey: u32, tip: u32, delta: u32)

  datatype Task =
    | CreateRead(quote: QuoteRecord, swapId: Id, buyerAddress: Address, invoice: bytes, paymentHash: Hash32)
    | CreateFunded(record: SwapRecord)
    | CreateInserted(swapId: Id, quoteId: Id)
    | CreateWait(terms: SwapTerms)
    | PayRead(terms: SwapTerms)
    | ClaimRead(terms: SwapTerms, preimage: Hash32, fee: u64)
    | ClaimSent(terms: SwapTerms, txid: Txid)
    | RefundPass(tip: u32, todo: seq<SwapRecord>, fee: u64)
    | RefundSent(terms: SwapTerms, tip: u32, todo: seq<SwapRecord>, fee: u64)

  /** The task holds the wallet mutex in this phase. */
  predicate HoldsWallet(k: Task) {
    k.CreateFunded? || k.CreateInserted? || k.ClaimSent? || k.RefundPass? || k.RefundSent?
  }

  /**
   `signed` and `funded` are history: every transaction the wallet ever signed (with the
   swap it spends, if any), and every HTLC whose funding the chain accepted.
   */
  datatype State = State(
    cfg: Config,
    quotes: map<Id, QuoteRecord>,
    swaps: map<Id, SwapRecord>,
    chain: Chain,
    walletLock: Option<TaskId>,
    tasks: map<TaskId, Task>,
    signed: map<Tx, Option<Id>>,
    funded: map<Id, FundedHtlc>)

  /** A broadcast may be accepted without a reply, and a known transaction may be reported as sent again. */
  datatype Reply = Reply(accepted: bool, reported: bool)

  datatype Action =
    | CreateQuote(quote: QuoteRecord)
    | BeginCreate(t: TaskId, quoteId: Id, swapId: Id, buyerAddress: Address, invoice: bytes, msat: Option<u64>,
                  paymentHash: Hash32)
    | Fund(t: TaskId, tip: u32, tx: Tx, assetVout: nat, lbtcVout: nat, reply: Reply)
    | Insert(t: TaskId)
    | Link(t: TaskId)
    | MarkFunded(t: TaskId, tip: u32)
    | BeginPay(t: TaskId, swapId: Id, caller: CallerRole)
    | PersistPayment(t: TaskId, paymentId: bytes, preimage: Hash32)
    | BeginClaim(t: TaskId, swapId: Id, caller: CallerRole, feeRequest: u64)
    | BroadcastClaim(t: TaskId, reply: Reply)
    | PersistClaim(t: TaskId)
    | BeginRefund(t: TaskId, tip: u32, todo: seq<SwapRecord>, fee: u64)
    | RefundNext(t: TaskId, reply: Reply)
    | PersistRefund(t: TaskId)
    | EndRefund(t: TaskId)
    | Fail(t: TaskId)
    | MineBlock(ids: set<Txid>)
    | OtherTx(tx: Tx)
    | Crash(cfg: Config)

  // ----- the pieces of the handlers

  function NewQuote(w: World, cfg: Config, id: Id, d: SwapDirection, amount: u64, minConfs: u32): Result<QuoteRecord> {
    var offer := CurrentOffer(cfg);
    var total := amount * offer.priceMsatPerAssetUnit;
    if amount == 0 || minConfs > MAX_MIN_FUNDING_CONFS || total > U64_MAX then Err
    else Ok(QuoteRecord(id, OfferId(w.c, offer), d, offer.assetId, amount, minConfs, total,
                        offer.priceMsatPerAssetUnit, offer.feeSubsidy, offer.refundDeltaBlocks,
                        offer.invoiceExpirySecs, offer.maxMinFundingConfs, None))
  }

  /** create_swap's checks of the quote and the request. */
  predicate CreateAllowed(w: World, cfg: Config, q: QuoteRecord, buyer: Address, msat: Option<u64>) {
    && q.swapId == None
    && OfferId(w.c, CurrentOffer(cfg)) == q.offerId
    && q.assetId == cfg.sellAssetId
    && q.minFundingConfs <= MAX_MIN_FUNDING_CONFS
    && KeyHashOfScript(buyer.script).Ok?
    && buyer.network == w.network
    && (q.direction.LiquidToLn? ==> msat == Some(q.totalPriceMsat))
  }

  /** The HTLC specification create_swap builds; `Err` when an address is not P2WPKH. */
  function SpecFor(w: World, d: SwapDirection, paymentHash: Hash32, buyer: Address, sellerKey: u32, lock: u32)
    : Result<HtlcSpec> {
    var buyerHash :- KeyHashOfScript(buyer.script);
    var sellerHash :- KeyHashOfScript(w.addressAt(sellerKey).script);
    var hashes := HtlcKeyHashes(d, buyerHash, sellerHash);
    Ok(HtlcSpec(paymentHash, hashes.0, hashes.1, lock))
  }

  function TermsFor(w: World, cfg: Config, k: Task, script: bytes, lock: u32, txid: Txid, a: u32, b: u32): SwapTerms
    requires k.CreateRead?
  {
    var q := k.quote;
    SwapTerms(k.swapId, q.quoteId, q.direction, k.invoice, k.paymentHash, cfg.sellAssetId, q.assetAmount,
              q.totalPriceMsat, k.buyerAddress, cfg.feeSubsidy, lock,
              Address(P2wshScript(w.c, script), w.network, []), script, txid, a, b, q.minFundingConfs)
  }

  function NewRecord(t: SwapTerms): SwapRecord {
    SwapRecord(t, None, None, None, Created)
  }

  function ClaimFee(request: u64): u64 {
    if request == 0 then DEFAULT_CLAIM_FEE_SATS else request
  }

  /** The transaction a handler signs for a swap: its receive address must pass the buyer check. */
  function ClaimFor(w: World, cfg: Config, t: SwapTerms, preimage: Hash32, fee: u64): Result<Tx> {
    var (index, expected) := ClaimKey(t, cfg.sellerKeyIndex, cfg.buyerKeyIndex);
    var receive := w.addressAt(index);
    if expected.Some? && receive != expected.value then Err
    else ClaimTx(w.c, t.witnessScript, FundingOf(t, w.policyAsset), receive.script, w.secretKey(index), preimage, fee)
  }

  function RefundFor(w: World, cfg: Config, t: SwapTerms, fee: u64): Result<Tx> {
    var (index, expected) := RefundKey(t, cfg.sellerKeyIndex, cfg.buyerKeyIndex);
    var receive := w.addressAt(index);
    if expected.Some? && receive != expected.value then Err
    else RefundTx(w.c, t.witnessScript, t.refundLockHeight, FundingOf(t, w.policyAsset), receive.script,
                  w.secretKey(index), fee)
  }

  /** refund_once tries to refund this listed record. */
  predicate RefundDue(r: SwapRecord, tip: u32) {
    (r.status.Created? || r.status.Funded?) && tip >= r.terms.refundLockHeight
  }

  ghost predicate ReplyPossible(c: Crypto, ch: Chain, tx: Tx, reply: Reply) {
    && (reply.accepted ==> Acceptable(c, ch, tx))
    && (reply.reported ==> reply.accepted || Known(c, ch, tx))
  }

  function AfterBroadcast(c: Crypto, ch: Chain, tx: Tx, reply: Reply): Chain {
    if reply.accepted then Accept(c, ch, tx) else ch
  }

  /** The wallet only spends coins of its own key-hash addresses. */
  predicate WalletInputs(ch: Chain, tx: Tx) {
    forall i :: 0 <= i < |tx.inputs| ==>
      HasOutput(ch, tx.inputs[i].prev) && KeyHashOfScript(OutScript(OutputAt(ch, tx.inputs[i].prev))).Ok?
  }

  /**
   No signature a foreign transaction carries checks under a wallet key, unless it is a
   transaction the wallet signed. Any other key may sign anything.
   */
  ghost predicate NoForgery(w: World, s: State, tx: Tx) {
    forall i: nat, script: bytes, value: u64, sig: bytes, key: bytes ::
      (i < |tx.inputs| && sig in tx.inputs[i].scriptWitness && key in tx.inputs[i].scriptWitness
       && Owned(w, w.c.hash160(key)) && CheckSig(w.c, tx, i, script, value, sig, key)) ==>
        Strip(tx) in s.signed
  }

  // ----- actions

  function FundLock(s: State, tip: u32): u32 {
    SaturatingAdd(tip, s.cfg.refundDeltaBlocks)
  }

  function FundSpec(w: World, s: State, k: Task, tip: u32): Result<HtlcSpec>
    requires k.CreateRead?
  {
    SpecFor(w, k.quote.direction, k.paymentHash, k.buyerAddress, s.cfg.sellerKeyIndex, FundLock(s, tip))
  }

  ghost predicate FundEnabled(w: World, s: State, a: Action)
    requires a.Fund?
  {
    && a.t in s.tasks && s.tasks[a.t].CreateRead? && s.walletLock.None?
    && a.tip <= s.chain.height
    && var k := s.tasks[a.t];
       var spec := FundSpec(w, s, k, a.tip);
       && spec.Ok?
       && FundsHtlc(a.tx, P2wshScript(w.c, WitnessScript(spec.value)), s.cfg.sellAssetId, k.quote.assetAmount,
                    w.policyAsset, s.cfg.feeSubsidy, a.assetVout, a.lbtcVout)
       && WalletInputs(s.chain, a.tx)
       && ReplyPossible(w.c, s.chain, a.tx, a.reply)
       && (a.reply.reported ==> a.reply.accepted)
  }

  /** The terms the funding leads to; the vouts come from the output scan. */
  function FundTerms(w: World, s: State, a: Action): Result<SwapTerms>
    requires a.Fund? && a.t in s.tasks && s.tasks[a.t].CreateRead?
  {
    var k := s.tasks[a.t];
    var spec :- FundSpec(w, s, k, a.tip);
    var script := WitnessScript(spec);
    var vouts :- ScanOutputs(a.tx.outputs, P2wshScript(w.c, script), s.cfg.sellAssetId, w.policyAsset);
    if vouts.0 > U32_MAX || vouts.1 > U32_MAX then Err
    else Ok(TermsFor(w, s.cfg, k, script, FundLock(s, a.tip), TxidOf(w.c, a.tx), vouts.0, vouts.1))
  }

  function ApplyFund(w: World, s: State, a: Action): State
    requires a.Fund? && a.t in s.tasks && s.tasks[a.t].CreateRead?
  {
    var terms := FundTerms(w, s, a);
    var recorded := a.reply.accepted && terms.Ok?;
    var held := a.reply.reported && recorded;
    s.(chain := AfterBroadcast(w.c, s.chain, a.tx, a.reply),
       signed := s.signed[Strip(a.tx) := None],
       funded := if recorded
                 then s.funded[s.tasks[a.t].swapId :=
                                 FundedHtlc(terms.value, s.cfg.sellerKeyIndex, a.tip, s.cfg.refundDeltaBlocks)]
                 else s.funded,
       walletLock := if held then Some(a.t) else None,
       tasks := if held then s.tasks[a.t := CreateFunded(NewRecord(terms.value))] else s.tasks - {a.t})
  }

  ghost predicate ClaimEnabled(w: World, s: State, t: TaskId, reply: Reply) {
    && t in s.tasks && s.tasks[t].ClaimRead? && s.walletLock.None?
    && var k := s.tasks[t];
       var tx := ClaimFor(w, s.cfg, k.terms, k.preimage, k.fee);
       tx.Ok? && ReplyPossible(w.c, s.chain, tx.value, reply)
  }

  function ApplyClaim(w: World, s: State, t: TaskId, reply: Reply): State
    requires t in s.tasks && s.tasks[t].ClaimRead?
    requires ClaimFor(w, s.cfg, s.tasks[t].terms, s.tasks[t].preimage, s.tasks[t].fee).Ok?
  {
    var k := s.tasks[t];
    var tx := ClaimFor(w, s.cfg, k.terms, k.preimage, k.fee).value;
    s.(chain := AfterBroadcast(w.c, s.chain, tx, reply),
       signed := s.signed[Strip(tx) := Some(k.terms.swapId)],
       walletLock := if reply.reported then Some(t) else None,
       tasks := if reply.reported then s.tasks[t := ClaimSent(k.terms, TxidOf(w.c, tx))] else s.tasks - {t})
  }

  ghost predicate RefundEnabled(w: World, s: State, t: TaskId, reply: Reply) {
    && t in s.tasks && s.tasks[t].RefundPass? && s.tasks[t].todo != []
    && var k := s.tasks[t];
       RefundDue(k.todo[0], k.tip) ==>
         var tx := RefundFor(w, s.cfg, k.todo[0].terms, k.fee);
         tx.Ok? && ReplyPossible(w.c, s.chain, tx.value, reply)
  }

  function ApplyRefund(w: World, s: State, t: TaskId, reply: Reply): State
    requires t in s.tasks && s.tasks[t].RefundPass? && s.tasks[t].todo != []
    requires RefundDue(s.tasks[t].todo[0], s.tasks[t].tip) ==>
               RefundFor(w, s.cfg, s.tasks[t].todo[0].terms, s.tasks[t].fee).Ok?
  {
    var k := s.tasks[t];
    var r := k.todo[0];
    if !RefundDue(r, k.tip) then s.(tasks := s.tasks[t := RefundPass(k.tip, k.todo[1..], k.fee)])
    else
      var tx := RefundFor(w, s.cfg, r.terms, k.fee).value;
      s.(chain := AfterBroadcast(w.c, s.chain, tx, reply),
         signed := s.signed[Strip(tx) := Some(r.terms.swapId)],
         tasks := s.tasks[t := if reply.reported then RefundSent(r.terms, k.tip, k.todo[1..], k.fee)
                               else RefundPass(k.tip, k.todo[1..], k.fee)])
  }

  /** A swap id no state has used: the ids are random UUIDs. */
  predicate FreshSwapId(s: State, id: Id) {
    && id !in s.funded && id !in s.swaps
    && forall t :: t in s.tasks && s.tasks[t].CreateRead? ==> s.tasks[t].swapId != id
  }

  ghost predicate Enabled(w: World, s: State, a: Action) {
    match a
    case CreateQuote(q) =>
      && NewQuote(w, s.cfg, q.quoteId, q.direction, q.assetAmount, q.minFundingConfs) == Ok(q)
      && QuoteStorable(q) && q.quoteId !in s.quotes
    case BeginCreate(t, quoteId, swapId, buyer, invoice, msat, paymentHash) =>
      && t !in s.tasks && quoteId in s.quotes && FreshSwapId(s, swapId)
      && CreateAllowed(w, s.cfg, s.quotes[quoteId], buyer, msat)
    case Fund(_, _, _, _, _, _) => FundEnabled(w, s, a)
    case Insert(t) =>
      && t in s.tasks && s.tasks[t].CreateFunded?
      && var r := s.tasks[t].record; SwapStorable(r) && r.terms.swapId !in s.swaps
    case Link(t) =>
      && t in s.tasks && s.tasks[t].CreateInserted?
      && s.tasks[t].quoteId in s.quotes && s.tasks[t].swapId in s.swaps
    case MarkFunded(t, tip) =>
      && t in s.tasks && s.tasks[t].CreateWait? && s.tasks[t].terms.swapId in s.swaps
      && tip <= s.chain.height
      && Confirmed(s.chain, s.tasks[t].terms.fundingTxid, tip, s.tasks[t].terms.minFundingConfs)
    case BeginPay(t, swapId, caller) =>
      && t !in s.tasks && swapId in s.swaps
      && var r := s.swaps[swapId];
         && caller == PartiesFor(r.terms.direction).lnPayer
         && !(r.lnPaymentId.Some? && r.lnPreimage.Some?)
         && r.status.Funded?
    case PersistPayment(t, _, preimage) =>
      && t in s.tasks && s.tasks[t].PayRead? && s.tasks[t].terms.swapId in s.swaps
      && w.c.sha256(preimage) == s.tasks[t].terms.paymentHash
    case BeginClaim(t, swapId, caller, _) =>
      && t !in s.tasks && swapId in s.swaps
      && var r := s.swaps[swapId];
         && caller == PartiesFor(r.terms.direction).liquidClaimer
         && r.claimTxid.None?
         && r.lnPreimage.Some? && |r.lnPreimage.value| == 32
    case BroadcastClaim(t, reply) => ClaimEnabled(w, s, t, reply)
    case PersistClaim(t) => t in s.tasks && s.tasks[t].ClaimSent? && s.tasks[t].terms.swapId in s.swaps
    case BeginRefund(t, tip, todo, _) =>
      t !in s.tasks && s.walletLock.None? && tip <= s.chain.height && IsListing(s.swaps, todo)
    case RefundNext(t, reply) => RefundEnabled(w, s, t, reply)
    case PersistRefund(t) => t in s.tasks && s.tasks[t].RefundSent? && s.tasks[t].terms.swapId in s.swaps
    case EndRefund(t) => t in s.tasks && s.tasks[t].RefundPass? && s.tasks[t].todo == []
    case Fail(t) => t in s.tasks
    case MineBlock(ids) => ids <= s.chain.txs.Keys
    case OtherTx(tx) => Acceptable(w.c, s.chain, tx) && NoForgery(w, s, tx)
    case Crash(_) => true
  }

  function UpdateSwap(s: State, u: Update): State {
    s.(swaps := ApplyUpdate(s.swaps, u))
  }

  /** The task is over: it leaves, and releases the wallet if it held it. */
  function Finish(s: State, t: TaskId): State {
    s.(tasks := s.tasks - {t}, walletLock := if s.walletLock == Some(t) then None else s.walletLock)
  }

  function Apply(w: World, s: State, a: Action): State
    requires Enabled(w, s, a)
  {
    match a
    case CreateQuote(q) => s.(quotes := s.quotes[q.quoteId := q])
    case BeginCreate(t, quoteId, swapId, buyer, invoice, _, paymentHash) =>
      s.(tasks := s.tasks[t := CreateRead(s.quotes[quoteId], swapId, buyer, invoice, paymentHash)])
    case Fund(_, _, _, _, _, _) => ApplyFund(w, s, a)
    case Insert(t) =>
      var r := s.tasks[t].record;
      s.(swaps := s.swaps[r.terms.swapId := r], tasks := s.tasks[t := CreateInserted(r.terms.swapId, r.terms.quoteId)])
    case Link(t) =>
      var k := s.tasks[t];
      s.(quotes := s.quotes[k.quoteId := s.quotes[k.quoteId].(swapId := Some(k.swapId))],
         tasks := s.tasks[t := CreateWait(s.swaps[k.swapId].terms)],
         walletLock := None)
    case MarkFunded(t, _) => Finish(UpdateSwap(s, SetStatus(s.tasks[t].terms.swapId, SwapStatus.Funded)), t)
    case BeginPay(t, swapId, _) => s.(tasks := s.tasks[t := PayRead(s.swaps[swapId].terms)])
    case PersistPayment(t, paymentId, preimage) =>
      Finish(UpdateSwap(s, SetPayment(s.tasks[t].terms.swapId, paymentId, preimage, Paid)), t)
    case BeginClaim(t, swapId, _, feeRequest) =>
      s.(tasks := s.tasks[t := ClaimRead(s.swaps[swapId].terms, s.swaps[swapId].lnPreimage.value,
                                         ClaimFee(feeRequest))])
    case BroadcastClaim(t, reply) => ApplyClaim(w, s, t, reply)
    case PersistClaim(t) => Finish(UpdateSwap(s, SetClaim(s.tasks[t].terms.swapId, s.tasks[t].txid, Claimed)), t)
    case BeginRefund(t, tip, todo, fee) =>
      s.(tasks := s.tasks[t := RefundPass(tip, todo, fee)], walletLock := Some(t))
    case RefundNext(t, reply) => ApplyRefund(w, s, t, reply)
    case PersistRefund(t) =>
      var k := s.tasks[t];
      UpdateSwap(s, SetStatus(k.terms.swapId, Refunded)).(tasks := s.tasks[t := RefundPass(k.tip, k.todo, k.fee)])
    case EndRefund(t) => Finish(s, t)
    case Fail(t) => Finish(s, t)
    case MineBlock(ids) => s.(chain := Mine(s.chain, ids))
    case OtherTx(tx) => s.(chain := Accept(w.c, s.chain, tx))
    case Crash(cfg) => s.(cfg := cfg, tasks := map[], walletLock := None)
  }

  /** The action takes state `s` to state `n`. */
  ghost predicate Takes(w: World, s: State, a: Action, n: State) {
    Enabled(w, s, a) && n == Apply(w, s, a)
  }

  lemma TaskTwice(tasks: map<TaskId, Task>, t: TaskId, k: Task, later: Task)
    ensures tasks[t := k][t := later] == tasks[t := later]
  {
  }

  lemma TaskGone(tasks: map<TaskId, Task>, t: TaskId, k: Task)
    requires t !in tasks
    ensures tasks[t := k] - {t} == tasks
  {
  }

  /** An empty store over any valid chain. */
  ghost predicate Initial(w: World, s: State) {
    && ChainValid(w.c, s.chain)
    && s.quotes == map[] && s.swaps == map[] && s.tasks == map[]
    && s.signed == map[] && s.funded == map[] && s.walletLock.None?
  }

  ghost predicate StepAt(w: World, path: seq<State>, acts: seq<Action>, i: nat) {
    i < |acts| && i + 1 < |path| && Takes(w, path[i], acts[i], path[i + 1])
  }

  /** `path` lists the states the actions lead through, one after the other. */
  ghost predicate IsPath(w: World, path: seq<State>, acts: seq<Action>) {
    |path| == |acts| + 1 && forall i: nat :: i < |acts| ==> StepAt(w, path, acts, i)
  }

  /** An execution from an empty store. */
  ghost predicate IsRun(w: World, run: seq<State>, acts: seq<Action>) {
    IsPath(w, run, acts) && Initial(w, run[0])
  }
}
