/**
 The create_swap handler, with no other call under way, is a sequence of protocol actions,
 wherever it stops. Blocks and foreign transactions come while it waits for confirmations.
 */
module CreateSteps {
  import opened Types
  import opened Transaction
  import opened Chain
  import opened Funding
  import opened Records
  import opened Offer
  import opened Store
  import opened Protocol
  import opened Wallet
  import opened Service
  import opened Handlers

  /**
   One call that has passed its checks: the quote, the parsed arguments, what the world
   answers, what it does during the wait, and the tip that the last poll reads.
   */
  datatype CreateCall = CreateCall(
    t: TaskId,
    quote: QuoteRecord,
    buyer: Address,
    invoice: InvoiceText,
    env: CreateEnv,
    wait: seq<Action>,
    seenTip: u32)

  /** The handler's checks let the call `c` go on to fund. */
  predicate Admitted(w: World, s: State, req: CreateRequest, c: CreateCall) {
    && c.invoice.Invoice? && c.quote.quoteId == req.quoteId
    && CreateDecision(w, s.cfg, s.quotes, s.swaps, Some(Buyer), req) == Done(FundNew(c.quote, c.buyer))
    && InvoiceDecision(c.quote, req.invoice, c.env.node) == Done(c.invoice)
  }

  function Begin(c: CreateCall): Action
    requires c.invoice.Invoice?
  {
    BeginCreate(c.t, c.quote.quoteId, c.env.swapId, c.buyer, c.invoice.text, c.invoice.msat, c.invoice.paymentHash)
  }

  function ReadTask(c: CreateCall): Task
    requires c.invoice.Invoice?
  {
    CreateRead(c.quote, c.env.swapId, c.buyer, c.invoice.text, c.invoice.paymentHash)
  }

  function AfterBegin(s: State, c: CreateCall): State
    requires c.invoice.Invoice?
  {
    s.(tasks := s.tasks[c.t := ReadTask(c)])
  }

  /** The handler goes on to fund exactly when the protocol lets the call begin. */
  lemma CreateBeginsIff(w: World, s: State, req: CreateRequest, c: CreateCall)
    requires c.t !in s.tasks && FreshSwapId(s, c.env.swapId)
    requires !Blank(req.quoteId) && req.address == Parsed(c.buyer)
    requires req.quoteId in s.quotes && s.quotes[req.quoteId] == c.quote && c.quote.quoteId == req.quoteId
    requires c.quote.swapId.None? && c.invoice.Invoice?
    requires InvoiceDecision(c.quote, req.invoice, c.env.node) == Done(c.invoice)
    ensures Admitted(w, s, req, c) <==> Enabled(w, s, Begin(c))
  {
  }

  lemma BeginsCreate(w: World, s: State, req: CreateRequest, c: CreateCall)
    requires c.t !in s.tasks && FreshSwapId(s, c.env.swapId) && Admitted(w, s, req, c)
    ensures c.quote.quoteId in s.quotes && s.quotes[c.quote.quoteId] == c.quote
    ensures Leads(w, s, [Begin(c)], AfterBegin(s, c))
  {
    CreateBeginsIff(w, s, req, c);
    LeadsFirst(w, s, Begin(c), AfterBegin(s, c));
  }

  // ----- the actions, by where the call stops

  /** The call stops before it broadcasts. */
  predicate StopsEarly(w: World, s: State, c: CreateCall)
    requires c.invoice.Invoice?
  {
    || c.env.tip.None? || c.env.built.None?
    || SwapSpec(w, s.cfg, c.quote, c.buyer, c.invoice.paymentHash, c.env.tip.value).Err?
  }

  function RecordOf(w: World, s: State, c: CreateCall, fund: Action): Result<SwapRecord>
    requires c.invoice.Invoice? && fund.Fund?
  {
    FundedRecord(w, s.cfg, c.quote, c.buyer, c.invoice, c.env.swapId, fund.tip, fund.tx)
  }

  function LastAct(c: CreateCall): Action {
    if PollsSucceed(c.env.polls, c.quote.minFundingConfs) then MarkFunded(c.t, c.seenTip) else Fail(c.t)
  }

  function CreateActs(w: World, s: State, c: CreateCall, fund: Action): seq<Action>
    requires c.invoice.Invoice? && fund.Fund?
  {
    var record := RecordOf(w, s, c, fund);
    if StopsEarly(w, s, c) then [Begin(c)] + [Fail(c.t)]
    else if !fund.reply.reported || record.Err? then [Begin(c)] + [fund]
    else if !SwapStorable(record.value) then [Begin(c)] + [fund] + [Fail(c.t)]
    else
      [Begin(c)] + [fund] + [Insert(c.t)] + [Link(c.t)] + c.wait + [LastAct(c)]
  }

  function HtlcOf(cfg: Config, r: SwapRecord, fund: Action): FundedHtlc
    requires fund.Fund?
  {
    FundedHtlc(r.terms, cfg.sellerKeyIndex, fund.tip, cfg.refundDeltaBlocks)
  }

  /** What the broadcast leaves: an HTLC that exists once the network has taken it, recorded or not. */
  function AfterFunding(w: World, s: State, c: CreateCall, fund: Action): State
    requires c.invoice.Invoice? && fund.Fund?
  {
    var record := RecordOf(w, s, c, fund);
    s.(chain := AfterBroadcast(w.c, s.chain, fund.tx, fund.reply), signed := s.signed[Strip(fund.tx) := None],
       funded := if fund.reply.accepted && record.Ok? then s.funded[c.env.swapId := HtlcOf(s.cfg, record.value, fund)]
                 else s.funded)
  }

  /** What the call leaves. */
  function AfterCreate(w: World, s: State, c: CreateCall, fund: Action): State
    requires c.invoice.Invoice? && fund.Fund?
  {
    var record := RecordOf(w, s, c, fund);
    if StopsEarly(w, s, c) then s
    else if !fund.reply.reported || record.Err? || !SwapStorable(record.value) then AfterFunding(w, s, c, fund)
    else
      var status := if PollsSucceed(c.env.polls, c.quote.minFundingConfs) then SwapStatus.Funded else Created;
      var tables := WithSwap(Tables(s.quotes, s.swaps), c.quote, record.value.(status := status));
      AfterFunding(w, s, c, fund).(quotes := tables.quotes, swaps := tables.swaps, chain := ChainSeen(w, s, c, fund))
  }

  /** The chain at the last poll. */
  function ChainSeen(w: World, s: State, c: CreateCall, fund: Action): Chain
    requires fund.Fund?
  {
    AfterWait(w.c, AfterBroadcast(w.c, s.chain, fund.tx, fund.reply), c.wait)
  }

  // ----- single steps

  /** The record the handler builds has the terms the protocol's funding step gives it. */
  lemma RecordIsFundTerms(w: World, s: State, c: CreateCall, fund: Action)
    requires c.invoice.Invoice? && fund.Fund? && fund.t == c.t
    ensures RecordOf(w, s, c, fund) ==
            match FundTerms(w, AfterBegin(s, c), fund) case Err => Err case Ok(terms) => Ok(NewRecord(terms))
  {
  }

  lemma RecordIds(w: World, s: State, c: CreateCall, fund: Action)
    requires c.invoice.Invoice? && fund.Fund? && RecordOf(w, s, c, fund).Ok?
    ensures var r := RecordOf(w, s, c, fund).value;
            && r.terms.swapId == c.env.swapId && r.terms.quoteId == c.quote.quoteId && r == NewRecord(r.terms)
            && r.terms.fundingTxid == TxidOf(w.c, fund.tx) && r.terms.minFundingConfs == c.quote.minFundingConfs
  {
  }

  /** What the wallet hands to the network is a funding of the HTLC, and the answer a possible one. */
  ghost predicate Broadcasts(w: World, s: State, c: CreateCall, fund: Action)
    requires c.invoice.Invoice?
  {
    fund.Fund? && fund.t == c.t && FundEnabled(w, AfterBegin(s, c), fund)
  }

  predicate Holds(w: World, s: State, c: CreateCall, fund: Action)
    requires c.invoice.Invoice? && fund.Fund?
  {
    fund.reply.reported && RecordOf(w, s, c, fund).Ok?
  }

  lemma Funds(w: World, s: State, c: CreateCall, fund: Action) returns (n: State)
    requires c.invoice.Invoice? && Broadcasts(w, s, c, fund) && c.t !in s.tasks && s.walletLock.None?
    requires Leads(w, s, [Begin(c)], AfterBegin(s, c))
    ensures Leads(w, s, [Begin(c)] + [fund], n)
    ensures !Holds(w, s, c, fund) ==> n == AfterFunding(w, s, c, fund)
    ensures Holds(w, s, c, fund) ==>
              n == AfterFunding(w, s, c, fund).(walletLock := Some(c.t),
                                                tasks := s.tasks[c.t := CreateFunded(RecordOf(w, s, c, fund).value)])
  {
    RecordIsFundTerms(w, s, c, fund);
    n := ApplyFund(w, AfterBegin(s, c), fund);
    LeadsOn(w, s, [Begin(c)], AfterBegin(s, c), fund, n);
    TaskGone(s.tasks, c.t, ReadTask(c));
    if Holds(w, s, c, fund) {
      TaskTwice(s.tasks, c.t, ReadTask(c), CreateFunded(RecordOf(w, s, c, fund).value));
    }
  }

  lemma Inserts(w: World, s: State, acts: seq<Action>, m: State, t: TaskId, r: SwapRecord) returns (n: State)
    requires Leads(w, s, acts, m) && t in m.tasks && m.tasks[t] == CreateFunded(r)
    requires SwapStorable(r) && r.terms.swapId !in m.swaps
    ensures Leads(w, s, acts + [Insert(t)], n)
    ensures n == m.(swaps := m.swaps[r.terms.swapId := r],
                    tasks := m.tasks[t := CreateInserted(r.terms.swapId, r.terms.quoteId)])
  {
    n := m.(swaps := m.swaps[r.terms.swapId := r],
            tasks := m.tasks[t := CreateInserted(r.terms.swapId, r.terms.quoteId)]);
    LeadsOn(w, s, acts, m, Insert(t), n);
  }

  lemma Links(w: World, s: State, acts: seq<Action>, m: State, t: TaskId, id: Id, qid: Id) returns (n: State)
    requires Leads(w, s, acts, m) && t in m.tasks && m.tasks[t] == CreateInserted(id, qid)
    requires qid in m.quotes && id in m.swaps
    ensures Leads(w, s, acts + [Link(t)], n)
    ensures n == m.(quotes := m.quotes[qid := m.quotes[qid].(swapId := Some(id))],
                    tasks := m.tasks[t := CreateWait(m.swaps[id].terms)], walletLock := None)
  {
    n := m.(quotes := m.quotes[qid := m.quotes[qid].(swapId := Some(id))],
            tasks := m.tasks[t := CreateWait(m.swaps[id].terms)], walletLock := None);
    LeadsOn(w, s, acts, m, Link(t), n);
  }

  lemma Marks(w: World, s: State, acts: seq<Action>, m: State, t: TaskId, terms: SwapTerms, tip: u32) returns (n: State)
    requires Leads(w, s, acts, m) && t in m.tasks && m.tasks[t] == CreateWait(terms) && terms.swapId in m.swaps
    requires m.walletLock.None? && tip <= m.chain.height
    requires Confirmed(m.chain, terms.fundingTxid, tip, terms.minFundingConfs)
    ensures Leads(w, s, acts + [MarkFunded(t, tip)], n)
    ensures n == m.(swaps := ApplyUpdate(m.swaps, SetStatus(terms.swapId, SwapStatus.Funded)), tasks := m.tasks - {t})
  {
    n := m.(swaps := ApplyUpdate(m.swaps, SetStatus(terms.swapId, SwapStatus.Funded)), tasks := m.tasks - {t});
    LeadsOn(w, s, acts, m, MarkFunded(t, tip), n);
  }

  /** The task has stored and linked its swap, and waits. */
  lemma Stores(w: World, s: State, acts: seq<Action>, m: State, t: TaskId, r: SwapRecord) returns (n: State)
    requires Leads(w, s, acts, m) && t in m.tasks && m.tasks[t] == CreateFunded(r)
    requires SwapStorable(r) && r.terms.swapId !in m.swaps && r.terms.quoteId in m.quotes
    ensures Leads(w, s, acts + [Insert(t)] + [Link(t)], n)
    ensures n == m.(quotes := m.quotes[r.terms.quoteId := m.quotes[r.terms.quoteId].(swapId := Some(r.terms.swapId))],
                    swaps := m.swaps[r.terms.swapId := r],
                    tasks := m.tasks[t := CreateWait(r.terms)], walletLock := None)
  {
    var i := Inserts(w, s, acts, m, t, r);
    n := Links(w, s, acts + [Insert(t)], i, t, r.terms.swapId, r.terms.quoteId);
    TaskTwice(m.tasks, t, CreateInserted(r.terms.swapId, r.terms.quoteId), CreateWait(r.terms));
  }

  lemma SwapTwice(swaps: map<Id, SwapRecord>, id: Id, r: SwapRecord, later: SwapRecord)
    ensures swaps[id := r][id := later] == swaps[id := later]
  {
  }

  // ----- whole calls

  lemma StopsBeforeFunding(w: World, s: State, c: CreateCall)
    requires c.invoice.Invoice? && Leads(w, s, [Begin(c)], AfterBegin(s, c))
    requires c.t !in s.tasks && s.walletLock != Some(c.t)
    ensures Leads(w, s, [Begin(c)] + [Fail(c.t)], s)
  {
    Fails(w, s, [Begin(c)], AfterBegin(s, c), c.t);
    TaskGone(s.tasks, c.t, ReadTask(c));
    assert Finish(AfterBegin(s, c), c.t) == s;
  }

  lemma StopsUnstorable(w: World, s: State, c: CreateCall, fund: Action, m: State)
    requires c.invoice.Invoice? && Broadcasts(w, s, c, fund) && Holds(w, s, c, fund)
    requires c.t !in s.tasks && s.walletLock.None?
    requires Leads(w, s, [Begin(c)] + [fund], m)
    requires m == AfterFunding(w, s, c, fund).(walletLock := Some(c.t),
                                               tasks := s.tasks[c.t := CreateFunded(RecordOf(w, s, c, fund).value)])
    ensures Leads(w, s, [Begin(c)] + [fund] + [Fail(c.t)], AfterFunding(w, s, c, fund))
  {
    Fails(w, s, [Begin(c)] + [fund], m, c.t);
    TaskGone(s.tasks, c.t, CreateFunded(RecordOf(w, s, c, fund).value));
    assert Finish(m, c.t) == AfterFunding(w, s, c, fund);
  }

  /** The stored swap, waiting for its confirmations. */
  ghost function AfterStore(w: World, s: State, c: CreateCall, fund: Action): State
    requires c.invoice.Invoice? && fund.Fund? && Holds(w, s, c, fund)
  {
    var r := RecordOf(w, s, c, fund).value;
    var tables := WithSwap(Tables(s.quotes, s.swaps), c.quote, r);
    AfterFunding(w, s, c, fund).(quotes := tables.quotes, swaps := tables.swaps,
                                 tasks := s.tasks[c.t := CreateWait(r.terms)])
  }

  lemma StoresCall(w: World, s: State, c: CreateCall, fund: Action, m: State)
    requires c.invoice.Invoice? && fund.Fund? && Holds(w, s, c, fund) && c.t !in s.tasks && s.walletLock.None?
    requires c.quote.quoteId in s.quotes && s.quotes[c.quote.quoteId] == c.quote && c.env.swapId !in s.swaps
    requires SwapStorable(RecordOf(w, s, c, fund).value) && Leads(w, s, [Begin(c)] + [fund], m)
    requires m == AfterFunding(w, s, c, fund).(walletLock := Some(c.t),
                                               tasks := s.tasks[c.t := CreateFunded(RecordOf(w, s, c, fund).value)])
    ensures Leads(w, s, [Begin(c)] + [fund] + [Insert(c.t)] + [Link(c.t)], AfterStore(w, s, c, fund))
  {
    var r := RecordOf(w, s, c, fund).value;
    RecordIds(w, s, c, fund);
    var n := Stores(w, s, [Begin(c)] + [fund], m, c.t, r);
    TaskTwice(s.tasks, c.t, CreateFunded(r), CreateWait(r.terms));
    assert n == AfterStore(w, s, c, fund);
  }

  /** While the stored swap waits, the chain goes on. */
  ghost predicate WaitsThrough(w: World, s: State, c: CreateCall, fund: Action)
    requires c.invoice.Invoice? && fund.Fund?
  {
    Meanwhile(w, AfterFunding(w, s, c, fund), AfterBroadcast(w.c, s.chain, fund.tx, fund.reply), c.wait)
  }

  lemma Waits(w: World, s: State, c: CreateCall, fund: Action, acts: seq<Action>)
    requires c.invoice.Invoice? && fund.Fund? && Holds(w, s, c, fund) && WaitsThrough(w, s, c, fund)
    requires Leads(w, s, acts, AfterStore(w, s, c, fund))
    ensures Leads(w, s, acts + c.wait, AfterStore(w, s, c, fund).(chain := ChainSeen(w, s, c, fund)))
  {
    var m := AfterStore(w, s, c, fund);
    MeanwhileAlike(w, AfterFunding(w, s, c, fund), m, m.chain, c.wait);
    assert m == m.(chain := m.chain);
    LeadsWaiting(w, s, acts, m, m.chain, c.wait);
  }

  /** The poll that sees enough confirmations reads the chain that the wait led to. */
  predicate SeesFunding(w: World, s: State, c: CreateCall, fund: Action)
    requires fund.Fund?
  {
    && c.seenTip <= ChainSeen(w, s, c, fund).height
    && Confirmed(ChainSeen(w, s, c, fund), TxidOf(w.c, fund.tx), c.seenTip, c.quote.minFundingConfs)
  }

  lemma ConfirmedEnds(w: World, s: State, c: CreateCall, fund: Action, acts: seq<Action>)
    requires c.invoice.Invoice? && fund.Fund? && c.t !in s.tasks && s.walletLock.None?
    requires !StopsEarly(w, s, c) && Holds(w, s, c, fund) && SwapStorable(RecordOf(w, s, c, fund).value)
    requires Leads(w, s, acts, AfterStore(w, s, c, fund).(chain := ChainSeen(w, s, c, fund)))
    requires PollsSucceed(c.env.polls, c.quote.minFundingConfs) && SeesFunding(w, s, c, fund)
    ensures Leads(w, s, acts + [MarkFunded(c.t, c.seenTip)], AfterCreate(w, s, c, fund))
  {
    var m := AfterStore(w, s, c, fund).(chain := ChainSeen(w, s, c, fund));
    var r := RecordOf(w, s, c, fund).value;
    RecordIds(w, s, c, fund);
    var n := Marks(w, s, acts, m, c.t, r.terms, c.seenTip);
    TaskGone(s.tasks, c.t, CreateWait(r.terms));
    SwapTwice(s.swaps, r.terms.swapId, r, r.(status := SwapStatus.Funded));
    assert n == AfterCreate(w, s, c, fund);
  }

  lemma UnconfirmedEnds(w: World, s: State, c: CreateCall, fund: Action, acts: seq<Action>)
    requires c.invoice.Invoice? && fund.Fund? && c.t !in s.tasks && s.walletLock.None?
    requires !StopsEarly(w, s, c) && Holds(w, s, c, fund) && SwapStorable(RecordOf(w, s, c, fund).value)
    requires Leads(w, s, acts, AfterStore(w, s, c, fund).(chain := ChainSeen(w, s, c, fund)))
    requires !PollsSucceed(c.env.polls, c.quote.minFundingConfs)
    ensures Leads(w, s, acts + [Fail(c.t)], AfterCreate(w, s, c, fund))
  {
    var m := AfterStore(w, s, c, fund).(chain := ChainSeen(w, s, c, fund));
    TaskGone(s.tasks, c.t, CreateWait(RecordOf(w, s, c, fund).value.terms));
    Fails(w, s, acts, m, c.t);
    assert Finish(m, c.t) == AfterCreate(w, s, c, fund);
  }

  lemma WaitEnds(w: World, s: State, c: CreateCall, fund: Action, acts: seq<Action>)
    requires c.invoice.Invoice? && Broadcasts(w, s, c, fund) && c.t !in s.tasks && s.walletLock.None?
    requires !StopsEarly(w, s, c) && Holds(w, s, c, fund) && SwapStorable(RecordOf(w, s, c, fund).value)
    requires Leads(w, s, acts, AfterStore(w, s, c, fund).(chain := ChainSeen(w, s, c, fund)))
    requires PollsSucceed(c.env.polls, c.quote.minFundingConfs) ==> SeesFunding(w, s, c, fund)
    ensures Leads(w, s, acts + [LastAct(c)], AfterCreate(w, s, c, fund))
  {
    if PollsSucceed(c.env.polls, c.quote.minFundingConfs) {
      ConfirmedEnds(w, s, c, fund, acts);
    } else {
      UnconfirmedEnds(w, s, c, fund, acts);
    }
  }

  /** Wherever a call stops that its checks let through, its actions lead to what it leaves. */
  lemma CreateTakesSteps(w: World, s: State, req: CreateRequest, c: CreateCall, fund: Action)
    requires Admitted(w, s, req, c) && c.t !in s.tasks && s.walletLock.None? && FreshSwapId(s, c.env.swapId)
    requires fund.Fund? && (!StopsEarly(w, s, c) ==> Broadcasts(w, s, c, fund))
    requires Holds(w, s, c, fund) ==> WaitsThrough(w, s, c, fund)
    requires Holds(w, s, c, fund) && PollsSucceed(c.env.polls, c.quote.minFundingConfs) ==> SeesFunding(w, s, c, fund)
    ensures Leads(w, s, CreateActs(w, s, c, fund), AfterCreate(w, s, c, fund))
  {
    BeginsCreate(w, s, req, c);
    if StopsEarly(w, s, c) {
      StopsBeforeFunding(w, s, c);
    } else {
      var m := Funds(w, s, c, fund);
      if Holds(w, s, c, fund) {
        if SwapStorable(RecordOf(w, s, c, fund).value) {
          StoresCall(w, s, c, fund, m);
          Waits(w, s, c, fund, [Begin(c)] + [fund] + [Insert(c.t)] + [Link(c.t)]);
          WaitEnds(w, s, c, fund, [Begin(c)] + [fund] + [Insert(c.t)] + [Link(c.t)] + c.wait);
        } else {
          StopsUnstorable(w, s, c, fund, m);
        }
      }
    }
  }

  /** And what it leaves is what the handler leaves. */
  lemma OutcomeIsAfterCreate(w: World, s: State, c: CreateCall, fund: Action, sent: seq<Broadcast>, after: Tables,
                             r: Response<SwapRecord>)
    requires c.invoice.Invoice? && FreshSwapId(s, c.env.swapId)
    requires FundOutcome(w, s.cfg, c.quote, c.buyer, c.invoice, c.env, Tables(s.quotes, s.swaps), sent, after, r)
    requires fund.Fund?
    requires sent != [] ==> sent == [Broadcast(fund.tx, fund.reply.reported)] && c.env.tip == Some(fund.tip)
    ensures after == Tables(AfterCreate(w, s, c, fund).quotes, AfterCreate(w, s, c, fund).swaps)
    ensures sent == [] <==> StopsEarly(w, s, c)
    ensures r.Done? ==> r.value == AfterCreate(w, s, c, fund).swaps[c.env.swapId]
  {
    if sent != [] && RecordOf(w, s, c, fund).Ok? {
      RecordIds(w, s, c, fund);
    }
  }

  // ----- the confirmations can come

  /** The wait is at most `most` blocks long and brings the transaction to `n` confirmations. */
  ghost predicate Confirms(w: World, s: State, ch: Chain, wait: seq<Action>, id: Txid, n: u32, most: nat) {
    && Meanwhile(w, s, ch, wait)
    && var later := AfterWait(w.c, ch, wait);
       later.height <= ch.height + most && Confirmed(later, id, later.height, n)
  }

  lemma OneMoreBlock(w: World, s: State, ch: Chain, ids: set<Txid>, rest: seq<Action>, id: Txid, n: u32, most: nat)
    requires ids <= ch.txs.Keys && Confirms(w, s, Mine(ch, ids), rest, id, n, most)
    ensures Confirms(w, s, ch, [MineBlock(ids)] + rest, id, n, most + 1)
  {
    var wait := [MineBlock(ids)] + rest;
    assert wait[0] == MineBlock(ids) && wait[1..] == rest;
  }

  /** Blocks without news bring a mined transaction, which has `k` confirmations, to any number of them. */
  lemma {:induction false} MoreBlocks(w: World, s: State, ch: Chain, id: Txid, n: u32, k: nat)
    returns (wait: seq<Action>)
    requires id in ch.txs && id in ch.minedAt && 0 < ch.minedAt[id] && ch.height + 1 == ch.minedAt[id] + k
    ensures Confirms(w, s, ch, wait, id, n, if k < n then n - k else 0)
    decreases n - k
  {
    if k >= n {
      wait := [];
    } else {
      var rest := MoreBlocks(w, s, Mine(ch, {}), id, n, k + 1);
      OneMoreBlock(w, s, ch, {}, rest, id, n, n - k - 1);
      wait := [MineBlock({})] + rest;
    }
  }

  /** A transaction just accepted gets as many confirmations as one likes. */
  lemma ConfirmationsCome(w: World, s: State, ch: Chain, id: Txid, n: u32) returns (wait: seq<Action>)
    requires id in ch.txs && id !in ch.minedAt
    ensures Confirms(w, s, ch, wait, id, n, n + 1)
  {
    var rest := MoreBlocks(w, s, Mine(ch, {id}), id, n, 1);
    OneMoreBlock(w, s, ch, {id}, rest, id, n, if 1 < n then n - 1 else 0);
    wait := [MineBlock({id})] + rest;
  }

  lemma FundingUnmined(w: World, s: State, c: CreateCall, fund: Action)
    requires c.invoice.Invoice? && Broadcasts(w, s, c, fund) && fund.reply.accepted && ChainValid(w.c, s.chain)
    ensures var ch := AfterBroadcast(w.c, s.chain, fund.tx, fund.reply);
            TxidOf(w.c, fund.tx) in ch.txs && TxidOf(w.c, fund.tx) !in ch.minedAt && ch.height == s.chain.height
  {
  }

  /** So whatever the quote asks for, a call that has funded its swap can meet all that a success needs. */
  lemma SuccessPossible(w: World, s: State, c: CreateCall, fund: Action) returns (d: CreateCall)
    requires c.invoice.Invoice? && Broadcasts(w, s, c, fund) && Holds(w, s, c, fund) && ChainValid(w.c, s.chain)
    requires s.chain.height + c.quote.minFundingConfs < U32_MAX
    ensures d == c.(wait := d.wait, seenTip := d.seenTip)
    ensures WaitsThrough(w, s, d, fund) && SeesFunding(w, s, d, fund)
  {
    var ch, id := AfterBroadcast(w.c, s.chain, fund.tx, fund.reply), TxidOf(w.c, fund.tx);
    FundingUnmined(w, s, c, fund);
    var wait := ConfirmationsCome(w, AfterFunding(w, s, c, fund), ch, id, c.quote.minFundingConfs);
    d := c.(wait := wait, seenTip := AfterWait(w.c, ch, wait).height);
    assert AfterFunding(w, s, d, fund) == AfterFunding(w, s, c, fund);
  }
}
