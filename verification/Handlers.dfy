/**
 The quote, payment and claim handlers, with no other call under way, are sequences of
 protocol actions: their checks are the first action's guard, and their effect is the effect
 of the actions, whatever the node and the network answer.
 */
module Handlers {
  import opened Types
  import opened Transaction
  import opened Chain
  import opened Records
  import opened Offer
  import opened Store
  import opened Protocol
  import opened Service
  import Safety

  /** The actions lead from `s` to `n`. */
  ghost predicate Leads(w: World, s: State, acts: seq<Action>, n: State) {
    exists path :: IsPath(w, path, acts) && path[0] == s && path[|path| - 1] == n
  }

  lemma LeadsNowhere(w: World, s: State)
    ensures Leads(w, s, [], s)
  {
    assert IsPath(w, [s], []) && [s][0] == s;
  }

  lemma LeadsOn(w: World, s: State, acts: seq<Action>, m: State, a: Action, n: State)
    requires Leads(w, s, acts, m) && Takes(w, m, a, n)
    ensures Leads(w, s, acts + [a], n)
  {
    var path :| IsPath(w, path, acts) && path[0] == s && path[|path| - 1] == m;
    Safety.PathSnoc(w, path, acts, a, n);
    assert (path + [n])[0] == s && (path + [n])[|path + [n]| - 1] == n;
  }

  lemma LeadsFirst(w: World, s: State, a: Action, n: State)
    requires Takes(w, s, a, n)
    ensures Leads(w, s, [a], n)
  {
    LeadsNowhere(w, s);
    LeadsOn(w, s, [], s, a, n);
    assert [] + [a] == [a];
  }

  // ----- while a call waits

  /** The chain after blocks and foreign transactions. */
  function AfterWait(c: Crypto, ch: Chain, wait: seq<Action>): Chain
    decreases |wait|
  {
    if wait == [] then ch else AfterWait(c, AfterOne(c, ch, wait[0]), wait[1..])
  }

  function AfterOne(c: Crypto, ch: Chain, a: Action): Chain {
    match a
    case MineBlock(ids) => Mine(ch, ids)
    case OtherTx(tx) => Accept(c, ch, tx)
    case _ => ch
  }

  /** From state `s` on, but with chain `ch`, blocks and foreign transactions may come in this order. */
  ghost predicate Meanwhile(w: World, s: State, ch: Chain, wait: seq<Action>)
    decreases |wait|
  {
    wait != [] ==>
      && (wait[0].MineBlock? || wait[0].OtherTx?) && Enabled(w, s.(chain := ch), wait[0])
      && Meanwhile(w, s, AfterOne(w.c, ch, wait[0]), wait[1..])
  }

  lemma WeatherLeads(w: World, s: State, acts: seq<Action>, m: State, ch: Chain, a: Action)
    requires Leads(w, s, acts, m.(chain := ch)) && (a.MineBlock? || a.OtherTx?) && Enabled(w, m.(chain := ch), a)
    ensures Leads(w, s, acts + [a], m.(chain := AfterOne(w.c, ch, a)))
  {
    LeadsOn(w, s, acts, m.(chain := ch), a, m.(chain := AfterOne(w.c, ch, a)));
  }

  lemma FirstAndRest(acts: seq<Action>, wait: seq<Action>)
    requires wait != []
    ensures acts + [wait[0]] + wait[1..] == acts + wait
  {
  }

  lemma {:induction false} LeadsWaiting(w: World, s: State, acts: seq<Action>, m: State, ch: Chain, wait: seq<Action>)
    requires Leads(w, s, acts, m.(chain := ch)) && Meanwhile(w, m, ch, wait)
    ensures Leads(w, s, acts + wait, m.(chain := AfterWait(w.c, ch, wait)))
    decreases |wait|
  {
    if wait == [] {
      assert acts + wait == acts;
    } else {
      WeatherLeads(w, s, acts, m, ch, wait[0]);
      LeadsWaiting(w, s, acts + [wait[0]], m, AfterOne(w.c, ch, wait[0]), wait[1..]);
      FirstAndRest(acts, wait);
    }
  }

  /** What may come depends on the chain and on what the wallet has signed, on nothing else. */
  lemma {:induction false} MeanwhileAlike(w: World, s: State, n: State, ch: Chain, wait: seq<Action>)
    requires Meanwhile(w, s, ch, wait) && n.signed == s.signed
    ensures Meanwhile(w, n, ch, wait)
    decreases |wait|
  {
    if wait != [] {
      MeanwhileAlike(w, s, n, AfterOne(w.c, ch, wait[0]), wait[1..]);
    }
  }

  // ----- create_quote

  /** The handler makes a quote it can store exactly when the protocol lets that quote be created. */
  lemma QuoteCreatedIff(w: World, s: State, caller: Option<CallerRole>, direction: Option<SwapDirection>, amount: u64,
                        assetId: Option<Asset>, minConfs: u32, quoteId: Id, q: QuoteRecord)
    ensures QuoteDecision(w, s.cfg, caller, direction, amount, assetId, minConfs, quoteId) == Done(q)
            && QuoteStorable(q) && quoteId !in s.quotes
            <==>
            && caller == Some(Seller) && assetId == Some(s.cfg.sellAssetId)
            && direction == Some(q.direction) && amount == q.assetAmount && minConfs == q.minFundingConfs
            && quoteId == q.quoteId && Enabled(w, s, CreateQuote(q))
  {
  }

  /** The quote a call returns is the protocol's `CreateQuote`. */
  lemma QuoteTakesStep(w: World, s: State, caller: Option<CallerRole>, direction: Option<SwapDirection>, amount: u64,
                       assetId: Option<Asset>, minConfs: u32, quoteId: Id, q: QuoteRecord)
    requires QuoteDecision(w, s.cfg, caller, direction, amount, assetId, minConfs, quoteId) == Done(q)
    requires QuoteStorable(q) && quoteId !in s.quotes
    ensures Leads(w, s, [CreateQuote(q)], s.(quotes := s.quotes[quoteId := q]))
  {
    LeadsFirst(w, s, CreateQuote(q), s.(quotes := s.quotes[quoteId := q]));
  }

  /** While the configuration stays, create_swap takes the quote from exactly the buyers with a P2WPKH address here. */
  lemma QuoteHonoured(w: World, cfg: Config, caller: Option<CallerRole>, direction: Option<SwapDirection>, amount: u64,
                      assetId: Option<Asset>, minConfs: u32, quoteId: Id, q: QuoteRecord, t: Tables, buyer: Address,
                      invoice: Option<InvoiceText>)
    requires QuoteDecision(w, cfg, caller, direction, amount, assetId, minConfs, quoteId) == Done(q)
    requires quoteId in t.quotes && t.quotes[quoteId] == q && !Blank(quoteId)
    ensures var req := CreateRequest(quoteId, Parsed(buyer), invoice);
            CreateDecision(w, cfg, t.quotes, t.swaps, Some(Buyer), req) == Done(FundNew(q, buyer))
            <==> KeyHashOfScript(buyer.script).Ok? && buyer.network == w.network
  {
  }

  // ----- create_lightning_payment

  /** The handler goes on to pay exactly when the protocol lets payment begin. */
  lemma PayBeginsIff(w: World, s: State, t: TaskId, role: CallerRole, swapId: Id)
    requires t !in s.tasks && !Blank(swapId)
    ensures Enabled(w, s, BeginPay(t, swapId, role)) <==>
            swapId in s.swaps && PayDecision(s.swaps, Some(role), swapId) == Done(PayInvoice(s.swaps[swapId]))
  {
  }

  /** The actions of one call, `wait` before the node's answer; none if it is refused or finds a stored payment. */
  function PayActs(c: Crypto, swaps: map<Id, SwapRecord>, t: TaskId, role: CallerRole, swapId: Id, wait: seq<Action>,
                   pay: Payer): seq<Action> {
    match PayDecision(swaps, Some(role), swapId)
    case Done(PayInvoice(r)) =>
      var settled := pay(r.terms.invoice);
      [BeginPay(t, swapId, role)] + wait +
      [if settled.Some? && c.sha256(settled.value.1) == r.terms.paymentHash
       then PersistPayment(t, settled.value.0, settled.value.1)
       else Fail(t)]
    case _ => []
  }

  /** What the call leaves: the table of `PayResult`, on the chain as the wait left it. */
  function AfterPay(c: Crypto, s: State, role: CallerRole, swapId: Id, wait: seq<Action>, pay: Payer): State {
    var pays := PayDecision(s.swaps, Some(role), swapId);
    s.(swaps := PayResult(c, s.swaps, Some(role), swapId, pay).1,
       chain := if pays.Done? && pays.value.PayInvoice? then AfterWait(c, s.chain, wait) else s.chain)
  }

  ghost function PayBegun(s: State, t: TaskId, swapId: Id): State
    requires swapId in s.swaps
  {
    s.(tasks := s.tasks[t := PayRead(s.swaps[swapId].terms)])
  }

  lemma BeginsPay(w: World, s: State, t: TaskId, role: CallerRole, swapId: Id)
    requires t !in s.tasks && swapId in s.swaps
    requires PayDecision(s.swaps, Some(role), swapId) == Done(PayInvoice(s.swaps[swapId]))
    ensures Leads(w, s, [BeginPay(t, swapId, role)], PayBegun(s, t, swapId))
  {
    PayBeginsIff(w, s, t, role, swapId);
    LeadsFirst(w, s, BeginPay(t, swapId, role), PayBegun(s, t, swapId));
  }

  lemma AwaitsPayment(w: World, s: State, t: TaskId, role: CallerRole, swapId: Id, wait: seq<Action>)
    requires t !in s.tasks && swapId in s.swaps && Meanwhile(w, s, s.chain, wait)
    requires PayDecision(s.swaps, Some(role), swapId) == Done(PayInvoice(s.swaps[swapId]))
    ensures Leads(w, s, [BeginPay(t, swapId, role)] + wait,
                  PayBegun(s, t, swapId).(chain := AfterWait(w.c, s.chain, wait)))
  {
    var m := PayBegun(s, t, swapId);
    BeginsPay(w, s, t, role, swapId);
    MeanwhileAlike(w, s, m, s.chain, wait);
    assert m == m.(chain := s.chain);
    LeadsWaiting(w, s, [BeginPay(t, swapId, role)], m, s.chain, wait);
  }

  lemma PersistsPayment(w: World, s: State, t: TaskId, role: CallerRole, swapId: Id, wait: seq<Action>,
                        paymentId: bytes, preimage: Hash32)
    requires t !in s.tasks && s.walletLock != Some(t) && swapId in s.swaps && s.swaps[swapId].terms.swapId == swapId
    requires PayDecision(s.swaps, Some(role), swapId) == Done(PayInvoice(s.swaps[swapId]))
    requires w.c.sha256(preimage) == s.swaps[swapId].terms.paymentHash && Meanwhile(w, s, s.chain, wait)
    ensures Leads(w, s, [BeginPay(t, swapId, role)] + wait + [PersistPayment(t, paymentId, preimage)],
                  s.(swaps := ApplyUpdate(s.swaps, SetPayment(swapId, paymentId, preimage, Paid)),
                     chain := AfterWait(w.c, s.chain, wait)))
  {
    var later := AfterWait(w.c, s.chain, wait);
    var n := s.(swaps := ApplyUpdate(s.swaps, SetPayment(swapId, paymentId, preimage, Paid)), chain := later);
    AwaitsPayment(w, s, t, role, swapId, wait);
    TaskGone(s.tasks, t, PayRead(s.swaps[swapId].terms));
    LeadsOn(w, s, [BeginPay(t, swapId, role)] + wait, PayBegun(s, t, swapId).(chain := later),
            PersistPayment(t, paymentId, preimage), n);
  }

  /** A task that fails is gone, and the wallet is free if it held it. */
  lemma Fails(w: World, s: State, acts: seq<Action>, m: State, t: TaskId)
    requires Leads(w, s, acts, m) && t in m.tasks
    ensures Leads(w, s, acts + [Fail(t)], Finish(m, t))
  {
    LeadsOn(w, s, acts, m, Fail(t), Finish(m, t));
  }

  lemma PayFails(w: World, s: State, t: TaskId, role: CallerRole, swapId: Id, wait: seq<Action>)
    requires t !in s.tasks && s.walletLock != Some(t) && swapId in s.swaps && Meanwhile(w, s, s.chain, wait)
    requires PayDecision(s.swaps, Some(role), swapId) == Done(PayInvoice(s.swaps[swapId]))
    ensures Leads(w, s, [BeginPay(t, swapId, role)] + wait + [Fail(t)], s.(chain := AfterWait(w.c, s.chain, wait)))
  {
    var m := PayBegun(s, t, swapId).(chain := AfterWait(w.c, s.chain, wait));
    AwaitsPayment(w, s, t, role, swapId, wait);
    TaskGone(s.tasks, t, PayRead(s.swaps[swapId].terms));
    Fails(w, s, [BeginPay(t, swapId, role)] + wait, m, t);
    assert Finish(m, t) == s.(chain := AfterWait(w.c, s.chain, wait));
  }

  /** Whatever the node answers, and whatever the chain does before: the call's actions lead to what it leaves. */
  lemma PayTakesSteps(w: World, s: State, t: TaskId, role: CallerRole, swapId: Id, wait: seq<Action>,
                      pay: Payer)
    requires t !in s.tasks && s.walletLock != Some(t) && Meanwhile(w, s, s.chain, wait)
    requires swapId in s.swaps ==> s.swaps[swapId].terms.swapId == swapId
    ensures Leads(w, s, PayActs(w.c, s.swaps, t, role, swapId, wait, pay),
                  AfterPay(w.c, s, role, swapId, wait, pay))
  {
    match PayDecision(s.swaps, Some(role), swapId)
    case Done(PayInvoice(r)) =>
      var settled := pay(r.terms.invoice);
      if settled.Some? && w.c.sha256(settled.value.1) == r.terms.paymentHash {
        PersistsPayment(w, s, t, role, swapId, wait, settled.value.0, settled.value.1);
      } else {
        PayFails(w, s, t, role, swapId, wait);
      }
    case _ => LeadsNowhere(w, s);
  }

  // ----- create_asset_claim

  /** The handler sends a claim exactly when the protocol lets one begin and it can be built. */
  lemma ClaimBeginsIff(w: World, s: State, t: TaskId, role: CallerRole, swapId: Id, feeRequest: u64)
    requires t !in s.tasks && !Blank(swapId)
    ensures (exists tx :: ClaimDecision(w, s.cfg, s.swaps, Some(role), swapId, feeRequest, true) == Done(SendClaim(tx)))
            <==>
            && Enabled(w, s, BeginClaim(t, swapId, role, feeRequest))
            && ClaimFor(w, s.cfg, s.swaps[swapId].terms, s.swaps[swapId].lnPreimage.value, ClaimFee(feeRequest)).Ok?
  {
  }

  /** The actions of one call: none if it sends nothing. The network's reply may be lost. */
  function ClaimActs(plan: Response<ClaimPlan>, t: TaskId, role: CallerRole, swapId: Id, feeRequest: u64, reply: Reply)
    : seq<Action> {
    match plan
    case Done(SendClaim(tx)) =>
      var sends := [BeginClaim(t, swapId, role, feeRequest)] + [BroadcastClaim(t, reply)];
      if reply.reported then sends + [PersistClaim(t)] else sends
    case _ => []
  }

  /** What the call leaves, its broadcast included. */
  ghost function AfterClaim(w: World, s: State, plan: Response<ClaimPlan>, swapId: Id, reply: Reply): State {
    match plan
    case Done(SendClaim(tx)) =>
      s.(chain := AfterBroadcast(w.c, s.chain, tx, reply), signed := s.signed[Strip(tx) := Some(swapId)],
         swaps := if reply.reported then ApplyUpdate(s.swaps, SetClaim(swapId, TxidOf(w.c, tx), Claimed)) else s.swaps)
    case _ => s
  }

  ghost function Claiming(s: State, t: TaskId, swapId: Id, feeRequest: u64): State
    requires swapId in s.swaps && s.swaps[swapId].lnPreimage.Some? && |s.swaps[swapId].lnPreimage.value| == 32
  {
    s.(tasks := s.tasks[t := ClaimRead(s.swaps[swapId].terms, s.swaps[swapId].lnPreimage.value, ClaimFee(feeRequest))])
  }

  lemma BeginsClaim(w: World, s: State, t: TaskId, role: CallerRole, swapId: Id, feeRequest: u64, tx: Tx)
    requires t !in s.tasks && !Blank(swapId)
    requires ClaimDecision(w, s.cfg, s.swaps, Some(role), swapId, feeRequest, true) == Done(SendClaim(tx))
    ensures swapId in s.swaps && s.swaps[swapId].lnPreimage.Some? && |s.swaps[swapId].lnPreimage.value| == 32
    ensures ClaimFor(w, s.cfg, s.swaps[swapId].terms, s.swaps[swapId].lnPreimage.value, ClaimFee(feeRequest)) == Ok(tx)
    ensures Leads(w, s, [BeginClaim(t, swapId, role, feeRequest)], Claiming(s, t, swapId, feeRequest))
  {
    ClaimBeginsIff(w, s, t, role, swapId, feeRequest);
    LeadsFirst(w, s, BeginClaim(t, swapId, role, feeRequest), Claiming(s, t, swapId, feeRequest));
  }

  lemma BroadcastsClaim(w: World, s: State, acts: seq<Action>, m: State, t: TaskId, terms: SwapTerms, preimage: Hash32,
                        fee: u64, tx: Tx, reply: Reply) returns (n: State)
    requires Leads(w, s, acts, m) && m.walletLock.None? && t in m.tasks && m.tasks[t] == ClaimRead(terms, preimage, fee)
    requires ClaimFor(w, m.cfg, terms, preimage, fee) == Ok(tx) && ReplyPossible(w.c, m.chain, tx, reply)
    ensures Leads(w, s, acts + [BroadcastClaim(t, reply)], n)
    ensures n == m.(chain := AfterBroadcast(w.c, m.chain, tx, reply),
                    signed := m.signed[Strip(tx) := Some(terms.swapId)],
                    walletLock := if reply.reported then Some(t) else None,
                    tasks := if reply.reported then m.tasks[t := ClaimSent(terms, TxidOf(w.c, tx))] else m.tasks - {t})
  {
    n := ApplyClaim(w, m, t, reply);
    LeadsOn(w, s, acts, m, BroadcastClaim(t, reply), n);
  }

  lemma PersistsClaim(w: World, s: State, acts: seq<Action>, m: State, t: TaskId, terms: SwapTerms, txid: Txid)
    returns (n: State)
    requires Leads(w, s, acts, m) && m.walletLock == Some(t) && t in m.tasks && m.tasks[t] == ClaimSent(terms, txid)
    requires terms.swapId in m.swaps
    ensures Leads(w, s, acts + [PersistClaim(t)], n)
    ensures n == m.(swaps := ApplyUpdate(m.swaps, SetClaim(terms.swapId, txid, Claimed)),
                    walletLock := None, tasks := m.tasks - {t})
  {
    n := m.(swaps := ApplyUpdate(m.swaps, SetClaim(terms.swapId, txid, Claimed)),
            walletLock := None, tasks := m.tasks - {t});
    LeadsOn(w, s, acts, m, PersistClaim(t), n);
  }

  /** A claim that the network has answered is recorded. */
  lemma RecordsClaim(w: World, s: State, acts: seq<Action>, m: State, t: TaskId, terms: SwapTerms, preimage: Hash32,
                     fee: u64, tx: Tx, accepted: bool)
    requires t !in s.tasks && s.walletLock.None? && terms.swapId in s.swaps
    requires m == s.(tasks := s.tasks[t := ClaimRead(terms, preimage, fee)]) && Leads(w, s, acts, m)
    requires ClaimFor(w, s.cfg, terms, preimage, fee) == Ok(tx)
    requires ReplyPossible(w.c, s.chain, tx, Reply(accepted, true))
    ensures Leads(w, s, acts + [BroadcastClaim(t, Reply(accepted, true))] + [PersistClaim(t)],
                  AfterClaim(w, s, Done(SendClaim(tx)), terms.swapId, Reply(accepted, true)))
  {
    var reply := Reply(accepted, true);
    var n := BroadcastsClaim(w, s, acts, m, t, terms, preimage, fee, tx, reply);
    n := PersistsClaim(w, s, acts + [BroadcastClaim(t, reply)], n, t, terms, TxidOf(w.c, tx));
    TaskTwice(s.tasks, t, ClaimRead(terms, preimage, fee), ClaimSent(terms, TxidOf(w.c, tx)));
    TaskGone(s.tasks, t, ClaimSent(terms, TxidOf(w.c, tx)));
    assert n == AfterClaim(w, s, Done(SendClaim(tx)), terms.swapId, reply);
  }

  /** One whose reply gets lost is not. */
  lemma LosesClaim(w: World, s: State, acts: seq<Action>, m: State, t: TaskId, terms: SwapTerms, preimage: Hash32,
                   fee: u64, tx: Tx, accepted: bool)
    requires t !in s.tasks && s.walletLock.None?
    requires m == s.(tasks := s.tasks[t := ClaimRead(terms, preimage, fee)]) && Leads(w, s, acts, m)
    requires ClaimFor(w, s.cfg, terms, preimage, fee) == Ok(tx)
    requires ReplyPossible(w.c, s.chain, tx, Reply(accepted, false))
    ensures Leads(w, s, acts + [BroadcastClaim(t, Reply(accepted, false))],
                  AfterClaim(w, s, Done(SendClaim(tx)), terms.swapId, Reply(accepted, false)))
  {
    var reply := Reply(accepted, false);
    var n := BroadcastsClaim(w, s, acts, m, t, terms, preimage, fee, tx, reply);
    TaskGone(s.tasks, t, ClaimRead(terms, preimage, fee));
    assert n == AfterClaim(w, s, Done(SendClaim(tx)), terms.swapId, reply);
  }

  lemma SendsClaim(w: World, s: State, t: TaskId, role: CallerRole, swapId: Id, feeRequest: u64, tx: Tx, reply: Reply)
    requires t !in s.tasks && !Blank(swapId) && s.walletLock.None?
    requires swapId in s.swaps && s.swaps[swapId].terms.swapId == swapId
    requires ClaimDecision(w, s.cfg, s.swaps, Some(role), swapId, feeRequest, true) == Done(SendClaim(tx))
    requires ReplyPossible(w.c, s.chain, tx, reply)
    ensures var plan := Done(SendClaim(tx));
            Leads(w, s, ClaimActs(plan, t, role, swapId, feeRequest, reply), AfterClaim(w, s, plan, swapId, reply))
  {
    BeginsClaim(w, s, t, role, swapId, feeRequest, tx);
    var begin, m := [BeginClaim(t, swapId, role, feeRequest)], Claiming(s, t, swapId, feeRequest);
    var r := s.swaps[swapId];
    if reply.reported {
      RecordsClaim(w, s, begin, m, t, r.terms, r.lnPreimage.value, ClaimFee(feeRequest), tx, reply.accepted);
    } else {
      LosesClaim(w, s, begin, m, t, r.terms, r.lnPreimage.value, ClaimFee(feeRequest), tx, reply.accepted);
    }
  }

  /**
   Whatever the network answers: the call's actions lead to the table and the chain it
   leaves. A refused or repeated call, or one that cannot build its claim, takes no action.
   */
  lemma ClaimTakesSteps(w: World, s: State, t: TaskId, role: CallerRole, swapId: Id, feeRequest: u64, synced: bool,
                        reply: Reply)
    requires t !in s.tasks && s.walletLock.None?
    requires swapId in s.swaps ==> s.swaps[swapId].terms.swapId == swapId
    requires var plan := ClaimDecision(w, s.cfg, s.swaps, Some(role), swapId, feeRequest, synced);
             plan.Done? && plan.value.SendClaim? ==> ReplyPossible(w.c, s.chain, plan.value.tx, reply)
    ensures var plan := ClaimDecision(w, s.cfg, s.swaps, Some(role), swapId, feeRequest, synced);
            Leads(w, s, ClaimActs(plan, t, role, swapId, feeRequest, reply), AfterClaim(w, s, plan, swapId, reply))
  {
    match ClaimDecision(w, s.cfg, s.swaps, Some(role), swapId, feeRequest, synced)
    case Done(SendClaim(tx)) => SendsClaim(w, s, t, role, swapId, feeRequest, tx, reply);
    case _ => LeadsNowhere(w, s);
  }
}
