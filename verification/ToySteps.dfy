/**
 Runs in the toy world, built one step at a time.
 */
module ToySteps {
  import opened Types
  import opened Transaction
  import opened Chain
  import opened Funding
  import opened Records
  import opened Store
  import opened Protocol
  import opened ToyWorld
  import Safety
  import Serial

  // ----- runs, one step at a time

  /** A run under construction. */
  datatype Trace = Trace(run: seq<State>, acts: seq<Action>)

  ghost predicate Reached(w: World, tr: Trace, s: State) {
    IsRun(w, tr.run, tr.acts) && tr.run[|tr.run| - 1] == s
  }

  /** No state of the run has two tasks. */
  predicate OneTaskEach(run: seq<State>) {
    forall i :: 0 <= i < |run| ==> Serial.OneTask(run[i])
  }

  /** `later` goes on from `tr` to `n`. */
  predicate Longer(tr: Trace, later: Trace, n: State) {
    && tr.run <= later.run && |later.run| == |tr.run| + 1
    && (OneTaskEach(tr.run) && Serial.OneTask(n) ==> OneTaskEach(later.run))
  }

  lemma Continue(w: World, tr: Trace, s: State, a: Action, n: State) returns (later: Trace)
    requires Reached(w, tr, s) && Takes(w, s, a, n)
    ensures Reached(w, later, n) && Longer(tr, later, n) && later.acts == tr.acts + [a]
  {
    later := Trace(tr.run + [n], tr.acts + [a]);
    Safety.PathSnoc(w, tr.run, tr.acts, a, n);
  }

  lemma DoBeginCreate(w: World, b: Hash20, tr: Trace, s: State, t: TaskId, id: Id, d: SwapDirection := LnToLiquid)
    returns (later: Trace, n: State)
    requires Toy(w) && Reached(w, tr, s) && s.cfg == CFG && t !in s.tasks && FreshSwapId(s, id)
    requires QuoteId(d) in s.quotes && s.quotes[QuoteId(d)] == Quote(w, d)
    ensures Reached(w, later, n) && Longer(tr, later, n) && n == s.(tasks := s.tasks[t := Reading(w, b, id, d)])
  {
    HomeKeyHash(b);
    n := s.(tasks := s.tasks[t := Reading(w, b, id, d)]);
    later := Continue(w, tr, s, BeginCreate(t, QuoteId(d), id, Home(b), [], Some(1), Hash(w)), n);
  }

  /** What a funding leaves that the network has taken; its reply may be lost, and then the call is over. */
  lemma FundLeads(w: World, b: Hash20, s: State, t: TaskId, id: Id, version: byte, coin: u32, reported: bool,
                  d: SwapDirection := LnToLiquid) returns (n: State)
    requires Toy(w) && s.cfg == CFG && s.walletLock.None? && t in s.tasks && s.tasks[t] == Reading(w, b, id, d)
    ensures n == ApplyFund(w, s, FundAction(w, b, t, version, coin, reported, d))
    ensures n == s.(chain := Accept(w.c, s.chain, FundingTx(w, b, version, coin, d)),
                    signed := s.signed[Strip(FundingTx(w, b, version, coin, d)) := None],
                    funded := s.funded[id := FundedHtlc(Terms(w, b, id, version, d), 0, 0, 0)],
                    walletLock := if reported then Some(t) else None,
                    tasks := if reported then s.tasks[t := CreateFunded(NewRecord(Terms(w, b, id, version, d)))]
                             else s.tasks - {t})
  {
    FundTermsAre(w, b, s, t, id, version, coin, reported, d);
    n := ApplyFund(w, s, FundAction(w, b, t, version, coin, reported, d));
  }

  lemma FundTakes(w: World, s: State, a: Action)
    requires a.Fund? && FundEnabled(w, s, a)
    ensures Takes(w, s, a, ApplyFund(w, s, a))
  {
  }

  lemma DoFund(w: World, b: Hash20, tr: Trace, s: State, t: TaskId, id: Id, version: byte, coin: u32,
               d: SwapDirection := LnToLiquid)
    returns (later: Trace, n: State)
    requires Toy(w) && Reached(w, tr, s) && s.cfg == CFG && s.walletLock.None?
    requires t in s.tasks && s.tasks[t] == Reading(w, b, id, d)
    requires CoinThere(s.chain, coin) && [version] !in s.chain.txs
    ensures Reached(w, later, n) && Longer(tr, later, n)
    ensures n == s.(chain := Accept(w.c, s.chain, FundingTx(w, b, version, coin, d)),
                    signed := s.signed[Strip(FundingTx(w, b, version, coin, d)) := None],
                    funded := s.funded[id := FundedHtlc(Terms(w, b, id, version, d), 0, 0, 0)],
                    walletLock := Some(t),
                    tasks := s.tasks[t := CreateFunded(NewRecord(Terms(w, b, id, version, d)))])
  {
    var a := FundAction(w, b, t, version, coin, true, d);
    FundIsEnabled(w, b, s, t, id, version, coin, true, d);
    FundTakes(w, s, a);
    n := FundLeads(w, b, s, t, id, version, coin, true, d);
    later := Continue(w, tr, s, a, n);
  }

  lemma DoInsert(w: World, tr: Trace, s: State, t: TaskId, r: SwapRecord) returns (later: Trace, n: State)
    requires Reached(w, tr, s) && t in s.tasks && s.tasks[t] == CreateFunded(r)
    requires SwapStorable(r) && r.terms.swapId !in s.swaps
    ensures Reached(w, later, n) && Longer(tr, later, n)
    ensures n == s.(swaps := s.swaps[r.terms.swapId := r],
                    tasks := s.tasks[t := CreateInserted(r.terms.swapId, r.terms.quoteId)])
  {
    n := s.(swaps := s.swaps[r.terms.swapId := r],
            tasks := s.tasks[t := CreateInserted(r.terms.swapId, r.terms.quoteId)]);
    later := Continue(w, tr, s, Insert(t), n);
  }

  lemma DoLink(w: World, tr: Trace, s: State, t: TaskId, id: Id, qid: Id) returns (later: Trace, n: State)
    requires Reached(w, tr, s) && t in s.tasks && s.tasks[t] == CreateInserted(id, qid) && qid in s.quotes
             && id in s.swaps
    ensures Reached(w, later, n) && Longer(tr, later, n)
    ensures n == s.(quotes := s.quotes[qid := s.quotes[qid].(swapId := Some(id))],
                    tasks := s.tasks[t := CreateWait(s.swaps[id].terms)], walletLock := None)
  {
    n := s.(quotes := s.quotes[qid := s.quotes[qid].(swapId := Some(id))],
            tasks := s.tasks[t := CreateWait(s.swaps[id].terms)], walletLock := None);
    later := Continue(w, tr, s, Link(t), n);
  }

  lemma DoMarkFunded(w: World, tr: Trace, s: State, t: TaskId, terms: SwapTerms) returns (later: Trace, n: State)
    requires Reached(w, tr, s) && t in s.tasks && s.tasks[t] == CreateWait(terms) && terms.swapId in s.swaps
    requires s.walletLock != Some(t) && Confirmed(s.chain, terms.fundingTxid, 0, terms.minFundingConfs)
    ensures Reached(w, later, n) && Longer(tr, later, n)
    ensures n == s.(swaps := s.swaps[terms.swapId := s.swaps[terms.swapId].(status := SwapStatus.Funded)],
                    tasks := s.tasks - {t})
  {
    n := s.(swaps := s.swaps[terms.swapId := s.swaps[terms.swapId].(status := SwapStatus.Funded)],
            tasks := s.tasks - {t});
    later := Continue(w, tr, s, MarkFunded(t, 0), n);
  }

  lemma DoBeginRefund(w: World, tr: Trace, s: State, t: TaskId, todo: seq<SwapRecord>) returns (later: Trace, n: State)
    requires Reached(w, tr, s) && t !in s.tasks && s.walletLock.None? && IsListing(s.swaps, todo)
    ensures Reached(w, later, n) && Longer(tr, later, n)
            && n == s.(tasks := s.tasks[t := RefundPass(0, todo, 1)], walletLock := Some(t))
  {
    n := s.(tasks := s.tasks[t := RefundPass(0, todo, 1)], walletLock := Some(t));
    later := Continue(w, tr, s, BeginRefund(t, 0, todo, 1), n);
  }

  lemma DoRefundNext(w: World, tr: Trace, s: State, t: TaskId, r: SwapRecord, reported: bool)
    returns (later: Trace, n: State)
    requires Reached(w, tr, s) && t in s.tasks && s.tasks[t] == RefundPass(0, [r], 1) && RefundDue(r, 0)
    requires RefundFor(w, s.cfg, r.terms, 1).Ok? && Acceptable(w.c, s.chain, RefundFor(w, s.cfg, r.terms, 1).value)
    ensures Reached(w, later, n) && Longer(tr, later, n)
    ensures var tx := RefundFor(w, s.cfg, r.terms, 1).value;
            n == s.(chain := Accept(w.c, s.chain, tx), signed := s.signed[Strip(tx) := Some(r.terms.swapId)],
                    tasks := s.tasks[t := if reported then RefundSent(r.terms, 0, [], 1) else RefundPass(0, [], 1)])
  {
    assert [r][1..] == [];
    n := ApplyRefund(w, s, t, Reply(true, reported));
    later := Continue(w, tr, s, RefundNext(t, Reply(true, reported)), n);
  }

  lemma DoPersistRefund(w: World, tr: Trace, s: State, t: TaskId, terms: SwapTerms) returns (later: Trace, n: State)
    requires Reached(w, tr, s) && t in s.tasks && s.tasks[t] == RefundSent(terms, 0, [], 1) && terms.swapId in s.swaps
    ensures Reached(w, later, n) && Longer(tr, later, n)
    ensures n == s.(swaps := s.swaps[terms.swapId := s.swaps[terms.swapId].(status := Refunded)],
                    tasks := s.tasks[t := RefundPass(0, [], 1)])
  {
    n := s.(swaps := s.swaps[terms.swapId := s.swaps[terms.swapId].(status := Refunded)],
            tasks := s.tasks[t := RefundPass(0, [], 1)]);
    later := Continue(w, tr, s, PersistRefund(t), n);
  }

  lemma DoEndRefund(w: World, tr: Trace, s: State, t: TaskId) returns (later: Trace, n: State)
    requires Reached(w, tr, s) && t in s.tasks && s.tasks[t] == RefundPass(0, [], 1) && s.walletLock == Some(t)
    ensures Reached(w, later, n) && Longer(tr, later, n) && n == s.(tasks := s.tasks - {t}, walletLock := None)
  {
    n := s.(tasks := s.tasks - {t}, walletLock := None);
    later := Continue(w, tr, s, EndRefund(t), n);
  }

  lemma DoBeginPay(w: World, tr: Trace, s: State, t: TaskId, id: Id) returns (later: Trace, n: State)
    requires Reached(w, tr, s) && t !in s.tasks && id in s.swaps
    requires s.swaps[id].status.Funded? && s.swaps[id].lnPreimage.None?
    ensures Reached(w, later, n) && Longer(tr, later, n) && n == s.(tasks := s.tasks[t := PayRead(s.swaps[id].terms)])
  {
    n := s.(tasks := s.tasks[t := PayRead(s.swaps[id].terms)]);
    later := Continue(w, tr, s, BeginPay(t, id, PartiesFor(s.swaps[id].terms.direction).lnPayer), n);
  }

  lemma DoPersistPayment(w: World, tr: Trace, s: State, t: TaskId, terms: SwapTerms, preimage: Hash32)
    returns (later: Trace, n: State)
    requires Reached(w, tr, s) && t in s.tasks && s.tasks[t] == PayRead(terms) && terms.swapId in s.swaps
    requires s.walletLock != Some(t) && w.c.sha256(preimage) == terms.paymentHash
    ensures Reached(w, later, n) && Longer(tr, later, n)
    ensures var r := s.swaps[terms.swapId];
            n == s.(swaps := s.swaps[terms.swapId :=
                                       r.(lnPaymentId := Some([]), lnPreimage := Some(preimage), status := Paid)],
                    tasks := s.tasks - {t})
  {
    var r := s.swaps[terms.swapId];
    n := s.(swaps := s.swaps[terms.swapId := r.(lnPaymentId := Some([]), lnPreimage := Some(preimage), status := Paid)],
            tasks := s.tasks - {t});
    later := Continue(w, tr, s, PersistPayment(t, [], preimage), n);
  }

  /** Funding whose broadcast is accepted while the reply is lost: the call fails. */
  lemma DoLostFund(w: World, b: Hash20, tr: Trace, s: State, t: TaskId, id: Id, version: byte, coin: u32)
    returns (later: Trace, n: State)
    requires Toy(w) && Reached(w, tr, s) && s.cfg == CFG && s.walletLock.None?
    requires t in s.tasks && s.tasks[t] == Reading(w, b, id)
    requires CoinThere(s.chain, coin) && [version] !in s.chain.txs
    ensures Reached(w, later, n) && Longer(tr, later, n)
    ensures n == s.(chain := Accept(w.c, s.chain, FundingTx(w, b, version, coin)),
                    signed := s.signed[Strip(FundingTx(w, b, version, coin)) := None],
                    funded := s.funded[id := FundedHtlc(Terms(w, b, id, version), 0, 0, 0)],
                    tasks := s.tasks - {t})
  {
    var a := FundAction(w, b, t, version, coin, false);
    FundIsEnabled(w, b, s, t, id, version, coin, false);
    FundTakes(w, s, a);
    n := FundLeads(w, b, s, t, id, version, coin, false);
    later := Continue(w, tr, s, a, n);
  }

  lemma DoOtherTx(w: World, tr: Trace, s: State, tx: Tx) returns (later: Trace, n: State)
    requires Reached(w, tr, s) && Acceptable(w.c, s.chain, tx) && NoForgery(w, s, tx)
    ensures Reached(w, later, n) && Longer(tr, later, n) && n == s.(chain := Accept(w.c, s.chain, tx))
    ensures later.acts == tr.acts + [OtherTx(tx)]
  {
    n := s.(chain := Accept(w.c, s.chain, tx));
    later := Continue(w, tr, s, OtherTx(tx), n);
  }

  lemma DoBeginClaim(w: World, tr: Trace, s: State, t: TaskId, id: Id, preimage: Hash32)
    returns (later: Trace, n: State)
    requires Reached(w, tr, s) && t !in s.tasks && id in s.swaps
    requires s.swaps[id].claimTxid.None? && s.swaps[id].lnPreimage == Some(preimage)
    ensures Reached(w, later, n) && Longer(tr, later, n)
    ensures n == s.(tasks := s.tasks[t := ClaimRead(s.swaps[id].terms, preimage, 1)])
  {
    n := s.(tasks := s.tasks[t := ClaimRead(s.swaps[id].terms, preimage, 1)]);
    later := Continue(w, tr, s, BeginClaim(t, id, PartiesFor(s.swaps[id].terms.direction).liquidClaimer, 1), n);
  }

  lemma DoBroadcastClaim(w: World, tr: Trace, s: State, t: TaskId, terms: SwapTerms, preimage: Hash32, tx: Tx)
    returns (later: Trace, n: State)
    requires Reached(w, tr, s) && t in s.tasks && s.tasks[t] == ClaimRead(terms, preimage, 1) && s.walletLock.None?
    requires ClaimFor(w, s.cfg, terms, preimage, 1) == Ok(tx) && Acceptable(w.c, s.chain, tx)
    ensures Reached(w, later, n) && Longer(tr, later, n)
    ensures n == s.(chain := Accept(w.c, s.chain, tx), signed := s.signed[Strip(tx) := Some(terms.swapId)],
                    walletLock := Some(t), tasks := s.tasks[t := ClaimSent(terms, TxidOf(w.c, tx))])
  {
    n := ApplyClaim(w, s, t, Reply(true, true));
    later := Continue(w, tr, s, BroadcastClaim(t, Reply(true, true)), n);
  }

  lemma DoPersistClaim(w: World, tr: Trace, s: State, t: TaskId, terms: SwapTerms, txid: Txid)
    returns (later: Trace, n: State)
    requires Reached(w, tr, s) && t in s.tasks && s.tasks[t] == ClaimSent(terms, txid)
    requires terms.swapId in s.swaps && s.walletLock == Some(t)
    ensures Reached(w, later, n) && Longer(tr, later, n)
    ensures var r := s.swaps[terms.swapId];
            n == s.(swaps := s.swaps[terms.swapId := r.(claimTxid := Some(txid), status := Claimed)],
                    tasks := s.tasks - {t}, walletLock := None)
  {
    var r := s.swaps[terms.swapId];
    n := s.(swaps := s.swaps[terms.swapId := r.(claimTxid := Some(txid), status := Claimed)],
            tasks := s.tasks - {t}, walletLock := None);
    later := Continue(w, tr, s, PersistClaim(t), n);
  }
}
