/**
 Concrete runs from an empty store that show what does not hold: the status order and the
 single HTLC per quote, and atomicity on the chain when a reply is lost.
 */
module Interleavings {
  import opened Types
  import opened Transaction
  import opened Chain
  import opened Records
  import opened Protocol
  import opened Invariant
  import opened ToyWorld
  import opened ToySteps
  import opened ToyRuns
  import Safety
  import Serial

  // ----- what does not hold

  /**
   The status order fails under overlap: a refund recorded during the confirmation wait
   is overwritten by Funded, though the HTLC has been refunded on the chain.
   */
  lemma RefundedOverwritten() returns (w: World, tr: Trace)
    ensures WorldOk(w) && IsRun(w, tr.run, tr.acts) && |tr.run| >= 2
    ensures var s, n := tr.run[|tr.run| - 2], tr.run[|tr.run| - 1];
            && "s" in s.swaps && s.swaps["s"].status.Refunded?
            && "s" in n.swaps && n.swaps["s"].status.Funded? && RefundSpent(w, n.chain, n.swaps["s"].terms)
  {
    w := ToyExists();
    var b := ZEROS;
    var r := NewRecord(Terms(w, b, "s", 3));
    var s: State;
    tr, s := WaitingRun(w, b);
    var wait := s.tasks;
    tr, s := RefundSentRun(w, b, tr, s, r, true);
    tr, s := DoPersistRefund(w, tr, s, 1, r.terms);
    TaskTwice(wait, 1, RefundSent(r.terms, 0, [], 1), RefundPass(0, [], 1));
    tr, s := DoEndRefund(w, tr, s, 1);
    TaskGone(wait, 1, RefundPass(0, [], 1));
    StillConfirmed(w, b);
    tr, s := DoMarkFunded(w, tr, s, 0, r.terms);
    RefundedOnChain(w, b);
  }

  /** The last step of the run takes swap "s" from one status to the other. */
  predicate LastStepTakes(tr: Trace, a: SwapStatus, b: SwapStatus) {
    && |tr.run| >= 2
    && var s, n := tr.run[|tr.run| - 2], tr.run[|tr.run| - 1];
       "s" in s.swaps && s.swaps["s"].status == a && "s" in n.swaps && n.swaps["s"].status == b
  }

  /** A payment that began before a refund was recorded overwrites it. */
  lemma RefundedOverwrittenByPaid() returns (w: World, tr: Trace)
    ensures WorldOk(w) && IsRun(w, tr.run, tr.acts) && LastStepTakes(tr, Refunded, Paid)
  {
    w := ToyExists();
    var r := NewRecord(Terms(w, ZEROS, "s", 3)).(status := SwapStatus.Funded);
    var s: State;
    tr, s := FundedRun(w, ZEROS);
    tr, s := DoBeginPay(w, tr, s, 2, "s");
    var paying := s.tasks;
    tr, s := RefundSentRun(w, ZEROS, tr, s, r, true);
    tr, s := DoPersistRefund(w, tr, s, 1, r.terms);
    TaskTwice(paying, 1, RefundSent(r.terms, 0, [], 1), RefundPass(0, [], 1));
    tr, s := DoPersistPayment(w, tr, s, 2, r.terms, PREIMAGE);
  }

  /** A refund that went out before a payment was stored overwrites it. */
  lemma PaidOverwrittenByRefunded() returns (w: World, tr: Trace)
    ensures WorldOk(w) && IsRun(w, tr.run, tr.acts) && LastStepTakes(tr, Paid, Refunded)
  {
    w := ToyExists();
    var r := NewRecord(Terms(w, ZEROS, "s", 3)).(status := SwapStatus.Funded);
    var s: State;
    tr, s := FundedRun(w, ZEROS);
    tr, s := DoBeginPay(w, tr, s, 2, "s");
    tr, s := RefundSentRun(w, ZEROS, tr, s, r, true);
    tr, s := DoPersistPayment(w, tr, s, 2, r.terms, PREIMAGE);
    tr, s := DoPersistRefund(w, tr, s, 1, r.terms);
  }

  /** Two payment calls have begun, and one of them is done. */
  lemma SecondPayerRun(w: World) returns (tr: Trace, s: State)
    requires Toy(w)
    ensures Reached(w, tr, s) && s.cfg == CFG && s.walletLock.None? && s.chain == FundedChain(w, ZEROS)
    ensures s.tasks == map[3 := PayRead(Terms(w, ZEROS, "s", 3))]
    ensures "s" in s.swaps && s.swaps["s"].terms == Terms(w, ZEROS, "s", 3)
    ensures s.swaps["s"].claimTxid.None? && s.swaps["s"].lnPreimage == Some(PREIMAGE)
  {
    tr, s := FundedRun(w, ZEROS);
    tr, s := DoBeginPay(w, tr, s, 2, "s");
    tr, s := DoBeginPay(w, tr, s, 3, "s");
    tr, s := DoPersistPayment(w, tr, s, 2, Terms(w, ZEROS, "s", 3), PREIMAGE);
  }

  /** A second payment call overwrites a claim. */
  lemma ClaimedOverwrittenByPaid() returns (w: World, tr: Trace)
    ensures WorldOk(w) && IsRun(w, tr.run, tr.acts) && LastStepTakes(tr, Claimed, Paid)
  {
    w := ToyExists();
    var s: State;
    var t := Terms(w, ZEROS, "s", 3);
    tr, s := SecondPayerRun(w);
    var tx := ClaimIsAcceptable(w);
    var paying := s.tasks;
    tr, s := DoBeginClaim(w, tr, s, 4, "s", PREIMAGE);
    tr, s := DoBroadcastClaim(w, tr, s, 4, t, PREIMAGE, tx);
    TaskTwice(paying, 4, ClaimRead(t, PREIMAGE, 1), ClaimSent(t, TxidOf(w.c, tx)));
    tr, s := DoPersistClaim(w, tr, s, 4, t, TxidOf(w.c, tx));
    TaskGone(paying, 4, ClaimSent(t, TxidOf(w.c, tx)));
    tr, s := DoPersistPayment(w, tr, s, 3, t, PREIMAGE);
  }

  /** Two create_swap calls have read the quote. */
  lemma TwoReadersRun(w: World, b: Hash20) returns (tr: Trace, s: State)
    requires Toy(w)
    ensures Reached(w, tr, s)
    ensures s == Start().(quotes := map["q" := Quote(w)],
                          tasks := map[0 := Reading(w, b, "s"), 1 := Reading(w, b, "t")])
  {
    tr, s := QuotedRun(w);
    tr, s := DoBeginCreate(w, b, tr, s, 0, "s");
    tr, s := DoBeginCreate(w, b, tr, s, 1, "t");
  }

  /** One of them has funded and linked its swap. */
  lemma FirstLinkedRun(w: World, b: Hash20) returns (tr: Trace, s: State)
    requires Toy(w)
    ensures Reached(w, tr, s) && s.cfg == CFG && s.walletLock.None?
    ensures "q" in s.quotes && s.quotes["q"].swapId == Some("s") && "t" !in s.swaps
    ensures "s" in s.funded && s.funded["s"].terms == Terms(w, b, "s", 3)
    ensures 1 in s.tasks && s.tasks[1] == Reading(w, b, "t") && s.chain == FundedChain(w, b)
  {
    tr, s := TwoReadersRun(w, b);
    tr, s := LinkedRun(w, b, tr, s, 0, "s", 3, 0);
    FundedChainIs(w, b);
  }

  lemma SecondCoinThere(w: World, b: Hash20)
    requires Toy(w)
    ensures CoinThere(FundedChain(w, b), 1) && [5] !in FundedChain(w, b).txs
  {
  }

  /**
   One link per quote fails under overlap: two create_swap calls both find the quote
   unlinked, both fund an HTLC for it, and the second link replaces the first.
   */
  lemma QuoteFundedTwice() returns (w: World, tr: Trace, i: nat)
    ensures WorldOk(w) && IsRun(w, tr.run, tr.acts) && i < |tr.run|
    ensures var s, n := tr.run[i], tr.run[|tr.run| - 1];
            && "q" in s.quotes && s.quotes["q"].swapId == Some("s")
            && "q" in n.quotes && n.quotes["q"].swapId == Some("t")
            && "s" in n.funded && n.funded["s"].terms.quoteId == "q"
            && "t" in n.funded && n.funded["t"].terms.quoteId == "q"
  {
    w := ToyExists();
    var b := ZEROS;
    var s: State;
    tr, s := FirstLinkedRun(w, b);
    i := |tr.run| - 1;
    SecondCoinThere(w, b);
    tr, s := LinkedRun(w, b, tr, s, 1, "t", 5, 1);
  }

  /**
   Atomicity fails on the chain even with one task at a time: a refund whose reply is lost
   leaves the swap Funded, and the server then pays the invoice.
   */
  lemma PaidAfterLostRefund() returns (w: World, tr: Trace)
    ensures WorldOk(w) && Serial.IsSerialRun(w, tr.run, tr.acts)
    ensures var n := tr.run[|tr.run| - 1];
            && "s" in n.swaps && n.swaps["s"].status.Paid? && n.swaps["s"].lnPreimage.Some?
            && RefundSpent(w, n.chain, n.swaps["s"].terms)
  {
    w := ToyExists();
    var b := ZEROS;
    var r := NewRecord(Terms(w, b, "s", 3));
    var s: State;
    tr, s := WaitingRun(w, b);
    StillConfirmed(w, b);
    tr, s := DoMarkFunded(w, tr, s, 0, r.terms);
    assert s.tasks == map[];
    OneKey(s, 0);
    tr, s := RefundSentRun(w, b, tr, s, r.(status := SwapStatus.Funded), false);
    tr, s := DoEndRefund(w, tr, s, 1);
    OneKey(s, 1);
    tr, s := PaidRun(w, tr, s, "s");
    RefundedOnChain(w, b);
  }

  /**
   One HTLC per quote fails even with one task at a time: the reply to a funding is lost,
   and a second call funds the quote again. The first HTLC has no record.
   */
  lemma QuoteFundedTwiceSerially() returns (w: World, tr: Trace)
    ensures WorldOk(w) && Serial.IsSerialRun(w, tr.run, tr.acts)
    ensures var n := tr.run[|tr.run| - 1];
            && "s" in n.funded && n.funded["s"].terms.quoteId == "q" && "s" !in n.swaps
            && "t" in n.funded && n.funded["t"].terms.quoteId == "q"
  {
    w := ToyExists();
    var b := ZEROS;
    var s: State;
    tr, s := LoneReaderRun(w, b);
    tr, s := DoLostFund(w, b, tr, s, 0, "s", 3, 0);
    FundedChainIs(w, b);
    SecondCoinThere(w, b);
    OneKey(s, 0);
    tr, s := DoBeginCreate(w, b, tr, s, 1, "t");
    OneKey(s, 1);
    tr, s := DoFund(w, b, tr, s, 1, "t", 5, 1);
    OneKey(s, 1);
  }

  /**
   The spends of an HTLC are the wallet's own only if it holds both keys: an outside
   buyer claims with the preimage and its own key, and the server has signed nothing.
   */
  lemma OutsiderClaims() returns (w: World, tr: Trace, tx: Tx)
    ensures WorldOk(w) && IsRun(w, tr.run, tr.acts) && |tr.run| >= 2 && tr.acts[|tr.acts| - 1] == OtherTx(tx)
    ensures Strip(tx) !in tr.run[|tr.run| - 2].signed
    ensures var n := tr.run[|tr.run| - 1];
            && "s" in n.funded && !BothKeysOwned(w, n.funded["s"])
            && SpentTogether(n.chain, n.funded["s"].terms, TxidOf(w.c, tx))
            && !Safety.UnspentOrSpentOnce(w, n, "s")
  {
    w := OutsiderExists();
    tx := OutsideClaim(w);
    var s: State;
    tr, s := WaitingRun(w, ONES);
    OutsideClaimAcceptable(w);
    OutsideClaimForgesNothing(w, s);
    OutsideClaimIsNew(w, s);
    tr, s := DoOtherTx(w, tr, s, tx);
    OutsideClaimLands(w);
    OutsiderHoldsKey(w);
    OutsideSpendIsForeign(w, s);
  }

  lemma OutsideClaimIsNew(w: World, s: State)
    requires Toy(w) && s.signed.Keys == {Strip(FundingTx(w, ONES, 3, 0))}
    ensures Strip(OutsideClaim(w)) !in s.signed
  {
    OutsideClaimSpends(w);
    assert Strip(OutsideClaim(w)) !in s.signed.Keys;
  }

  lemma OutsideClaimLands(w: World)
    requires Toy(w) && Acceptable(w.c, FundedChain(w, ONES), OutsideClaim(w))
    ensures SpentTogether(Accept(w.c, FundedChain(w, ONES), OutsideClaim(w)), Terms(w, ONES, "s", 3),
                          TxidOf(w.c, OutsideClaim(w)))
  {
    OutsideClaimSpends(w);
    AcceptSpends(w.c, FundedChain(w, ONES), OutsideClaim(w));
  }

  lemma OutsiderHoldsKey(w: World)
    requires Toy(w)
    ensures !BothKeysOwned(w, TheHtlc(w, ONES))
  {
    HomeKeyHash(ONES);
    HomeKeyHash(ZEROS);
    assert ONES[0] != ZEROS[0];
  }

  /** Spent, but by no claim whose preimage the server has, and by no refund. */
  lemma OutsideSpendIsForeign(w: World, s: State)
    requires Toy(w) && "s" in s.funded && s.funded["s"] == TheHtlc(w, ONES)
    requires "s" in s.swaps && s.swaps["s"].lnPreimage.None?
    requires s.chain == Accept(w.c, FundedChain(w, ONES), OutsideClaim(w))
    requires SpentTogether(s.chain, Terms(w, ONES, "s", 3), TxidOf(w.c, OutsideClaim(w)))
    ensures !Safety.UnspentOrSpentOnce(w, s, "s")
  {
    OutsideClaimSpends(w);
    assert Strip(OutsideClaim(w)).inputs[0].sequence == OutsideClaim(w).inputs[0].sequence;
  }
}
