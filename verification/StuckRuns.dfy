/**
 A reachable table on which no refund pass ever gets to a swap that could be refunded.
 */
module StuckRuns {
  import opened Types
  import opened Chain
  import opened Records
  import opened Protocol
  import opened Wallet
  import opened RefundWorker
  import opened ToyWorld
  import opened ToySteps
  import opened ToyRuns

  /** The seller has quoted in both directions. */
  lemma BothQuotedRun(w: World) returns (tr: Trace, s: State)
    requires Toy(w)
    ensures Reached(w, tr, s)
    ensures s == Start().(quotes := map["q" := Quote(w), "p" := Quote(w, LiquidToLn)])
  {
    tr, s := QuotedRun(w);
    var n := s.(quotes := s.quotes["p" := Quote(w, LiquidToLn)]);
    tr := Continue(w, tr, s, CreateQuote(Quote(w, LiquidToLn)), n);
    s := n;
  }

  /** A LIQUID_TO_LN swap has been created for a buyer whose address is not the wallet's. */
  ghost function Stuck(w: World): SwapRecord
    requires Toy(w)
  {
    NewRecord(Terms(w, ONES, "a", 3, LiquidToLn))
  }

  /** And then a swap that the seller could have refunded. */
  ghost function Behind(w: World): SwapRecord
    requires Toy(w)
  {
    NewRecord(Terms(w, ZEROS, "b", 5))
  }

  lemma FirstCoinSpent(w: World)
    requires Toy(w)
    ensures var ch := Accept(w.c, Start().chain, FundingTx(w, ONES, 3, 0, LiquidToLn));
            CoinThere(ch, 1) && [5] !in ch.txs
  {
    FundingTxid(w, ONES, 3, 0, LiquidToLn);
    var tx := FundingTx(w, ONES, 3, 0, LiquidToLn);
    assert SpendAll(map[], tx.inputs[1..], [3]) == map[];
  }

  lemma StuckReader(w: World) returns (tr: Trace, s: State)
    requires Toy(w)
    ensures Reached(w, tr, s)
    ensures s == Start().(quotes := map["q" := Quote(w), "p" := Quote(w, LiquidToLn)],
                          tasks := map[0 := Reading(w, ONES, "a", LiquidToLn)])
  {
    tr, s := BothQuotedRun(w);
    tr, s := DoBeginCreate(w, ONES, tr, s, 0, "a", LiquidToLn);
  }

  lemma StuckCreated(w: World) returns (tr: Trace, s: State)
    requires Toy(w)
    ensures Reached(w, tr, s) && s.cfg == CFG && s.walletLock.None?
    ensures s.swaps == map["a" := Stuck(w)] && s.tasks.Keys == {0} && !s.tasks[0].CreateRead?
    ensures "q" in s.quotes && s.quotes["q"] == Quote(w) && s.funded.Keys == {"a"}
    ensures CoinThere(s.chain, 1) && [5] !in s.chain.txs
  {
    tr, s := StuckReader(w);
    tr, s := LinkedRun(w, ONES, tr, s, 0, "a", 3, 0, LiquidToLn);
    FirstCoinSpent(w);
  }

  lemma BehindCreated(w: World) returns (tr: Trace, s: State)
    requires Toy(w)
    ensures Reached(w, tr, s) && s.cfg == CFG && s.swaps == map["a" := Stuck(w), "b" := Behind(w)]
  {
    tr, s := StuckCreated(w);
    tr, s := DoBeginCreate(w, ZEROS, tr, s, 1, "b");
    tr, s := LinkedRun(w, ZEROS, tr, s, 1, "b", 5, 1);
  }

  lemma TwoListed(a: SwapRecord, b: SwapRecord)
    requires a.terms.swapId == "a" && b.terms.swapId == "b"
    ensures IsListing(map["a" := a, "b" := b], [a, b])
  {
    assert [a, b][0] == a && [a, b][1] == b;
  }

  lemma BothDue(a: SwapRecord, b: SwapRecord, tip: u32)
    requires RefundDue(a, tip) && RefundDue(b, tip)
    ensures DueSwaps([a, b], tip) == [a, b]
  {
    DueSnoc([], a, tip);
    DueSnoc([a], b, tip);
    assert [] + [a] == [a] && [a] + [b] == [a, b];
  }

  /** A pass stops at a first due swap that it cannot refund. */
  lemma FirstStops(p: Pass, listed: seq<SwapRecord>, sent: seq<Broadcast>, swaps: map<Id, SwapRecord>, ok: bool)
    requires PassResult(p, listed, sent, swaps, ok) && DueSwaps(listed, p.tip) != []
    requires !Refundable(p, DueSwaps(listed, p.tip)[0].terms)
    ensures sent == [] && swaps == p.table && !ok
  {
    DueTriedIff(p, listed, sent, swaps, ok, 0);
  }

  lemma ForeignIsNotHome()
    ensures Home(ONES) != Home(ZEROS)
  {
    assert Home(ONES).script[2] == 1 && Home(ZEROS).script[2] == 0;
  }

  /** No pass over the table sends or changes anything, though the second swap could be refunded. */
  ghost predicate Blocked(w: World, s: State, listed: seq<SwapRecord>)
    requires |listed| == 2
  {
    forall fee: u64, tip: u32 :: BlockedPass(Pass(w, s.cfg, fee, tip, s.swaps), listed)
  }

  ghost predicate BlockedPass(p: Pass, listed: seq<SwapRecord>)
    requires |listed| == 2
  {
    && DueSwaps(listed, p.tip) == listed
    && (p.fee < listed[1].terms.feeSubsidy ==> Refundable(p, listed[1].terms))
    && forall sent, swaps, ok :: PassResult(p, listed, sent, swaps, ok) ==> sent == [] && swaps == p.table && !ok
  }

  lemma StuckBlocks(w: World, p: Pass)
    requires Toy(w) && p.w == w && p.cfg == CFG
    ensures BlockedPass(p, [Stuck(w), Behind(w)])
  {
    ForeignIsNotHome();
    BothDue(Stuck(w), Behind(w), p.tip);
    forall sent, swaps, ok | PassResult(p, [Stuck(w), Behind(w)], sent, swaps, ok)
      ensures sent == [] && swaps == p.table && !ok
    {
      FirstStops(p, [Stuck(w), Behind(w)], sent, swaps, ok);
    }
  }

  /**
   One swap of a buyer with an own address, as create_swap takes it, stops every pass before
   all later ids: in a reachable state two swaps are due, the second could be refunded, and
   no pass gets to it.
   */
  lemma StuckPass() returns (w: World, tr: Trace, s: State, listed: seq<SwapRecord>)
    ensures WorldOk(w) && Reached(w, tr, s) && IsListing(s.swaps, listed) && |listed| == 2 && Blocked(w, s, listed)
    ensures listed[0].terms.direction == LiquidToLn && listed[0].terms.buyerAddress != w.addressAt(s.cfg.buyerKeyIndex)
  {
    w := ToyExists();
    tr, s := BehindCreated(w);
    listed := [Stuck(w), Behind(w)];
    TwoListed(Stuck(w), Behind(w));
    ForeignIsNotHome();
    forall fee: u64, tip: u32
      ensures BlockedPass(Pass(w, s.cfg, fee, tip, s.swaps), listed)
    {
      StuckBlocks(w, Pass(w, s.cfg, fee, tip, s.swaps));
    }
  }
}
