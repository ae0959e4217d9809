/**
 Stretches of runs in the toy world: a swap created, funded, paid, claimed and refunded.
 */
module ToyRuns {
  import opened Types
  import opened Interpreter
  import opened HtlcScript
  import opened Script
  import opened Transaction
  import opened HtlcSpend
  import opened Chain
  import opened Funding
  import opened Records
  import opened Store
  import opened Protocol
  import opened Invariant
  import opened ToyWorld
  import opened ToySteps
  import InvariantTask
  import Liveness
  import Serial

  // ----- a swap created, up to the confirmation wait

  ghost function Start(): State {
    State(CFG, map[], map[], Chain(map[[4] := COIN], map[], map[], 0), None, map[], map[], map[])
  }

  lemma StartIsInitial(w: World)
    requires Toy(w)
    ensures Initial(w, Start())
  {
    assert Strip(COIN).version == 4;
  }

  /** The seller has quoted. */
  lemma QuotedRun(w: World) returns (tr: Trace, s: State)
    requires Toy(w)
    ensures Reached(w, tr, s) && s == Start().(quotes := map["q" := Quote(w)]) && OneTaskEach(tr.run)
  {
    StartIsInitial(w);
    tr := Trace([Start()], []);
    s := Start().(quotes := map["q" := Quote(w)]);
    tr := Continue(w, tr, Start(), CreateQuote(Quote(w)), s);
  }

  /** The first funding, from coin 0, has txid [3]. */
  ghost function FundedChain(w: World, b: Hash20): Chain
    requires Toy(w)
  {
    Chain(map[[4] := COIN, [3] := FundingTx(w, b, 3, 0)], map[OutPoint([4], 0) := [3]], map[], 0)
  }

  lemma FundedChainIs(w: World, b: Hash20)
    requires Toy(w)
    ensures Accept(w.c, Start().chain, FundingTx(w, b, 3, 0)) == FundedChain(w, b)
  {
    FundingTxid(w, b, 3, 0);
    var tx := FundingTx(w, b, 3, 0);
    assert SpendAll(map[], tx.inputs[1..], [3]) == map[];
    assert map[[4] := COIN][[3] := tx] == map[[4] := COIN, [3] := tx];
  }

  lemma SetOnly(t: TaskId, k: Task, later: Task)
    ensures map[t := k][t := later] == map[t := later]
  {
  }

  lemma OneKey(s: State, t: TaskId)
    requires s.tasks.Keys <= {t}
    ensures Serial.OneTask(s)
  {
    assert forall u :: u in s.tasks ==> u in s.tasks.Keys;
  }

  /** Task `t` stores and links the swap it has funded. */
  lemma StoredRun(w: World, tr: Trace, s: State, t: TaskId, r: SwapRecord) returns (later: Trace, n: State)
    requires Reached(w, tr, s) && t in s.tasks && s.tasks[t] == CreateFunded(r) && SwapStorable(r)
    requires r.terms.swapId !in s.swaps && r.terms.quoteId in s.quotes
    ensures Reached(w, later, n) && tr.run <= later.run
    ensures n == s.(quotes := s.quotes[r.terms.quoteId := s.quotes[r.terms.quoteId].(swapId := Some(r.terms.swapId))],
                    swaps := s.swaps[r.terms.swapId := r],
                    tasks := s.tasks[t := CreateWait(r.terms)], walletLock := None)
    ensures OneTaskEach(tr.run) && s.tasks.Keys == {t} ==> OneTaskEach(later.run)
  {
    var m: State;
    var mid: Trace;
    mid, m := DoInsert(w, tr, s, t, r);
    later, n := DoLink(w, mid, m, t, r.terms.swapId, r.terms.quoteId);
    if s.tasks.Keys == {t} {
      OneKey(m, t);
      OneKey(n, t);
    }
    TaskTwice(s.tasks, t, CreateInserted(r.terms.swapId, r.terms.quoteId), CreateWait(r.terms));
  }

  /** Task `t` funds, stores and links a swap, whatever else is under way. */
  lemma LinkedRun(w: World, b: Hash20, tr: Trace, s: State, t: TaskId, id: Id, version: byte, coin: u32,
                  d: SwapDirection := LnToLiquid)
    returns (later: Trace, n: State)
    requires Toy(w) && Reached(w, tr, s) && s.cfg == CFG && s.walletLock.None?
    requires id !in s.swaps && QuoteId(d) in s.quotes
    requires t in s.tasks && s.tasks[t] == Reading(w, b, id, d) && CoinThere(s.chain, coin) && [version] !in s.chain.txs
    ensures Reached(w, later, n) && tr.run <= later.run
    ensures n == s.(quotes := s.quotes[QuoteId(d) := s.quotes[QuoteId(d)].(swapId := Some(id))],
                    swaps := s.swaps[id := NewRecord(Terms(w, b, id, version, d))],
                    chain := Accept(w.c, s.chain, FundingTx(w, b, version, coin, d)),
                    signed := s.signed[Strip(FundingTx(w, b, version, coin, d)) := None],
                    funded := s.funded[id := FundedHtlc(Terms(w, b, id, version, d), 0, 0, 0)],
                    tasks := s.tasks[t := CreateWait(Terms(w, b, id, version, d))])
  {
    var r := NewRecord(Terms(w, b, id, version, d));
    var m: State;
    var mid: Trace;
    mid, m := DoFund(w, b, tr, s, t, id, version, coin, d);
    later, n := StoredRun(w, mid, m, t, r);
    TaskTwice(s.tasks, t, CreateFunded(r), CreateWait(r.terms));
  }

  /** One create_swap call has read the quote. */
  lemma LoneReaderRun(w: World, b: Hash20) returns (tr: Trace, s: State)
    requires Toy(w)
    ensures Reached(w, tr, s) && OneTaskEach(tr.run)
    ensures s == Start().(quotes := map["q" := Quote(w)], tasks := map[0 := Reading(w, b, "s")])
  {
    tr, s := QuotedRun(w);
    tr, s := DoBeginCreate(w, b, tr, s, 0, "s");
    assert s.tasks == map[0 := Reading(w, b, "s")];
    OneKey(s, 0);
  }

  /** And has funded the HTLC. */
  lemma LoneFunderRun(w: World, b: Hash20) returns (tr: Trace, s: State)
    requires Toy(w)
    ensures Reached(w, tr, s) && OneTaskEach(tr.run)
    ensures s.cfg == CFG && s.chain == FundedChain(w, b) && s.swaps == map[] && "q" in s.quotes
    ensures s.tasks == map[0 := CreateFunded(NewRecord(Terms(w, b, "s", 3)))]
    ensures s.signed.Keys == {Strip(FundingTx(w, b, 3, 0))} && "s" in s.funded && s.funded["s"] == TheHtlc(w, b)
  {
    tr, s := LoneReaderRun(w, b);
    tr, s := DoFund(w, b, tr, s, 0, "s", 3, 0);
    FundedChainIs(w, b);
    SetOnly(0, Reading(w, b, "s"), CreateFunded(NewRecord(Terms(w, b, "s", 3))));
    OneKey(s, 0);
  }

  /** One create_swap call, up to its confirmation wait. */
  lemma WaitingRun(w: World, b: Hash20) returns (tr: Trace, s: State)
    requires Toy(w)
    ensures Reached(w, tr, s) && OneTaskEach(tr.run)
    ensures s.cfg == CFG && s.walletLock.None? && s.chain == FundedChain(w, b)
    ensures s.swaps == map["s" := NewRecord(Terms(w, b, "s", 3))]
    ensures s.tasks == map[0 := CreateWait(Terms(w, b, "s", 3))]
    ensures s.signed.Keys == {Strip(FundingTx(w, b, 3, 0))} && "s" in s.funded && s.funded["s"] == TheHtlc(w, b)
  {
    tr, s := LoneFunderRun(w, b);
    tr, s := StoredRun(w, tr, s, 0, NewRecord(Terms(w, b, "s", 3)));
  }

  // ----- a refund of it

  lemma FundedChainValid(w: World, b: Hash20)
    requires Toy(w)
    ensures ChainValid(w.c, FundedChain(w, b))
  {
    FundedChainIs(w, b);
    FundingAcceptable(w, b, Start().chain, 3, 0);
    assert Strip(COIN).version == 4;
    AcceptKeepsValid(w.c, Start().chain, FundingTx(w, b, 3, 0));
  }

  ghost function TheHtlc(w: World, b: Hash20): FundedHtlc
    requires Toy(w)
  {
    FundedHtlc(Terms(w, b, "s", 3), 0, 0, 0)
  }

  lemma TheHtlcOk(w: World, b: Hash20)
    requires Toy(w)
    ensures HtlcOk(w, FundedChain(w, b), TheHtlc(w, b))
  {
    HomeKeyHash(b);
    HomeKeyHash(ZEROS);
    assert SpecOf(w, TheHtlc(w, b)) == Ok(HtlcSpec(Hash(w), b, ZEROS, 0));
  }

  lemma RefundBuilt(w: World, b: Hash20)
    requires Toy(w)
    ensures RefundFor(w, CFG, Terms(w, b, "s", 3), 1).Ok?
  {
  }

  ghost function RefundOf(w: World, b: Hash20): Tx
    requires Toy(w)
  {
    RefundBuilt(w, b);
    RefundFor(w, CFG, Terms(w, b, "s", 3), 1).value
  }

  lemma RefundBodyIs(w: World, b: Hash20)
    requires Toy(w)
    ensures IsRefundBody(w, Terms(w, b, "s", 3), Strip(RefundOf(w, b))) && TxidOf(w.c, RefundOf(w, b)) == [2]
    ensures |RefundOf(w, b).inputs| == 2
    ensures RefundOf(w, b).inputs[0].prev == OutPoint([3], 0) && RefundOf(w, b).inputs[1].prev == OutPoint([3], 1)
  {
    InvariantTask.RefundForBody(w, CFG, Terms(w, b, "s", 3), 1);
  }

  /** What acceptance of a spend needs of the chain. */
  ghost predicate ReadyToSpend(w: World, b: Hash20) {
    Toy(w) && ChainValid(w.c, FundedChain(w, b)) && HtlcOk(w, FundedChain(w, b), TheHtlc(w, b))
  }

  lemma ToyReady(w: World, b: Hash20)
    requires Toy(w)
    ensures ReadyToSpend(w, b)
  {
    FundedChainValid(w, b);
    TheHtlcOk(w, b);
  }

  lemma RefundIsNew(w: World, b: Hash20)
    requires Toy(w)
    ensures Liveness.NoTxidCollision(w.c, FundedChain(w, b), RefundOf(w, b))
  {
    RefundBodyIs(w, b);
  }

  lemma RefundAcceptable(w: World, b: Hash20)
    requires Toy(w)
    ensures Acceptable(w.c, FundedChain(w, b), RefundOf(w, b))
  {
    ToyReady(w, b);
    RefundIsNew(w, b);
    RefundAccepted(w, b);
  }

  lemma RefundAccepted(w: World, b: Hash20)
    requires ReadyToSpend(w, b) && Liveness.NoTxidCollision(w.c, FundedChain(w, b), RefundOf(w, b))
    ensures Acceptable(w.c, FundedChain(w, b), RefundOf(w, b))
  {
    Liveness.RefundGoesThroughIff(w, FundedChain(w, b), CFG, TheHtlc(w, b), 1);
  }

  ghost function RefundedChain(w: World, b: Hash20): Chain
    requires Toy(w)
  {
    Accept(w.c, FundedChain(w, b), RefundOf(w, b))
  }

  lemma RefundedOnChain(w: World, b: Hash20)
    requires Toy(w)
    ensures RefundSpent(w, RefundedChain(w, b), Terms(w, b, "s", 3))
  {
    RefundAcceptable(w, b);
    RefundBodyIs(w, b);
    AcceptSpends(w.c, FundedChain(w, b), RefundOf(w, b));
  }

  lemma ListingOfOne(r: SwapRecord)
    ensures IsListing(map[r.terms.swapId := r], [r])
  {
    assert [r][0].terms.swapId == r.terms.swapId;
  }

  /** A refund pass that reaches the chain; its reply may be lost. */
  lemma RefundBegunRun(w: World, tr: Trace, s: State, r: SwapRecord) returns (later: Trace, n: State)
    requires Reached(w, tr, s) && s.walletLock.None? && 1 !in s.tasks && s.swaps == map[r.terms.swapId := r]
    ensures Reached(w, later, n) && n == s.(tasks := s.tasks[1 := RefundPass(0, [r], 1)], walletLock := Some(1))
    ensures OneTaskEach(tr.run) && s.tasks == map[] ==> OneTaskEach(later.run)
  {
    ListingOfOne(r);
    later, n := DoBeginRefund(w, tr, s, 1, [r]);
  }

  lemma RefundSentRun(w: World, b: Hash20, tr: Trace, s: State, r: SwapRecord, reported: bool)
    returns (later: Trace, n: State)
    requires Toy(w) && Reached(w, tr, s) && s.cfg == CFG && s.walletLock.None? && 1 !in s.tasks
    requires s.chain == FundedChain(w, b) && s.swaps == map["s" := r]
    requires r.terms == Terms(w, b, "s", 3) && (r.status.Created? || r.status.Funded?)
    ensures Reached(w, later, n)
    ensures n.cfg == CFG && n.walletLock == Some(1) && n.chain == RefundedChain(w, b) && n.swaps == s.swaps
    ensures n.tasks == s.tasks[1 := if reported then RefundSent(r.terms, 0, [], 1) else RefundPass(0, [], 1)]
    ensures OneTaskEach(tr.run) && s.tasks == map[] ==> OneTaskEach(later.run)
  {
    RefundAcceptable(w, b);
    var m: State;
    var mid: Trace;
    mid, m := RefundBegunRun(w, tr, s, r);
    later, n := DoRefundNext(w, mid, m, 1, r, reported);
    TaskTwice(s.tasks, 1, RefundPass(0, [r], 1),
              if reported then RefundSent(r.terms, 0, [], 1) else RefundPass(0, [], 1));
  }

  /** The funding stays in the history, unmined: enough for a swap that asks for no confirmations. */
  lemma StillConfirmed(w: World, b: Hash20)
    requires Toy(w)
    ensures Confirmed(FundedChain(w, b), [3], 0, 0) && Confirmed(RefundedChain(w, b), [3], 0, 0)
  {
  }

  /** A payment call, alone. */
  lemma PaidRun(w: World, tr: Trace, s: State, id: Id) returns (later: Trace, n: State)
    requires Reached(w, tr, s) && OneTaskEach(tr.run) && s.tasks == map[] && s.walletLock.None?
    requires id in s.swaps && s.swaps[id].terms.swapId == id && s.swaps[id].status.Funded?
             && s.swaps[id].lnPreimage.None?
    requires w.c.sha256(PREIMAGE) == s.swaps[id].terms.paymentHash
    ensures Reached(w, later, n) && OneTaskEach(later.run)
    ensures id in n.swaps && n.swaps[id].terms == s.swaps[id].terms && n.chain == s.chain
    ensures n.swaps[id].status.Paid? && n.swaps[id].lnPreimage.Some?
  {
    later, n := DoBeginPay(w, tr, s, 2, id);
    OneKey(n, 2);
    later, n := DoPersistPayment(w, later, n, 2, s.swaps[id].terms, PREIMAGE);
    OneKey(n, 2);
  }

  /** The swap is Funded, and nothing is under way. */
  lemma FundedRun(w: World, b: Hash20) returns (tr: Trace, s: State)
    requires Toy(w)
    ensures Reached(w, tr, s) && OneTaskEach(tr.run)
    ensures s.cfg == CFG && s.walletLock.None? && s.chain == FundedChain(w, b) && s.tasks == map[]
    ensures s.swaps == map["s" := NewRecord(Terms(w, b, "s", 3)).(status := SwapStatus.Funded)]
  {
    tr, s := WaitingRun(w, b);
    StillConfirmed(w, b);
    tr, s := DoMarkFunded(w, tr, s, 0, Terms(w, b, "s", 3));
    OneKey(s, 0);
  }

  // ----- claims of it

  lemma ClaimIsBuilt(w: World) returns (tx: Tx)
    requires Toy(w)
    ensures ClaimFor(w, CFG, Terms(w, ZEROS, "s", 3), PREIMAGE, 1) == Ok(tx)
    ensures Liveness.NoTxidCollision(w.c, FundedChain(w, ZEROS), tx)
  {
    InvariantTask.ClaimForBody(w, CFG, Terms(w, ZEROS, "s", 3), PREIMAGE, 1);
    tx := ClaimFor(w, CFG, Terms(w, ZEROS, "s", 3), PREIMAGE, 1).value;
  }

  lemma ClaimIsAcceptable(w: World) returns (tx: Tx)
    requires Toy(w)
    ensures ClaimFor(w, CFG, Terms(w, ZEROS, "s", 3), PREIMAGE, 1) == Ok(tx)
    ensures Acceptable(w.c, FundedChain(w, ZEROS), tx)
  {
    ToyReady(w, ZEROS);
    tx := ClaimIsBuilt(w);
    ClaimAccepted(w, tx);
  }

  lemma ClaimAccepted(w: World, tx: Tx)
    requires ReadyToSpend(w, ZEROS) && ClaimFor(w, CFG, Terms(w, ZEROS, "s", 3), PREIMAGE, 1) == Ok(tx)
    requires Liveness.NoTxidCollision(w.c, FundedChain(w, ZEROS), tx)
    ensures Acceptable(w.c, FundedChain(w, ZEROS), tx)
  {
    Liveness.ClaimGoesThroughIff(w, FundedChain(w, ZEROS), CFG, TheHtlc(w, ZEROS), PREIMAGE, 1);
  }

  /** The claim of a buyer whose key is not the wallet's, signed by the buyer alone. */
  ghost function OutsideClaim(w: World): Tx
    requires Toy(w)
  {
    ClaimTx(w.c, ToyScript(w, ONES), FundingOf(Terms(w, ONES, "s", 3), [1]), P2wpkhScript(ONES), OUTSIDER, PREIMAGE,
            1).value
  }

  lemma OutsideClaimSpends(w: World)
    requires Toy(w)
    ensures var tx := OutsideClaim(w);
            && Liveness.Spends(tx, FundingOf(Terms(w, ONES, "s", 3), [1]), P2wpkhScript(ONES), 1, 0, SEQUENCE_MAX)
            && |tx.inputs| == 2 && TxidOf(w.c, tx) == [2]
            && tx.inputs[0].prev == OutPoint([3], 0) && tx.inputs[1].prev == OutPoint([3], 1)
            && tx.inputs[0].sequence == SEQUENCE_MAX && tx.lockTime == 0
  {
    var f := FundingOf(Terms(w, ONES, "s", 3), [1]);
    Liveness.ClaimTxSpends(w.c, ToyScript(w, ONES), f, P2wpkhScript(ONES), OUTSIDER, PREIMAGE, 1);
    Liveness.SpendInputs(OutsideClaim(w), f, P2wpkhScript(ONES), 1, 0, SEQUENCE_MAX);
  }

  lemma OutsideClaimInputs(w: World)
    requires Toy(w) && w.c.hash160(w.c.pubkey(OUTSIDER)) == ONES
    ensures |OutsideClaim(w).inputs| == 2
    ensures var f := FundingOf(Terms(w, ONES, "s", 3), [1]);
            && InputAccepted(w.c, OutsideClaim(w), 0, HtlcOutput(w.c, ToyScript(w, ONES), f, 0))
            && InputAccepted(w.c, OutsideClaim(w), 1, HtlcOutput(w.c, ToyScript(w, ONES), f, 1))
  {
    var f := FundingOf(Terms(w, ONES, "s", 3), [1]);
    var spec := HtlcSpec(Hash(w), ONES, ZEROS, 0);
    OutsideClaimSpends(w);
    ClaimAcceptedIff(w.c, spec, f, P2wpkhScript(ONES), OUTSIDER, PREIMAGE, 1, 0);
    ClaimAcceptedIff(w.c, spec, f, P2wpkhScript(ONES), OUTSIDER, PREIMAGE, 1, 1);
  }

  lemma OutsideClaimAcceptable(w: World)
    requires Toy(w) && w.c.hash160(w.c.pubkey(OUTSIDER)) == ONES
    ensures Acceptable(w.c, FundedChain(w, ONES), OutsideClaim(w))
  {
    ToyReady(w, ONES);
    OutsideClaimInputs(w);
    OutsideClaimIsFinal(w);
    OutsideClaimAccepted(w);
  }

  lemma OutsideClaimIsFinal(w: World)
    requires Toy(w)
    ensures Final(FundedChain(w, ONES), OutsideClaim(w))
    ensures Liveness.NoTxidCollision(w.c, FundedChain(w, ONES), OutsideClaim(w))
    ensures var f := FundingOf(Terms(w, ONES, "s", 3), [1]);
            Liveness.Spends(OutsideClaim(w), f, P2wpkhScript(ONES), 1, 0, SEQUENCE_MAX)
  {
    OutsideClaimSpends(w);
  }

  lemma OutsideClaimAccepted(w: World)
    requires ReadyToSpend(w, ONES) && |OutsideClaim(w).inputs| == 2
    requires var f := FundingOf(Terms(w, ONES, "s", 3), [1]);
             && InputAccepted(w.c, OutsideClaim(w), 0, HtlcOutput(w.c, ToyScript(w, ONES), f, 0))
             && InputAccepted(w.c, OutsideClaim(w), 1, HtlcOutput(w.c, ToyScript(w, ONES), f, 1))
             && Liveness.Spends(OutsideClaim(w), f, P2wpkhScript(ONES), 1, 0, SEQUENCE_MAX)
    requires Final(FundedChain(w, ONES), OutsideClaim(w))
    requires Liveness.NoTxidCollision(w.c, FundedChain(w, ONES), OutsideClaim(w))
    ensures Acceptable(w.c, FundedChain(w, ONES), OutsideClaim(w))
  {
    Liveness.SpendAcceptableIff(w, FundedChain(w, ONES), TheHtlc(w, ONES), OutsideClaim(w), P2wpkhScript(ONES), 1, 0,
                                SEQUENCE_MAX);
  }

  lemma ScriptStartsWithIf(spec: HtlcSpec)
    ensures WitnessScript(spec) != [] && WitnessScript(spec)[0] == OP_IF
  {
    ProgramCanonical(spec);
    assert Program(spec)[0] == Op(OP_IF);
  }

  lemma OutsideItems(w: World, i: nat, item: bytes)
    requires Toy(w) && i < |OutsideClaim(w).inputs| && item in OutsideClaim(w).inputs[i].scriptWitness
    requires |w.c.pubkey(OUTSIDER)| == 33 && w.c.pubkey(OUTSIDER)[0] == 3
    requires forall k: bytes, m: bytes :: |w.c.sign(k, m)| == 1
    ensures !LooksOwned(item)
  {
    ScriptStartsWithIf(HtlcSpec(Hash(w), ONES, ZEROS, 0));
  }

  lemma NotOwned(w: World, key: bytes)
    requires Toy(w) && OthersHashApart(w) && !LooksOwned(key)
    ensures !Owned(w, w.c.hash160(key))
  {
    assert ZEROS[0] == 0;
  }

  /** No item of its witnesses is a wallet key. */
  lemma OutsideClaimForgesNothing(w: World, s: State)
    requires Toy(w) && HasOutsider(w)
    ensures NoForgery(w, s, OutsideClaim(w))
  {
    var tx := OutsideClaim(w);
    forall i: nat, key: bytes | i < |tx.inputs| && key in tx.inputs[i].scriptWitness
      ensures !Owned(w, w.c.hash160(key))
    {
      OutsideItems(w, i, key);
      NotOwned(w, key);
    }
  }
}
