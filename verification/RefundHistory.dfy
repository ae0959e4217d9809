/**
 Which refunds the wallet has signed, and how one gets on the chain. Any interleaving.
 */
module RefundHistory {
  import opened Types
  import opened Interpreter
  import opened Transaction
  import opened Chain
  import opened Records
  import opened Protocol
  import opened Invariant
  import InvariantSigned
  import InvariantTask
  import Safety

  // ----- signed refunds

  ghost predicate RefundSigned(w: World, s: State, t: SwapTerms) {
    exists b :: b in s.signed && IsRefundBody(w, t, b)
  }

  /** The step of a refund pass that signs the refund of this HTLC. */
  ghost predicate SignsRefundOf(w: World, s: State, a: Action, t: SwapTerms) {
    InvariantSigned.RefundSigns(w, s, a) && s.tasks[a.t].todo[0].terms == t
  }

  /** What reading the signatures needs of a state. */
  ghost predicate Readable(w: World, s: State) {
    HtlcsOk(w, s) && FundingsDistinct(s) && AllSignedOk(w, s)
  }

  lemma ClaimIsNoRefund(w: World, t: SwapTerms, other: SwapTerms, b: Tx)
    requires IsClaimBody(w, t, b)
    ensures !IsRefundBody(w, other, b)
  {
    assert b.inputs[0].sequence == SEQUENCE_MAX;
  }

  /** A signed refund of an HTLC was signed for that HTLC, after its lock height. */
  lemma SignedRefundIsOwn(w: World, s: State, id: Id, b: Tx)
    requires Readable(w, s) && id in s.funded && b in s.signed && IsRefundBody(w, s.funded[id].terms, b)
    ensures s.signed[b] == Some(id) && s.funded[id].terms.refundLockHeight <= s.chain.height
  {
    var t := s.funded[id].terms;
    Safety.SpendBodyPrevs(w, t, b);
    assert SignedOk(w, s, b, s.signed[b]);
    Safety.SignedSpenderIsOwn(w, s, id, AssetOut(t), b, 0);
    if IsClaimBody(w, t, b) {
      ClaimIsNoRefund(w, t, t, b);
      assert false;
    }
  }

  /** Before the lock height the wallet has signed no refund. */
  lemma NoRefundBeforeLock(w: World, s: State, id: Id)
    requires Readable(w, s) && id in s.funded && s.chain.height < s.funded[id].terms.refundLockHeight
    ensures !RefundSigned(w, s, s.funded[id].terms)
  {
    forall b | b in s.signed
      ensures !IsRefundBody(w, s.funded[id].terms, b)
    {
      if IsRefundBody(w, s.funded[id].terms, b) {
        SignedRefundIsOwn(w, s, id, b);
        assert false;
      }
    }
  }

  lemma PutSigned(w: World, s: State, n: State, b: Tx, origin: Option<Id>, t: SwapTerms)
    requires n.signed == s.signed[b := origin]
    ensures RefundSigned(w, n, t) <==> RefundSigned(w, s, t) || IsRefundBody(w, t, b)
  {
    if RefundSigned(w, s, t) {
      var x :| x in s.signed && IsRefundBody(w, t, x);
      assert x in n.signed;
    }
    assert b in n.signed;
  }

  ghost function RefundBodyOf(w: World, s: State, a: Action): Tx
    requires InvariantSigned.RefundSigns(w, s, a)
  {
    Strip(RefundFor(w, s.cfg, s.tasks[a.t].todo[0].terms, s.tasks[a.t].fee).value)
  }

  /** The transaction that a refund step signs. */
  lemma RefundPut(w: World, s: State, a: Action, n: State)
    requires InvariantSigned.RefundSigns(w, s, a) && Takes(w, s, a, n)
    ensures n.signed == s.signed[RefundBodyOf(w, s, a) := Some(s.tasks[a.t].todo[0].terms.swapId)]
    ensures IsRefundBody(w, s.tasks[a.t].todo[0].terms, RefundBodyOf(w, s, a))
  {
    var k := s.tasks[a.t];
    InvariantTask.RefundForBody(w, s.cfg, k.todo[0].terms, k.fee);
  }

  lemma ClaimPut(w: World, s: State, a: Action, n: State) returns (b: Tx)
    requires a.BroadcastClaim? && Takes(w, s, a, n)
    ensures n.signed == s.signed[b := Some(s.tasks[a.t].terms.swapId)] && IsClaimBody(w, s.tasks[a.t].terms, b)
  {
    var k := s.tasks[a.t];
    b := Strip(ClaimFor(w, s.cfg, k.terms, k.preimage, k.fee).value);
    InvariantTask.ClaimForBody(w, s.cfg, k.terms, k.preimage, k.fee);
  }

  lemma FundPut(w: World, s: State, a: Action, n: State)
    requires a.Fund? && Takes(w, s, a, n)
    ensures n.signed == s.signed[Strip(a.tx) := None]
  {
  }

  /** A refund is signed after the step iff it was before, or the step signs it. */
  ghost predicate SignedChange(w: World, s: State, a: Action, n: State, t: SwapTerms) {
    RefundSigned(w, n, t) <==> RefundSigned(w, s, t) || SignsRefundOf(w, s, a, t)
  }

  lemma FundSignsNoRefund(w: World, s: State, a: Action, n: State, id: Id)
    requires a.Fund? && Takes(w, s, a, n) && Readable(w, n) && id in n.funded
    ensures SignedChange(w, s, a, n, n.funded[id].terms)
  {
    FundPut(w, s, a, n);
    PutSigned(w, s, n, Strip(a.tx), None, n.funded[id].terms);
    if IsRefundBody(w, n.funded[id].terms, Strip(a.tx)) {
      SignedRefundIsOwn(w, n, id, Strip(a.tx));
      assert false;
    }
  }

  lemma ClaimSignsNoRefund(w: World, s: State, a: Action, n: State, t: SwapTerms)
    requires a.BroadcastClaim? && Takes(w, s, a, n)
    ensures SignedChange(w, s, a, n, t)
  {
    var b := ClaimPut(w, s, a, n);
    PutSigned(w, s, n, b, Some(s.tasks[a.t].terms.swapId), t);
    ClaimIsNoRefund(w, s.tasks[a.t].terms, t, b);
  }

  /** The row a refund step works on is a funded HTLC's. */
  lemma RefundRowFunded(w: World, s: State, a: Action)
    requires InvariantSigned.RefundSigns(w, s, a) && TasksOk(w, s) && SwapsFunded(s)
    ensures var t := s.tasks[a.t].todo[0].terms; t.swapId in s.funded && s.funded[t.swapId].terms == t
  {
    assert TaskOk(w, s, s.tasks[a.t]);
    assert InSwaps(s, s.tasks[a.t].todo[0].terms);
  }

  lemma RefundSignsOwn(w: World, s: State, a: Action, n: State, id: Id)
    requires InvariantSigned.RefundSigns(w, s, a) && Takes(w, s, a, n)
    requires Readable(w, n) && TasksOk(w, s) && SwapsFunded(s) && FundedGrows(s, n) && id in n.funded
    ensures SignedChange(w, s, a, n, n.funded[id].terms)
  {
    var t := s.tasks[a.t].todo[0].terms;
    var b := RefundBodyOf(w, s, a);
    RefundPut(w, s, a, n);
    RefundRowFunded(w, s, a);
    PutSigned(w, s, n, b, Some(t.swapId), n.funded[id].terms);
    if IsRefundBody(w, n.funded[id].terms, b) {
      SignedRefundIsOwn(w, n, id, b);
    }
  }

  lemma SignsNothing(w: World, s: State, a: Action, n: State, t: SwapTerms)
    requires Takes(w, s, a, n)
    requires !a.Fund? && !a.BroadcastClaim? && !InvariantSigned.RefundSigns(w, s, a)
    ensures SignedChange(w, s, a, n, t)
  {
    InvariantSigned.SignedSame(w, s, a, n);
  }

  /** Only a refund pass that works on the HTLC signs a refund of it. */
  lemma RefundSignedChange(w: World, s: State, a: Action, n: State, id: Id)
    requires Takes(w, s, a, n)
    requires Readable(w, n) && TasksOk(w, s) && SwapsFunded(s) && FundedGrows(s, n) && id in n.funded
    ensures SignedChange(w, s, a, n, n.funded[id].terms)
  {
    if a.Fund? {
      FundSignsNoRefund(w, s, a, n, id);
    } else if a.BroadcastClaim? {
      ClaimSignsNoRefund(w, s, a, n, n.funded[id].terms);
    } else if InvariantSigned.RefundSigns(w, s, a) {
      RefundSignsOwn(w, s, a, n, id);
    } else {
      SignsNothing(w, s, a, n, n.funded[id].terms);
    }
  }

  lemma RunReadable(w: World, run: seq<State>, acts: seq<Action>, i: nat)
    requires WorldOk(w) && IsRun(w, run, acts) && i < |run|
    ensures Readable(w, run[i]) && TasksOk(w, run[i]) && SwapsFunded(run[i])
  {
    Safety.RunKeepsInv(w, run, acts, i);
  }

  lemma RunRefundSignedChange(w: World, run: seq<State>, acts: seq<Action>, i: nat, id: Id)
    requires WorldOk(w) && IsRun(w, run, acts) && i < |acts| && id in run[i + 1].funded
    ensures SignedChange(w, run[i], acts[i], run[i + 1], run[i + 1].funded[id].terms)
  {
    RunReadable(w, run, acts, i);
    RunReadable(w, run, acts, i + 1);
    Safety.RunStep(w, run, acts, i + 1);
    Safety.RunStepGrows(w, run, acts, i + 1);
    RefundSignedChange(w, run[i], acts[i], run[i + 1], id);
  }

  // ----- refunds on the chain

  /** Someone else puts a refund of the HTLC on the chain: a signed one whose broadcast got lost, or its own. */
  ghost predicate OtherRefunds(w: World, a: Action, t: SwapTerms) {
    a.OtherTx? && IsRefundBody(w, t, Strip(a.tx))
  }

  /** The step puts a refund of the HTLC on the chain: a pass whose broadcast is accepted, or somebody else. */
  ghost predicate PutsRefund(w: World, s: State, a: Action, t: SwapTerms) {
    OtherRefunds(w, a, t) || (SignsRefundOf(w, s, a, t) && a.reply.accepted)
  }

  /** A refund spend, known by the transaction that spends the asset output. */
  lemma RefundSpentBy(w: World, ch: Chain, t: SwapTerms, txid: Txid)
    requires InputsRecorded(ch) && txid in ch.txs && IsRefundBody(w, t, Strip(ch.txs[txid]))
    ensures RefundSpent(w, ch, t)
  {
    Safety.OwnSpenderSpendsBoth(w, ch, t, txid);
  }

  lemma OtherRefundLands(w: World, s: State, a: Action, n: State, t: SwapTerms)
    requires ChainValid(w.c, s.chain) && Takes(w, s, a, n) && OtherRefunds(w, a, t)
    ensures RefundSpent(w, n.chain, t)
  {
    AcceptRecords(w.c, s.chain, a.tx);
    RefundSpentBy(w, n.chain, t, TxidOf(w.c, a.tx));
  }

  /** A refund spend that an accepted transaction brought is that transaction. */
  lemma NewRefundIs(w: World, ch: Chain, tx: Tx, t: SwapTerms)
    requires ChainValid(w.c, ch) && Acceptable(w.c, ch, tx)
    requires !RefundSpent(w, ch, t) && RefundSpent(w, Accept(w.c, ch, tx), t)
    ensures IsRefundBody(w, t, Strip(tx))
  {
    AcceptSpends(w.c, ch, tx);
    var op := AssetOut(t);
    if op in ch.spent {
      var i := Safety.SpenderSpends(w.c, ch, op);
      if IsRefundBody(w, t, Strip(ch.txs[ch.spent[op]])) {
        RefundSpentBy(w, ch, t, ch.spent[op]);
      }
    } else {
      assert Accept(w.c, ch, tx).spent[op] == TxidOf(w.c, tx);
    }
  }

  lemma BroadcastRefundIs(w: World, ch: Chain, tx: Tx, reply: Reply, t: SwapTerms)
    requires ChainValid(w.c, ch) && ReplyPossible(w.c, ch, tx, reply)
    requires !RefundSpent(w, ch, t) && RefundSpent(w, AfterBroadcast(w.c, ch, tx, reply), t)
    ensures IsRefundBody(w, t, Strip(tx))
  {
    NewRefundIs(w, ch, tx, t);
  }

  lemma FundIsNoRefund(w: World, s: State, a: Action, id: Id)
    requires a.Fund? && Enabled(w, s, a) && id in s.funded && HtlcOk(w, s.chain, s.funded[id])
    ensures !IsRefundBody(w, s.funded[id].terms, Strip(a.tx))
  {
    var t := s.funded[id].terms;
    if IsRefundBody(w, t, Strip(a.tx)) {
      Safety.SpendBodyPrevs(w, t, Strip(a.tx));
      assert a.tx.inputs[0].prev == AssetOut(t);
      Safety.HtlcOutputIsScriptHash(w, s.chain, s.funded[id], AssetOut(t));
      assert false;
    }
  }

  lemma FundBringsNone(w: World, s: State, a: Action, n: State, id: Id)
    requires a.Fund? && Takes(w, s, a, n) && ChainValid(w.c, s.chain)
    requires id in s.funded && HtlcOk(w, s.chain, s.funded[id]) && !RefundSpent(w, s.chain, s.funded[id].terms)
    ensures !RefundSpent(w, n.chain, s.funded[id].terms)
  {
    if RefundSpent(w, n.chain, s.funded[id].terms) {
      BroadcastRefundIs(w, s.chain, a.tx, a.reply, s.funded[id].terms);
      FundIsNoRefund(w, s, a, id);
      assert false;
    }
  }

  lemma ClaimBringsNone(w: World, s: State, a: Action, n: State, t: SwapTerms)
    requires a.BroadcastClaim? && Takes(w, s, a, n) && ChainValid(w.c, s.chain)
    requires !RefundSpent(w, s.chain, t)
    ensures !RefundSpent(w, n.chain, t)
  {
    var k := s.tasks[a.t];
    var tx := ClaimFor(w, s.cfg, k.terms, k.preimage, k.fee).value;
    if RefundSpent(w, n.chain, t) {
      BroadcastRefundIs(w, s.chain, tx, a.reply, t);
      InvariantTask.ClaimForBody(w, s.cfg, k.terms, k.preimage, k.fee);
      ClaimIsNoRefund(w, k.terms, t, Strip(tx));
      assert false;
    }
  }

  lemma RefundBrings(w: World, s: State, a: Action, n: State, t: SwapTerms)
    requires InvariantSigned.RefundSigns(w, s, a) && Takes(w, s, a, n) && ChainValid(w.c, s.chain)
    requires !RefundSpent(w, s.chain, t) && RefundSpent(w, n.chain, t)
    ensures IsRefundBody(w, t, RefundBodyOf(w, s, a)) && a.reply.accepted
  {
    var k := s.tasks[a.t];
    BroadcastRefundIs(w, s.chain, RefundFor(w, s.cfg, k.todo[0].terms, k.fee).value, a.reply, t);
  }

  lemma RefundBringsOwn(w: World, s: State, a: Action, n: State, id: Id)
    requires InvariantSigned.RefundSigns(w, s, a) && Takes(w, s, a, n)
    requires Readable(w, n) && TasksOk(w, s) && SwapsFunded(s) && FundedGrows(s, n) && id in s.funded
    requires IsRefundBody(w, s.funded[id].terms, RefundBodyOf(w, s, a))
    ensures SignsRefundOf(w, s, a, s.funded[id].terms)
  {
    RefundPut(w, s, a, n);
    RefundRowFunded(w, s, a);
    SignedRefundIsOwn(w, n, id, RefundBodyOf(w, s, a));
  }

  lemma PassBrings(w: World, s: State, a: Action, n: State, id: Id)
    requires InvariantSigned.RefundSigns(w, s, a) && Takes(w, s, a, n) && ChainValid(w.c, s.chain)
    requires Readable(w, n) && TasksOk(w, s) && SwapsFunded(s) && FundedGrows(s, n) && id in s.funded
    requires !RefundSpent(w, s.chain, s.funded[id].terms) && RefundSpent(w, n.chain, s.funded[id].terms)
    ensures PutsRefund(w, s, a, s.funded[id].terms)
  {
    RefundBrings(w, s, a, n, s.funded[id].terms);
    RefundBringsOwn(w, s, a, n, id);
  }

  lemma OtherBrings(w: World, s: State, a: Action, n: State, t: SwapTerms)
    requires a.OtherTx? && Takes(w, s, a, n) && ChainValid(w.c, s.chain)
    requires !RefundSpent(w, s.chain, t) && RefundSpent(w, n.chain, t)
    ensures OtherRefunds(w, a, t)
  {
    NewRefundIs(w, s.chain, a.tx, t);
  }

  lemma MineBringsNone(w: World, s: State, a: Action, n: State, t: SwapTerms)
    requires a.MineBlock? && Takes(w, s, a, n) && !RefundSpent(w, s.chain, t)
    ensures !RefundSpent(w, n.chain, t)
  {
  }

  /** A refund gets on the chain by the pass that signs it, or by someone else's step. */
  /** The other steps bring none. */
  lemma OthersBringNone(w: World, s: State, a: Action, n: State, id: Id)
    requires Takes(w, s, a, n) && ChainValid(w.c, s.chain) && id in s.funded && HtlcOk(w, s.chain, s.funded[id])
    requires !InvariantSigned.RefundSigns(w, s, a) && !a.OtherTx? && !RefundSpent(w, s.chain, s.funded[id].terms)
    ensures !RefundSpent(w, n.chain, s.funded[id].terms)
  {
    if a.Fund? {
      FundBringsNone(w, s, a, n, id);
    } else if a.BroadcastClaim? {
      ClaimBringsNone(w, s, a, n, s.funded[id].terms);
    } else if a.MineBlock? {
      MineBringsNone(w, s, a, n, s.funded[id].terms);
    } else {
      InvariantSigned.ChainSame(w, s, a, n);
    }
  }

  lemma RefundArrives(w: World, s: State, a: Action, n: State, id: Id)
    requires Takes(w, s, a, n) && ChainValid(w.c, s.chain) && HtlcsOk(w, s)
    requires Readable(w, n) && TasksOk(w, s) && SwapsFunded(s) && FundedGrows(s, n) && id in s.funded
    requires !RefundSpent(w, s.chain, s.funded[id].terms) && RefundSpent(w, n.chain, s.funded[id].terms)
    ensures PutsRefund(w, s, a, s.funded[id].terms)
  {
    if InvariantSigned.RefundSigns(w, s, a) {
      PassBrings(w, s, a, n, id);
    } else if a.OtherTx? {
      OtherBrings(w, s, a, n, s.funded[id].terms);
    } else {
      OthersBringNone(w, s, a, n, id);
    }
  }

  lemma RunRefundArrives(w: World, run: seq<State>, acts: seq<Action>, i: nat, id: Id)
    requires WorldOk(w) && IsRun(w, run, acts) && i < |acts| && id in run[i].funded
    requires !RefundSpent(w, run[i].chain, run[i].funded[id].terms)
    requires RefundSpent(w, run[i + 1].chain, run[i].funded[id].terms)
    ensures PutsRefund(w, run[i], acts[i], run[i].funded[id].terms)
  {
    Safety.RunKeepsInv(w, run, acts, i);
    RunReadable(w, run, acts, i + 1);
    Safety.RunStep(w, run, acts, i + 1);
    Safety.RunStepGrows(w, run, acts, i + 1);
    RefundArrives(w, run[i], acts[i], run[i + 1], id);
  }

  lemma PassRefundLands(w: World, s: State, a: Action, n: State, t: SwapTerms)
    requires ChainValid(w.c, s.chain) && Takes(w, s, a, n) && SignsRefundOf(w, s, a, t) && a.reply.accepted
    ensures RefundSpent(w, n.chain, t)
  {
    var k := s.tasks[a.t];
    var tx := RefundFor(w, s.cfg, t, k.fee).value;
    InvariantTask.RefundForBody(w, s.cfg, t, k.fee);
    AcceptRecords(w.c, s.chain, tx);
    RefundSpentBy(w, n.chain, t, TxidOf(w.c, tx));
  }

  lemma PutLands(w: World, s: State, a: Action, n: State, t: SwapTerms)
    requires ChainValid(w.c, s.chain) && Takes(w, s, a, n) && PutsRefund(w, s, a, t)
    ensures RefundSpent(w, n.chain, t)
  {
    if OtherRefunds(w, a, t) {
      OtherRefundLands(w, s, a, n, t);
    } else {
      PassRefundLands(w, s, a, n, t);
    }
  }

  lemma RunRefundLands(w: World, run: seq<State>, acts: seq<Action>, i: nat, t: SwapTerms)
    requires WorldOk(w) && IsRun(w, run, acts) && i < |acts| && PutsRefund(w, run[i], acts[i], t)
    ensures RefundSpent(w, run[i + 1].chain, t)
  {
    RunChainStep(w, run, acts, i);
    PutLands(w, run[i], acts[i], run[i + 1], t);
  }

  lemma RunChainStep(w: World, run: seq<State>, acts: seq<Action>, i: nat)
    requires WorldOk(w) && IsRun(w, run, acts) && i < |acts|
    ensures ChainValid(w.c, run[i].chain) && Takes(w, run[i], acts[i], run[i + 1])
  {
    Safety.RunKeepsInv(w, run, acts, i);
    Safety.RunStep(w, run, acts, i + 1);
  }

  lemma RefundStays(w: World, run: seq<State>, acts: seq<Action>, i: nat, j: nat, t: SwapTerms)
    requires WorldOk(w) && IsRun(w, run, acts) && i <= j < |run| && RefundSpent(w, run[i].chain, t)
    ensures RefundSpent(w, run[j].chain, t)
  {
    Safety.RunGrows(w, run, acts, i, j);
  }

  /** A refund of an HTLC of wallet keys that is on the chain has been signed. */
  lemma OwnedRefundSigned(w: World, run: seq<State>, acts: seq<Action>, j: nat, id: Id)
    requires WorldOk(w) && IsRun(w, run, acts) && j < |run|
    requires id in run[j].funded && BothKeysOwned(w, run[j].funded[id])
    requires RefundSpent(w, run[j].chain, run[j].funded[id].terms)
    ensures RefundSigned(w, run[j], run[j].funded[id].terms)
  {
    Safety.RunKeepsInv(w, run, acts, j);
    var t := run[j].funded[id].terms;
    assert IsOutPointOf(AssetOut(t), t);
  }

  // ----- whole runs

  /** No refund is signed before the HTLC exists. */
  lemma UnfundedUnsigned(w: World, s: State, n: State, id: Id)
    requires AllSignedOk(w, s) && HtlcsOk(w, n) && FundingsDistinct(n) && Grows(s, n)
    requires id in n.funded && id !in s.funded
    ensures !RefundSigned(w, s, n.funded[id].terms)
  {
    var t := n.funded[id].terms;
    forall b | b in s.signed
      ensures !IsRefundBody(w, t, b)
    {
      if IsRefundBody(w, t, b) {
        Safety.SpendBodyPrevs(w, t, b);
        assert SignedOk(w, s, b, s.signed[b]);
        InvariantSigned.SignedOkStable(w, s, n, b, s.signed[b]);
        Safety.SignedSpenderIsOwn(w, n.(signed := s.signed), id, AssetOut(t), b, 0);
        assert false;
      }
    }
  }

  lemma SignerFunded(w: World, run: seq<State>, acts: seq<Action>, m: nat, i: nat, id: Id, t: SwapTerms)
    requires WorldOk(w) && IsRun(w, run, acts) && m <= i < |run| && m < |acts|
    requires t.swapId == id && SignsRefundOf(w, run[m], acts[m], t)
    ensures id in run[i].funded
  {
    RunReadable(w, run, acts, m);
    RefundRowFunded(w, run[m], acts[m]);
    Safety.FundedStays(w, run, acts, m, i, id);
  }

  lemma UnfundedRefundUnsigned(w: World, run: seq<State>, acts: seq<Action>, i: nat, id: Id)
    requires WorldOk(w) && IsRun(w, run, acts) && 0 < i < |run| && id in run[i].funded && id !in run[i - 1].funded
    ensures !RefundSigned(w, run[i - 1], run[i].funded[id].terms)
  {
    RunReadable(w, run, acts, i);
    RunReadable(w, run, acts, i - 1);
    Safety.RunStepGrows(w, run, acts, i);
    UnfundedUnsigned(w, run[i - 1], run[i], id);
  }

  /** While the HTLC is not funded no step has signed a refund of it. */
  lemma NobodySignedYet(w: World, run: seq<State>, acts: seq<Action>, i: nat, id: Id, t: SwapTerms)
    requires WorldOk(w) && IsRun(w, run, acts) && i < |run| && id !in run[i].funded && t.swapId == id
    ensures !SignedBySome(w, run, acts, i, t)
  {
    forall m: nat | m < i
      ensures !SignsRefundOf(w, run[m], acts[m], t)
    {
      if SignsRefundOf(w, run[m], acts[m], t) {
        SignerFunded(w, run, acts, m, i, id, t);
        assert false;
      }
    }
  }

  lemma FundedUnderId(w: World, run: seq<State>, acts: seq<Action>, i: nat, id: Id)
    requires WorldOk(w) && IsRun(w, run, acts) && i < |run| && id in run[i].funded
    ensures run[i].funded[id].terms.swapId == id
  {
    RunReadable(w, run, acts, i);
  }

  ghost predicate SignedBySome(w: World, run: seq<State>, acts: seq<Action>, i: nat, t: SwapTerms) {
    exists m {:trigger SignsRefundOf(w, run[m], acts[m], t)} ::
      0 <= m < i && m < |acts| && m < |run| && SignsRefundOf(w, run[m], acts[m], t)
  }

  lemma SignedByOneMore(w: World, run: seq<State>, acts: seq<Action>, i: nat, t: SwapTerms)
    requires 0 < i < |run| && |run| == |acts| + 1 && SignedChange(w, run[i - 1], acts[i - 1], run[i], t)
    requires RefundSigned(w, run[i - 1], t) <==> SignedBySome(w, run, acts, i - 1, t)
    ensures RefundSigned(w, run[i], t) <==> SignedBySome(w, run, acts, i, t)
  {
  }

  /** In every reachable state: a refund of an HTLC is signed exactly if some pass signed it. */
  lemma {:induction false} RefundSignedIff(w: World, run: seq<State>, acts: seq<Action>, i: nat, id: Id)
    requires WorldOk(w) && IsRun(w, run, acts) && i < |run| && id in run[i].funded
    ensures var t := run[i].funded[id].terms;
            RefundSigned(w, run[i], t) <==> SignedBySome(w, run, acts, i, t)
  {
    if i > 0 {
      var t := run[i].funded[id].terms;
      if id in run[i - 1].funded {
        Safety.FundedStays(w, run, acts, i - 1, i, id);
        RefundSignedIff(w, run, acts, i - 1, id);
      } else {
        UnfundedRefundUnsigned(w, run, acts, i, id);
        FundedUnderId(w, run, acts, i, id);
        NobodySignedYet(w, run, acts, i - 1, id, t);
      }
      RunRefundSignedChange(w, run, acts, i - 1, id);
      SignedByOneMore(w, run, acts, i, t);
    }
  }

  ghost predicate RefundPutBetween(w: World, run: seq<State>, acts: seq<Action>, b: nat, j: nat, t: SwapTerms) {
    exists m {:trigger PutsRefund(w, run[m], acts[m], t)} ::
      b <= m < j && m < |acts| && m < |run| && PutsRefund(w, run[m], acts[m], t)
  }

  lemma {:induction false} RefundArrived(w: World, run: seq<State>, acts: seq<Action>, b: nat, j: nat, id: Id)
    requires WorldOk(w) && IsRun(w, run, acts) && b <= j < |run| && id in run[b].funded
    requires RefundSpent(w, run[j].chain, run[b].funded[id].terms)
    ensures var t := run[b].funded[id].terms; RefundSpent(w, run[b].chain, t) || RefundPutBetween(w, run, acts, b, j, t)
  {
    if b < j {
      Safety.FundedStays(w, run, acts, b, j - 1, id);
      if RefundSpent(w, run[j - 1].chain, run[b].funded[id].terms) {
        RefundArrived(w, run, acts, b, j - 1, id);
      } else {
        RunRefundArrives(w, run, acts, j - 1, id);
      }
    }
  }

  lemma PutRefundStays(w: World, run: seq<State>, acts: seq<Action>, m: nat, j: nat, t: SwapTerms)
    requires WorldOk(w) && IsRun(w, run, acts) && m < j < |run| && PutsRefund(w, run[m], acts[m], t)
    ensures RefundSpent(w, run[j].chain, t)
  {
    RunRefundLands(w, run, acts, m, t);
    RefundStays(w, run, acts, m + 1, j, t);
  }

  lemma RefundLanded(w: World, run: seq<State>, acts: seq<Action>, b: nat, j: nat, t: SwapTerms)
    requires WorldOk(w) && IsRun(w, run, acts) && b <= j < |run| && RefundPutBetween(w, run, acts, b, j, t)
    ensures RefundSpent(w, run[j].chain, t)
  {
    var m :| b <= m < j && m < |acts| && m < |run| && PutsRefund(w, run[m], acts[m], t);
    PutRefundStays(w, run, acts, m, j, t);
  }

  /**
   In any run and with any keys: an HTLC has been refunded on the chain at a later time
   exactly if it was before, or some step in between put a refund there.
   */
  lemma RefundSpentIff(w: World, run: seq<State>, acts: seq<Action>, b: nat, j: nat, id: Id)
    requires WorldOk(w) && IsRun(w, run, acts) && b <= j < |run| && id in run[b].funded
    ensures var t := run[b].funded[id].terms;
            RefundSpent(w, run[j].chain, t) <==>
            RefundSpent(w, run[b].chain, t) || RefundPutBetween(w, run, acts, b, j, t)
  {
    var t := run[b].funded[id].terms;
    if RefundSpent(w, run[j].chain, t) {
      RefundArrived(w, run, acts, b, j, id);
    }
    if RefundSpent(w, run[b].chain, t) {
      RefundStays(w, run, acts, b, j, t);
    }
    if RefundPutBetween(w, run, acts, b, j, t) {
      RefundLanded(w, run, acts, b, j, t);
    }
  }
}
