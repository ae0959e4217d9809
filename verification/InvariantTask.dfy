/**
 Steps keep quotes linked to their swaps, and what every task remembers true.
 */
module InvariantTask {
  import opened Types
  import opened Transaction
  import opened HtlcSpend
  import opened Chain
  import opened Records
  import opened Offer
  import opened Protocol
  import opened Invariant
  import InvariantRecord

  // ----- quotes

  predicate QuoteRowsOk(w: World, quotes: map<Id, QuoteRecord>) {
    forall qid :: qid in quotes ==> quotes[qid].quoteId == qid && QuoteOk(w, quotes[qid])
  }

  lemma QuoteRowsOkPut(w: World, quotes: map<Id, QuoteRecord>, q: QuoteRecord)
    requires QuoteRowsOk(w, quotes) && QuoteOk(w, q)
    ensures QuoteRowsOk(w, quotes[q.quoteId := q])
  {
  }

  lemma NewQuoteOk(w: World, s: State, a: Action)
    requires a.CreateQuote? && Enabled(w, s, a)
    ensures QuoteOk(w, a.quote)
  {
    assert QuoteOffer(a.quote) == CurrentOffer(s.cfg);
  }

  lemma LinkedQuoteOk(w: World, q: QuoteRecord, id: Id)
    requires QuoteOk(w, q)
    ensures QuoteOk(w, q.(swapId := Some(id)))
  {
    assert QuoteOffer(q.(swapId := Some(id))) == QuoteOffer(q);
  }

  lemma QuoteRowsOkStep(w: World, s: State, a: Action, n: State)
    requires QuoteRowsOk(w, s.quotes) && Takes(w, s, a, n)
    ensures QuoteRowsOk(w, n.quotes)
  {
    QuotesDelta(w, s, a, n);
    if a.CreateQuote? {
      NewQuoteOk(w, s, a);
      QuoteRowsOkPut(w, s.quotes, a.quote);
    } else if a.Link? {
      var q := s.quotes[s.tasks[a.t].quoteId];
      LinkedQuoteOk(w, q, s.tasks[a.t].swapId);
      QuoteRowsOkPut(w, s.quotes, q.(swapId := Some(s.tasks[a.t].swapId)));
    }
  }

  predicate LinksOk(s: State) {
    forall qid :: qid in s.quotes && s.quotes[qid].swapId.Some? ==>
      s.quotes[qid].swapId.value in s.swaps && s.swaps[s.quotes[qid].swapId.value].terms.quoteId == qid
  }

  lemma LinksOkLink(w: World, s: State, a: Action, n: State)
    requires a.Link? && LinksOk(s) && TasksOk(w, s) && Takes(w, s, a, n)
    ensures LinksOk(n)
  {
    assert TaskOk(w, s, s.tasks[a.t]);
  }

  /** Apart from linking, a step keeps every quote and adds only unlinked ones. */
  predicate NewQuotesUnlinked(s: State, n: State) {
    forall qid :: qid in n.quotes ==> n.quotes[qid].swapId.None? || (qid in s.quotes && s.quotes[qid] == n.quotes[qid])
  }

  lemma NewQuotesUnlinkedStep(s: State, a: Action, n: State)
    requires !a.Link? && QuotesChange(s, a, n)
    ensures NewQuotesUnlinked(s, n)
  {
  }

  lemma LinksOkFramed(s: State, n: State)
    requires LinksOk(s) && NewQuotesUnlinked(s, n) && SwapsGrow(s, n)
    ensures LinksOk(n)
  {
  }

  lemma LinksOkStep(w: World, s: State, a: Action, n: State)
    requires LinksOk(s) && TasksOk(w, s) && Takes(w, s, a, n)
    ensures LinksOk(n)
  {
    if a.Link? {
      LinksOkLink(w, s, a, n);
    } else {
      QuotesDelta(w, s, a, n);
      NewQuotesUnlinkedStep(s, a, n);
      StepSwapsGrow(w, s, a, n);
      LinksOkFramed(s, n);
    }
  }

  predicate MadeFromQuotes(s: State) {
    forall id :: id in s.funded ==>
      s.funded[id].terms.quoteId in s.quotes && MadeFrom(s.quotes[s.funded[id].terms.quoteId], s.funded[id])
  }

  /** Passing the offer check means the quoted policy is the one the HTLC is built with. */
  lemma NewHtlcMadeFrom(w: World, s: State, a: Action)
    requires WorldOk(w) && QuoteRowsOk(w, s.quotes) && TasksOk(w, s) && FundsNew(w, s, a)
    ensures var f := NewHtlc(w, s, a); f.terms.quoteId in s.quotes && MadeFrom(s.quotes[f.terms.quoteId], f)
  {
    var k := s.tasks[a.t];
    assert TaskOk(w, s, k);
    assert QuoteOk(w, s.quotes[k.quote.quoteId]);
    OfferIdMatchesIff(w.c, s.cfg, s.quotes[k.quote.quoteId]);
  }

  lemma MadeFromKept(s: State, n: State, id: Id, f: FundedHtlc)
    requires MadeFromQuotes(s) && QuotesGrow(s, n)
    requires n.funded == s.funded
             || (n.funded == s.funded[id := f] && f.terms.quoteId in s.quotes && MadeFrom(s.quotes[f.terms.quoteId], f))
    ensures MadeFromQuotes(n)
  {
  }

  lemma MadeFromStep(w: World, s: State, a: Action, n: State)
    requires WorldOk(w) && QuoteRowsOk(w, s.quotes) && TasksOk(w, s) && MadeFromQuotes(s)
    requires Takes(w, s, a, n)
    ensures MadeFromQuotes(n)
  {
    StepQuotesGrow(w, s, a, n);
    FundedDelta(w, s, a, n);
    if FundsNew(w, s, a) {
      NewHtlcMadeFrom(w, s, a);
      MadeFromKept(s, n, s.tasks[a.t].swapId, NewHtlc(w, s, a));
    } else if n.funded != map[] {
      var id :| id in n.funded;
      MadeFromKept(s, n, id, n.funded[id]);
    }
  }

  lemma QuotesOkStep(w: World, s: State, a: Action, n: State)
    requires WorldOk(w) && QuotesOk(w, s) && TasksOk(w, s) && Takes(w, s, a, n)
    ensures QuotesOk(w, n)
  {
    QuoteRowsOkStep(w, s, a, n);
    LinksOkStep(w, s, a, n);
    MadeFromStep(w, s, a, n);
  }

  // ----- broadcasts

  /** A reported broadcast is on the chain, spending everything it names. */
  lemma ReportedIsSpent(w: World, ch: Chain, tx: Tx, reply: Reply)
    requires ChainValid(w.c, ch) && ReplyPossible(w.c, ch, tx, reply) && reply.reported
    ensures var later := AfterBroadcast(w.c, ch, tx, reply); var id := TxidOf(w.c, tx);
            && id in later.txs && Strip(later.txs[id]) == Strip(tx)
            && forall i :: 0 <= i < |tx.inputs| ==>
                 tx.inputs[i].prev in later.spent && later.spent[tx.inputs[i].prev] == id
  {
    var id := TxidOf(w.c, tx);
    BroadcastExtends(w, ch, tx, reply);
    var later := AfterBroadcast(w.c, ch, tx, reply);
    assert id in later.txs && Strip(later.txs[id]) == Strip(tx);
    forall i | 0 <= i < |tx.inputs|
      ensures tx.inputs[i].prev in later.spent && later.spent[tx.inputs[i].prev] == id
    {
      assert Strip(tx).inputs[i].prev == tx.inputs[i].prev;
      assert Strip(later.txs[id]).inputs[i].prev == later.txs[id].inputs[i].prev;
    }
  }

  lemma ClaimForBody(w: World, cfg: Config, t: SwapTerms, preimage: Hash32, fee: u64)
    requires ClaimFor(w, cfg, t, preimage, fee).Ok?
    ensures var tx := ClaimFor(w, cfg, t, preimage, fee).value;
            && IsClaimBody(w, t, Strip(tx))
            && |tx.inputs| == 2 && tx.inputs[0].prev == AssetOut(t) && tx.inputs[1].prev == LbtcOut(t)
  {
    var index := ClaimKey(t, cfg.sellerKeyIndex, cfg.buyerKeyIndex).0;
    var tx := ClaimFor(w, cfg, t, preimage, fee).value;
    var body := ClaimBody(FundingOf(t, w.policyAsset), w.addressAt(index).script, fee);
    StripWithWitnesses(body, tx.inputs[0].scriptWitness, tx.inputs[1].scriptWitness);
    assert body.outputs[0].script == w.addressAt(index).script;
    assert tx == WithWitnesses(body, tx.inputs[0].scriptWitness, tx.inputs[1].scriptWitness);
  }

  lemma RefundForBody(w: World, cfg: Config, t: SwapTerms, fee: u64)
    requires RefundFor(w, cfg, t, fee).Ok?
    ensures var tx := RefundFor(w, cfg, t, fee).value;
            && IsRefundBody(w, t, Strip(tx))
            && |tx.inputs| == 2 && tx.inputs[0].prev == AssetOut(t) && tx.inputs[1].prev == LbtcOut(t)
  {
    var index := RefundKey(t, cfg.sellerKeyIndex, cfg.buyerKeyIndex).0;
    var tx := RefundFor(w, cfg, t, fee).value;
    var body := RefundBody(FundingOf(t, w.policyAsset), w.addressAt(index).script, fee, t.refundLockHeight);
    StripWithWitnesses(body, tx.inputs[0].scriptWitness, tx.inputs[1].scriptWitness);
    assert body.outputs[0].script == w.addressAt(index).script;
    assert tx == WithWitnesses(body, tx.inputs[0].scriptWitness, tx.inputs[1].scriptWitness);
  }

  // ----- what the acting task remembers next

  lemma TasksOkPut(w: World, s: State, n: State, t: TaskId)
    requires TasksOk(w, s) && Grows(s, n) && n.cfg == s.cfg && OtherTasksKept(s, n, t)
    requires t in n.tasks ==> TaskOk(w, n, n.tasks[t])
    ensures TasksOk(w, n)
  {
    forall u | u in n.tasks
      ensures TaskOk(w, n, n.tasks[u])
    {
      if u != t {
        TaskOkStable(w, s, n, s.tasks[u]);
      }
    }
  }

  lemma TasksOkSame(w: World, s: State, n: State)
    requires TasksOk(w, s) && Grows(s, n) && n.cfg == s.cfg && n.tasks == s.tasks
    ensures TasksOk(w, n)
  {
    forall u | u in n.tasks
      ensures TaskOk(w, n, n.tasks[u])
    {
      TaskOkStable(w, s, n, s.tasks[u]);
    }
  }

  lemma NewCreateTaskOk(w: World, s: State, a: Action, n: State)
    requires a.BeginCreate? && QuotesOk(w, s) && Takes(w, s, a, n)
    ensures a.t in n.tasks ==> TaskOk(w, n, n.tasks[a.t])
  {
  }

  lemma NewFundedTaskOk(w: World, s: State, a: Action, n: State)
    requires a.Fund? && Takes(w, s, a, n)
    ensures a.t in n.tasks ==> TaskOk(w, n, n.tasks[a.t])
  {
    assert FundTerms(w, s, a).Ok? ==> FundTerms(w, s, a).value.swapId == s.tasks[a.t].swapId;
  }

  lemma NewInsertedTaskOk(w: World, s: State, a: Action, n: State)
    requires (a.Insert? || a.Link?) && TasksOk(w, s) && Takes(w, s, a, n)
    ensures a.t in n.tasks ==> TaskOk(w, n, n.tasks[a.t])
  {
    assert TaskOk(w, s, s.tasks[a.t]);
  }

  lemma NewPayTaskOk(w: World, s: State, a: Action, n: State)
    requires a.BeginPay? && a.swapId in s.swaps && s.swaps[a.swapId].terms.swapId == a.swapId
    requires RecordsOk(w, s) && Takes(w, s, a, n)
    ensures a.t in n.tasks ==> TaskOk(w, n, n.tasks[a.t])
  {
    assert FieldsOk(w, s.chain, s.swaps[a.swapId]);
  }

  lemma NewClaimTaskOk(w: World, s: State, a: Action, n: State)
    requires a.BeginClaim? && a.swapId in s.swaps && s.swaps[a.swapId].terms.swapId == a.swapId
    requires RecordsOk(w, s) && Takes(w, s, a, n)
    ensures a.t in n.tasks ==> TaskOk(w, n, n.tasks[a.t])
  {
    assert FieldsOk(w, s.chain, s.swaps[a.swapId]);
  }

  /** What the broadcast of a claim leaves. */
  lemma ClaimLeaves(w: World, s: State, a: Action, n: State)
    requires a.BroadcastClaim? && Takes(w, s, a, n)
    ensures a.t in s.tasks && s.tasks[a.t].ClaimRead? && n.swaps == s.swaps
    ensures var k := s.tasks[a.t]; var tx := ClaimFor(w, s.cfg, k.terms, k.preimage, k.fee);
            && tx.Ok? && ReplyPossible(w.c, s.chain, tx.value, a.reply)
            && n.chain == AfterBroadcast(w.c, s.chain, tx.value, a.reply)
            && (a.t in n.tasks ==> a.reply.reported && n.tasks[a.t] == ClaimSent(k.terms, TxidOf(w.c, tx.value)))
  {
  }

  lemma ClaimAttempt(w: World, s: State, t: SwapTerms, preimage: Hash32, fee: u64, reply: Reply)
    requires ChainValid(w.c, s.chain) && ClaimFor(w, s.cfg, t, preimage, fee).Ok? && reply.reported
    requires ReplyPossible(w.c, s.chain, ClaimFor(w, s.cfg, t, preimage, fee).value, reply)
    ensures var tx := ClaimFor(w, s.cfg, t, preimage, fee).value;
            ClaimSpent(w, AfterBroadcast(w.c, s.chain, tx, reply), t, TxidOf(w.c, tx))
  {
    ClaimForBody(w, s.cfg, t, preimage, fee);
    ReportedIsSpent(w, s.chain, ClaimFor(w, s.cfg, t, preimage, fee).value, reply);
  }

  lemma NewClaimSentTaskOk(w: World, s: State, a: Action, n: State)
    requires a.BroadcastClaim? && ChainValid(w.c, s.chain) && TasksOk(w, s)
    requires Takes(w, s, a, n)
    ensures a.t in n.tasks ==> TaskOk(w, n, n.tasks[a.t])
  {
    ClaimLeaves(w, s, a, n);
    var k := s.tasks[a.t];
    assert TaskOk(w, s, k);
    if a.t in n.tasks {
      ClaimAttempt(w, s, k.terms, k.preimage, k.fee, a.reply);
    }
  }

  lemma NewRefundTaskOk(w: World, s: State, a: Action, n: State)
    requires a.BeginRefund? && Takes(w, s, a, n)
    ensures a.t in n.tasks ==> TaskOk(w, n, n.tasks[a.t])
  {
  }

  /** The transaction of a refund attempt, if the head of the list is due. */
  lemma RefundAttempt(w: World, s: State, r: SwapRecord, fee: u64, reply: Reply, n: State)
    requires ChainValid(w.c, s.chain) && InSwaps(s, r.terms)
    requires RefundFor(w, s.cfg, r.terms, fee).Ok?
    requires ReplyPossible(w.c, s.chain, RefundFor(w, s.cfg, r.terms, fee).value, reply)
    requires n.chain == AfterBroadcast(w.c, s.chain, RefundFor(w, s.cfg, r.terms, fee).value, reply)
    ensures s.chain.height <= n.chain.height
    ensures reply.reported ==> RefundSpent(w, n.chain, r.terms)
  {
    var tx := RefundFor(w, s.cfg, r.terms, fee).value;
    BroadcastExtends(w, s.chain, tx, reply);
    if reply.reported {
      RefundForBody(w, s.cfg, r.terms, fee);
      ReportedIsSpent(w, s.chain, tx, reply);
    }
  }

  lemma RefundSkipTaskOk(w: World, s: State, a: Action, n: State)
    requires a.RefundNext? && TasksOk(w, s) && Takes(w, s, a, n)
    requires !RefundDue(s.tasks[a.t].todo[0], s.tasks[a.t].tip)
    ensures TaskOk(w, n, n.tasks[a.t])
  {
    assert TaskOk(w, s, s.tasks[a.t]);
  }

  lemma AllInSwapsTail(s: State, n: State, todo: seq<SwapRecord>)
    requires todo != [] && AllInSwaps(s, todo) && n.swaps == s.swaps
    ensures InSwaps(s, todo[0].terms) && AllInSwaps(n, todo[1..])
  {
  }

  lemma RefundTryTaskOk(w: World, s: State, a: Action, n: State)
    requires a.RefundNext? && ChainValid(w.c, s.chain) && TasksOk(w, s) && Takes(w, s, a, n)
    requires RefundDue(s.tasks[a.t].todo[0], s.tasks[a.t].tip)
    ensures TaskOk(w, n, n.tasks[a.t])
  {
    var k := s.tasks[a.t];
    assert TaskOk(w, s, k);
    AllInSwapsTail(s, n, k.todo);
    RefundAttempt(w, s, k.todo[0], k.fee, a.reply, n);
  }

  lemma RefundNextTaskOk(w: World, s: State, a: Action, n: State)
    requires a.RefundNext? && ChainValid(w.c, s.chain) && TasksOk(w, s)
    requires Takes(w, s, a, n)
    ensures a.t in n.tasks ==> TaskOk(w, n, n.tasks[a.t])
  {
    if RefundDue(s.tasks[a.t].todo[0], s.tasks[a.t].tip) {
      RefundTryTaskOk(w, s, a, n);
    } else {
      RefundSkipTaskOk(w, s, a, n);
    }
  }

  lemma PersistRefundLeaves(w: World, s: State, a: Action, n: State)
    requires a.PersistRefund? && Takes(w, s, a, n)
    ensures a.t in s.tasks && s.tasks[a.t].RefundSent? && n.chain == s.chain
    ensures a.t in n.tasks && n.tasks[a.t] == RefundPass(s.tasks[a.t].tip, s.tasks[a.t].todo, s.tasks[a.t].fee)
  {
  }

  lemma PersistRefundTaskOk(w: World, s: State, a: Action, n: State)
    requires a.PersistRefund? && TasksOk(w, s) && Takes(w, s, a, n)
    ensures a.t in n.tasks ==> TaskOk(w, n, n.tasks[a.t])
  {
    PersistRefundLeaves(w, s, a, n);
    StepSwapsGrow(w, s, a, n);
    assert TaskOk(w, s, s.tasks[a.t]);
  }

  lemma CreateActorOk(w: World, s: State, a: Action, n: State)
    requires a.BeginCreate? || a.Fund? || a.Insert? || a.Link?
    requires QuotesOk(w, s) && TasksOk(w, s)
    requires Takes(w, s, a, n)
    ensures a.t in n.tasks ==> TaskOk(w, n, n.tasks[a.t])
  {
    if a.BeginCreate? {
      NewCreateTaskOk(w, s, a, n);
    } else if a.Fund? {
      NewFundedTaskOk(w, s, a, n);
    } else {
      NewInsertedTaskOk(w, s, a, n);
    }
  }

  lemma BeginPayActorOk(w: World, s: State, a: Action, n: State)
    requires a.BeginPay? && HtlcsOk(w, s) && SwapsFunded(s) && RecordsOk(w, s)
    requires Takes(w, s, a, n)
    ensures a.t in n.tasks ==> TaskOk(w, n, n.tasks[a.t])
  {
    InvariantRecord.SwapIdOf(w, s, a.swapId);
    NewPayTaskOk(w, s, a, n);
  }

  lemma BeginClaimActorOk(w: World, s: State, a: Action, n: State)
    requires a.BeginClaim? && HtlcsOk(w, s) && SwapsFunded(s) && RecordsOk(w, s)
    requires Takes(w, s, a, n)
    ensures a.t in n.tasks ==> TaskOk(w, n, n.tasks[a.t])
  {
    InvariantRecord.SwapIdOf(w, s, a.swapId);
    NewClaimTaskOk(w, s, a, n);
  }

  lemma RefundActorOk(w: World, s: State, a: Action, n: State)
    requires a.BeginRefund? || a.RefundNext? || a.PersistRefund?
    requires ChainValid(w.c, s.chain) && TasksOk(w, s)
    requires Takes(w, s, a, n)
    ensures a.t in n.tasks ==> TaskOk(w, n, n.tasks[a.t])
  {
    if a.BeginRefund? {
      NewRefundTaskOk(w, s, a, n);
    } else if a.RefundNext? {
      RefundNextTaskOk(w, s, a, n);
    } else {
      PersistRefundTaskOk(w, s, a, n);
    }
  }

  lemma ActorTaskOk(w: World, s: State, a: Action, n: State)
    requires ChainValid(w.c, s.chain) && HtlcsOk(w, s) && SwapsFunded(s)
    requires QuotesOk(w, s) && RecordsOk(w, s) && TasksOk(w, s)
    requires Actor(a).Some? && Takes(w, s, a, n)
    ensures a.t in n.tasks ==> TaskOk(w, n, n.tasks[a.t])
  {
    if a.BeginCreate? || a.Fund? || a.Insert? || a.Link? {
      CreateActorOk(w, s, a, n);
    } else if a.BeginPay? {
      BeginPayActorOk(w, s, a, n);
    } else if a.BeginClaim? {
      BeginClaimActorOk(w, s, a, n);
    } else if a.BroadcastClaim? {
      NewClaimSentTaskOk(w, s, a, n);
    } else if a.BeginRefund? || a.RefundNext? || a.PersistRefund? {
      RefundActorOk(w, s, a, n);
    } else {
      TasksDelta(w, s, a, n);
    }
  }

  lemma TasksOkEnvironment(w: World, s: State, a: Action, n: State)
    requires Actor(a).None? && TasksOk(w, s) && TasksChange(s, a, n) && Grows(s, n)
    ensures TasksOk(w, n)
  {
    if !a.Crash? {
      TasksOkSame(w, s, n);
    }
  }

  lemma TasksOkStep(w: World, s: State, a: Action, n: State)
    requires ChainValid(w.c, s.chain) && HtlcsOk(w, s) && SwapsFunded(s) && FreshOk(s)
    requires QuotesOk(w, s) && RecordsOk(w, s) && TasksOk(w, s)
    requires Takes(w, s, a, n)
    ensures TasksOk(w, n)
  {
    TasksDelta(w, s, a, n);
    StepGrows(w, s, a, n);
    if Actor(a).Some? {
      ActorTaskOk(w, s, a, n);
      TasksOkPut(w, s, n, a.t);
    } else {
      TasksOkEnvironment(w, s, a, n);
    }
  }
}
