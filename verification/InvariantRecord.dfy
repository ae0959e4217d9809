/**
 Steps keep every record's fields coherent with each other and with the chain.
 */
module InvariantRecord {
  import opened Types
  import opened Interpreter
  import opened Transaction
  import opened Chain
  import opened Funding
  import opened Records
  import opened Store
  import opened Protocol
  import opened Invariant

  /** A claim and a refund of the same HTLC cannot both be its spender: their sequences differ. */
  lemma ClaimExcludesRefund(w: World, ch: Chain, t: SwapTerms, txid: Txid)
    requires ClaimSpent(w, ch, t, txid)
    ensures !RefundSpent(w, ch, t)
  {
    var b := Strip(ch.txs[txid]);
    assert b.inputs[0].sequence == SEQUENCE_MAX;
  }

  lemma FundedFields(w: World, ch: Chain, r: SwapRecord)
    requires FieldsOk(w, ch, r) && r.lnPreimage.None? && FundingConfirmed(ch, r.terms)
    ensures FieldsOk(w, ch, r.(status := SwapStatus.Funded))
  {
  }

  lemma PaidFields(w: World, ch: Chain, r: SwapRecord, paymentId: bytes, preimage: Hash32)
    requires FieldsOk(w, ch, r) && FundingConfirmed(ch, r.terms)
    requires w.c.sha256(preimage) == r.terms.paymentHash
    ensures FieldsOk(w, ch, r.(lnPaymentId := Some(paymentId), lnPreimage := Some(preimage), status := Paid))
  {
  }

  lemma ClaimedFields(w: World, ch: Chain, r: SwapRecord, txid: Txid)
    requires FieldsOk(w, ch, r) && r.lnPreimage.Some? && ClaimSpent(w, ch, r.terms, txid)
    ensures FieldsOk(w, ch, r.(claimTxid := Some(txid), status := Claimed))
  {
  }

  lemma RefundedFields(w: World, ch: Chain, r: SwapRecord)
    requires FieldsOk(w, ch, r) && RefundSpent(w, ch, r.terms)
    ensures FieldsOk(w, ch, r.(status := Refunded))
  {
    if r.claimTxid.Some? {
      ClaimExcludesRefund(w, ch, r.terms, r.claimTxid.value);
    }
  }

  lemma RecordsOkPut(w: World, s: State, n: State, id: Id, r: SwapRecord)
    requires RecordsOk(w, s) && Extends(s.chain, n.chain)
    requires n.swaps == s.swaps[id := r] && FieldsOk(w, n.chain, r)
    ensures RecordsOk(w, n)
  {
    forall x | x in n.swaps
      ensures FieldsOk(w, n.chain, n.swaps[x])
    {
      if x != id {
        FieldsOkStable(w, s.chain, n.chain, s.swaps[x]);
      }
    }
  }

  lemma RecordsOkSame(w: World, s: State, n: State)
    requires RecordsOk(w, s) && Extends(s.chain, n.chain) && n.swaps == s.swaps
    ensures RecordsOk(w, n)
  {
    forall x | x in n.swaps
      ensures FieldsOk(w, n.chain, n.swaps[x])
    {
      FieldsOkStable(w, s.chain, n.chain, s.swaps[x]);
    }
  }

  lemma RecordsOkInsert(w: World, s: State, a: Action, n: State)
    requires a.Insert? && RecordsOk(w, s) && TasksOk(w, s) && Takes(w, s, a, n)
    ensures RecordsOk(w, n)
  {
    var r := s.tasks[a.t].record;
    assert TaskOk(w, s, s.tasks[a.t]);
    RecordsOkPut(w, s, n, r.terms.swapId, r);
  }

  lemma RecordsOkMark(w: World, s: State, a: Action, n: State)
    requires a.MarkFunded? && RecordsOk(w, s) && TasksOk(w, s) && CreatorsOk(s)
    requires Takes(w, s, a, n)
    ensures RecordsOk(w, n)
  {
    var t := s.tasks[a.t].terms;
    assert TaskOk(w, s, s.tasks[a.t]);
    assert Creating(s.tasks[a.t]) == Some(t.swapId);
    ConfirmedForever(s.chain, s.chain, t.fundingTxid, a.tip, s.chain.height, t.minFundingConfs);
    FundedFields(w, s.chain, s.swaps[t.swapId]);
    RecordsOkPut(w, s, n, t.swapId, s.swaps[t.swapId].(status := SwapStatus.Funded));
  }

  lemma PaidTaskFields(w: World, s: State, k: Task, paymentId: bytes, preimage: Hash32)
    requires k.PayRead? && RecordsOk(w, s) && TaskOk(w, s, k) && w.c.sha256(preimage) == k.terms.paymentHash
    ensures var r := s.swaps[k.terms.swapId];
            FieldsOk(w, s.chain, r.(lnPaymentId := Some(paymentId), lnPreimage := Some(preimage), status := Paid))
  {
    PaidFields(w, s.chain, s.swaps[k.terms.swapId], paymentId, preimage);
  }

  lemma RecordsOkPaid(w: World, s: State, a: Action, n: State)
    requires a.PersistPayment? && RecordsOk(w, s) && TasksOk(w, s)
    requires Takes(w, s, a, n)
    ensures RecordsOk(w, n)
  {
    var k := s.tasks[a.t];
    PaidTaskFields(w, s, k, a.paymentId, a.preimage);
    RecordsOkPut(w, s, n, k.terms.swapId, UpdateRecord(s.swaps[k.terms.swapId], UpdateOf(s, a).value));
  }

  lemma ClaimedTaskFields(w: World, s: State, k: Task)
    requires k.ClaimSent? && RecordsOk(w, s) && TaskOk(w, s, k)
    ensures FieldsOk(w, s.chain, s.swaps[k.terms.swapId].(claimTxid := Some(k.txid), status := Claimed))
  {
    ClaimedFields(w, s.chain, s.swaps[k.terms.swapId], k.txid);
  }

  lemma RecordsOkClaimed(w: World, s: State, a: Action, n: State)
    requires a.PersistClaim? && RecordsOk(w, s) && TasksOk(w, s)
    requires Takes(w, s, a, n)
    ensures RecordsOk(w, n)
  {
    var k := s.tasks[a.t];
    ClaimedTaskFields(w, s, k);
    RecordsOkPut(w, s, n, k.terms.swapId, UpdateRecord(s.swaps[k.terms.swapId], UpdateOf(s, a).value));
  }

  lemma RecordsOkRefunded(w: World, s: State, a: Action, n: State)
    requires a.PersistRefund? && RecordsOk(w, s) && TasksOk(w, s)
    requires Takes(w, s, a, n)
    ensures RecordsOk(w, n)
  {
    var t := s.tasks[a.t].terms;
    assert TaskOk(w, s, s.tasks[a.t]);
    RefundedFields(w, s.chain, s.swaps[t.swapId]);
    RecordsOkPut(w, s, n, t.swapId, UpdateRecord(s.swaps[t.swapId], UpdateOf(s, a).value));
  }

  lemma RecordsOkOther(w: World, s: State, a: Action, n: State)
    requires !WritesSwaps(a) && ChainValid(w.c, s.chain) && RecordsOk(w, s)
    requires Takes(w, s, a, n)
    ensures RecordsOk(w, n)
  {
    StepExtendsChain(w, s, a, n);
    OthersKeepSwaps(w, s, a, n);
    RecordsOkSame(w, s, n);
  }

  lemma RecordsOkStep(w: World, s: State, a: Action, n: State)
    requires ChainValid(w.c, s.chain) && RecordsOk(w, s) && TasksOk(w, s) && CreatorsOk(s)
    requires Takes(w, s, a, n)
    ensures RecordsOk(w, n)
  {
    if !WritesSwaps(a) {
      RecordsOkOther(w, s, a, n);
    } else if a.Insert? {
      RecordsOkInsert(w, s, a, n);
    } else if a.MarkFunded? {
      RecordsOkMark(w, s, a, n);
    } else if a.PersistPayment? {
      RecordsOkPaid(w, s, a, n);
    } else if a.PersistClaim? {
      RecordsOkClaimed(w, s, a, n);
    } else {
      RecordsOkRefunded(w, s, a, n);
    }
  }

  // ----- Funded is written once, before any payment

  /** No create_swap call is still working on this swap. */
  predicate NotCreating(s: State, id: Id) {
    forall u :: u in s.tasks ==> Creating(s.tasks[u]) != Some(id)
  }

  /** The creators and payers of `n` were creators of the same swaps and payers in `s`. */
  predicate CreatorTasksKept(s: State, n: State) {
    forall u :: u in n.tasks && (Creating(n.tasks[u]).Some? || n.tasks[u].PayRead?) ==>
      u in s.tasks && Creating(n.tasks[u]) == Creating(s.tasks[u]) && (n.tasks[u].PayRead? ==> n.tasks[u] == s.tasks[u])
  }

  /** Records are the same, up to status Refunded, except perhaps for swaps no call is creating. */
  predicate CreatedRecordsKept(s: State, n: State) {
    forall id :: id in s.swaps && !NotCreating(s, id) ==>
      id in n.swaps && n.swaps[id].lnPreimage == s.swaps[id].lnPreimage
      && (n.swaps[id].status == s.swaps[id].status || n.swaps[id].status.Refunded?)
  }

  lemma CreatorsOkFramed(s: State, n: State)
    requires CreatorsOk(s) && CreatorTasksKept(s, n) && CreatedRecordsKept(s, n)
    ensures CreatorsOk(n)
  {
  }

  lemma PayersPayOthers(w: World, s: State, id: Id)
    requires TasksOk(w, s) && id !in s.swaps
    ensures forall u :: u in s.tasks && s.tasks[u].PayRead? ==> s.tasks[u].terms.swapId != id
  {
    forall u | u in s.tasks && s.tasks[u].PayRead?
      ensures s.tasks[u].terms.swapId != id
    {
      assert TaskOk(w, s, s.tasks[u]);
    }
  }

  lemma CreatorsOkNewRow(s: State, n: State, t: TaskId, r: SwapRecord)
    requires CreatorsOk(s) && r.terms.swapId !in s.swaps && r == NewRecord(r.terms)
    requires forall u :: u in s.tasks && s.tasks[u].PayRead? ==> s.tasks[u].terms.swapId != r.terms.swapId
    requires n.swaps == s.swaps[r.terms.swapId := r]
    requires n.tasks == s.tasks[t := CreateInserted(r.terms.swapId, r.terms.quoteId)]
    ensures CreatorsOk(n)
  {
  }

  lemma CreatorsOkInsert(w: World, s: State, a: Action, n: State)
    requires a.Insert? && CreatorsOk(s) && TasksOk(w, s) && Takes(w, s, a, n)
    ensures CreatorsOk(n)
  {
    var r := s.tasks[a.t].record;
    assert TaskOk(w, s, s.tasks[a.t]);
    PayersPayOthers(w, s, r.terms.swapId);
    CreatorsOkNewRow(s, n, a.t, r);
  }

  lemma CreatorsOkMark(w: World, s: State, a: Action, n: State)
    requires a.MarkFunded? && CreatorsOk(s) && Takes(w, s, a, n)
    ensures CreatorsOk(n)
  {
    assert Creating(s.tasks[a.t]) == Some(s.tasks[a.t].terms.swapId);
  }

  lemma SwapIdOf(w: World, s: State, id: Id)
    requires SwapsFunded(s) && HtlcsOk(w, s) && id in s.swaps
    ensures s.swaps[id].terms.swapId == id
  {
    assert HtlcOk(w, s.chain, s.funded[id]);
  }

  lemma CreatorsOkNewPayer(s: State, n: State, t: TaskId, terms: SwapTerms)
    requires CreatorsOk(s) && NotCreating(s, terms.swapId)
    requires n.swaps == s.swaps && n.tasks == s.tasks[t := PayRead(terms)]
    ensures CreatorsOk(n)
  {
  }

  /** Payment begins only on a Funded swap, which no call is still creating. */
  lemma CreatorsOkBeginPay(w: World, s: State, a: Action, n: State)
    requires a.BeginPay? && CreatorsOk(s) && Takes(w, s, a, n)
    requires s.swaps[a.swapId].terms.swapId == a.swapId
    ensures CreatorsOk(n)
  {
    CreatorsOkNewPayer(s, n, a.t, s.swaps[a.swapId].terms);
  }

  lemma CreatorsOkPaid(w: World, s: State, a: Action, n: State)
    requires a.PersistPayment? && CreatorsOk(s) && Takes(w, s, a, n)
    ensures CreatorsOk(n)
  {
    assert NotCreating(s, s.tasks[a.t].terms.swapId);
    CreatorsOkFramed(s, n);
  }

  lemma ClaimerCreatesNothing(w: World, s: State, t: TaskId)
    requires CreatorsOk(s) && TasksOk(w, s) && t in s.tasks && s.tasks[t].ClaimSent?
    ensures NotCreating(s, s.tasks[t].terms.swapId)
  {
    assert TaskOk(w, s, s.tasks[t]);
  }

  lemma ClaimFrames(w: World, s: State, a: Action, n: State)
    requires a.PersistClaim? && Takes(w, s, a, n) && NotCreating(s, s.tasks[a.t].terms.swapId)
    ensures CreatorTasksKept(s, n) && CreatedRecordsKept(s, n)
  {
  }

  lemma CreatorsOkClaimed(w: World, s: State, a: Action, n: State)
    requires a.PersistClaim? && CreatorsOk(s) && TasksOk(w, s) && Takes(w, s, a, n)
    ensures CreatorsOk(n)
  {
    ClaimerCreatesNothing(w, s, a.t);
    ClaimFrames(w, s, a, n);
    CreatorsOkFramed(s, n);
  }

  lemma CreatorsOkLink(w: World, s: State, a: Action, n: State)
    requires a.Link? && CreatorsOk(s) && TasksOk(w, s) && Takes(w, s, a, n)
    ensures CreatorsOk(n)
  {
    assert TaskOk(w, s, s.tasks[a.t]);
    assert Creating(n.tasks[a.t]) == Creating(s.tasks[a.t]);
    CreatorsOkFramed(s, n);
  }

  predicate TouchesCreators(a: Action) {
    a.Insert? || a.MarkFunded? || a.BeginPay? || a.PersistPayment? || a.PersistClaim? || a.Link?
  }

  lemma CreatorTasksKeptStep(s: State, a: Action, n: State)
    requires !TouchesCreators(a) && TasksChange(s, a, n)
    ensures CreatorTasksKept(s, n)
  {
  }

  lemma CreatorsOkOther(w: World, s: State, a: Action, n: State)
    requires !TouchesCreators(a) && CreatorsOk(s) && Takes(w, s, a, n)
    ensures CreatorsOk(n)
  {
    TasksDelta(w, s, a, n);
    CreatorTasksKeptStep(s, a, n);
    if !a.PersistRefund? {
      OthersKeepSwaps(w, s, a, n);
    }
    CreatorsOkFramed(s, n);
  }

  lemma CreatorsOkStep(w: World, s: State, a: Action, n: State)
    requires CreatorsOk(s) && TasksOk(w, s) && SwapsFunded(s) && HtlcsOk(w, s)
    requires Takes(w, s, a, n)
    ensures CreatorsOk(n)
  {
    if !TouchesCreators(a) {
      CreatorsOkOther(w, s, a, n);
    } else if a.Insert? {
      CreatorsOkInsert(w, s, a, n);
    } else if a.MarkFunded? {
      CreatorsOkMark(w, s, a, n);
    } else if a.BeginPay? {
      SwapIdOf(w, s, a.swapId);
      CreatorsOkBeginPay(w, s, a, n);
    } else if a.PersistPayment? {
      CreatorsOkPaid(w, s, a, n);
    } else if a.PersistClaim? {
      CreatorsOkClaimed(w, s, a, n);
    } else {
      CreatorsOkLink(w, s, a, n);
    }
  }
}
