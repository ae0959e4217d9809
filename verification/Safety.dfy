/**
 Safety of every run, with any interleaving of handlers, refund passes, blocks, foreign
 transactions and crashes.
 */
module Safety {
  import opened Types
  import opened Interpreter
  import opened HtlcScript
  import opened HtlcMeaning
  import opened Transaction
  import opened HtlcSpend
  import opened Chain
  import opened Records
  import opened Offer
  import opened Protocol
  import opened Invariant
  import InvariantHtlc
  import InvariantRecord
  import InvariantTask
  import InvariantSigned

  lemma InvInitial(w: World, s: State)
    requires Initial(w, s)
    ensures Inv(w, s)
  {
  }

  lemma InvStep(w: World, s: State, a: Action, n: State)
    requires WorldOk(w) && Inv(w, s) && Takes(w, s, a, n)
    ensures Inv(w, n)
  {
    StepExtendsChain(w, s, a, n);
    InvariantHtlc.HtlcsOkStep(w, s, a, n);
    InvariantHtlc.FundingsDistinctStep(w, s, a, n);
    InvariantHtlc.SwapsFundedStep(w, s, a, n);
    InvariantHtlc.LocksOkStep(w, s, a, n);
    InvariantHtlc.FreshOkStep(w, s, a, n);
    InvariantRecord.RecordsOkStep(w, s, a, n);
    InvariantRecord.CreatorsOkStep(w, s, a, n);
    InvariantTask.QuotesOkStep(w, s, a, n);
    InvariantTask.TasksOkStep(w, s, a, n);
    InvariantSigned.AllSignedOkStep(w, s, a, n);
    InvariantSigned.OwnedSpendsSignedStep(w, s, a, n);
  }

  lemma SnocKeepsSteps(w: World, path: seq<State>, acts: seq<Action>, a: Action, n: State, i: nat)
    requires |path| == |acts| + 1 && StepAt(w, path, acts, i)
    ensures StepAt(w, path + [n], acts + [a], i)
  {
    assert (acts + [a])[i] == acts[i] && (path + [n])[i] == path[i] && (path + [n])[i + 1] == path[i + 1];
  }

  lemma SnocStep(w: World, path: seq<State>, acts: seq<Action>, a: Action, n: State)
    requires |path| == |acts| + 1 && Takes(w, path[|path| - 1], a, n)
    ensures StepAt(w, path + [n], acts + [a], |acts|)
  {
    assert (acts + [a])[|acts|] == a && (path + [n])[|acts|] == path[|acts|] && (path + [n])[|acts| + 1] == n;
  }

  /** One more step makes a longer path. */
  lemma PathSnoc(w: World, path: seq<State>, acts: seq<Action>, a: Action, n: State)
    requires IsPath(w, path, acts) && Takes(w, path[|path| - 1], a, n)
    ensures IsPath(w, path + [n], acts + [a])
  {
    forall i: nat | i < |acts + [a]|
      ensures StepAt(w, path + [n], acts + [a], i)
    {
      if i < |acts| {
        SnocKeepsSteps(w, path, acts, a, n, i);
      } else {
        SnocStep(w, path, acts, a, n);
      }
    }
  }

  /** The invariant holds in every state of every run. */
  lemma {:induction false} RunKeepsInv(w: World, run: seq<State>, acts: seq<Action>, i: nat)
    requires WorldOk(w) && IsRun(w, run, acts) && i < |run|
    ensures Inv(w, run[i])
  {
    if i == 0 {
      InvInitial(w, run[0]);
    } else {
      RunKeepsInv(w, run, acts, i - 1);
      RunStep(w, run, acts, i);
      InvStep(w, run[i - 1], acts[i - 1], run[i]);
    }
  }

  /** Nothing on the chain, no swap and no quoted term is ever undone. */
  lemma {:induction false} RunGrows(w: World, run: seq<State>, acts: seq<Action>, i: nat, j: nat)
    requires WorldOk(w) && IsRun(w, run, acts) && i <= j < |run|
    ensures Grows(run[i], run[j])
  {
    if i < j {
      RunGrows(w, run, acts, i, j - 1);
      RunStepGrows(w, run, acts, j);
      var a, b, d := run[i], run[j - 1], run[j];
      assert Grows(a, d) by {
        GrowsTransitive(a, b, d);
      }
    }
  }

  lemma FundedStays(w: World, run: seq<State>, acts: seq<Action>, i: nat, j: nat, id: Id)
    requires WorldOk(w) && IsRun(w, run, acts) && i <= j < |run| && id in run[i].funded
    ensures id in run[j].funded && run[j].funded[id] == run[i].funded[id]
  {
    RunGrows(w, run, acts, i, j);
  }

  lemma RunStepGrows(w: World, run: seq<State>, acts: seq<Action>, i: nat)
    requires WorldOk(w) && IsRun(w, run, acts) && 0 < i < |run|
    ensures Grows(run[i - 1], run[i])
  {
    RunKeepsInv(w, run, acts, i - 1);
    RunStep(w, run, acts, i);
    InvStepGrows(w, run[i - 1], acts[i - 1], run[i]);
  }

  lemma RunStep(w: World, run: seq<State>, acts: seq<Action>, i: nat)
    requires IsRun(w, run, acts) && 0 < i < |run|
    ensures Takes(w, run[i - 1], acts[i - 1], run[i])
  {
    assert StepAt(w, run, acts, i - 1);
  }

  lemma InvStepGrows(w: World, s: State, a: Action, n: State)
    requires Inv(w, s) && Takes(w, s, a, n)
    ensures Grows(s, n)
  {
    StepGrows(w, s, a, n);
  }

  lemma GrowsTransitive(a: State, b: State, d: State)
    requires Grows(a, b) && Grows(b, d)
    ensures Grows(a, d)
  {
  }

  /** Between its actions `b` and `k` the task `t` takes no other, and no crash ends it. */
  predicate SameCall(acts: seq<Action>, b: nat, k: nat, t: TaskId) {
    && b < k <= |acts| && Actor(acts[b]) == Some(t)
    && forall i {:trigger acts[i]} :: b < i < k ==> Actor(acts[i]) != Some(t) && !acts[i].Crash?
  }

  /** Meanwhile it remembers the same. */
  lemma {:induction false} CallRemembers(w: World, run: seq<State>, acts: seq<Action>, b: nat, k: nat, t: TaskId)
    requires IsRun(w, run, acts) && SameCall(acts, b, k, t) && t in run[b + 1].tasks
    ensures t in run[k].tasks && run[k].tasks[t] == run[b + 1].tasks[t]
  {
    if b + 1 < k {
      CallRemembers(w, run, acts, b, k - 1, t);
      OthersLeaveTask(w, run, acts, k, t);
    }
  }

  lemma OthersLeaveTask(w: World, run: seq<State>, acts: seq<Action>, i: nat, t: TaskId)
    requires IsRun(w, run, acts) && 0 < i < |run| && t in run[i - 1].tasks
    requires Actor(acts[i - 1]) != Some(t) && !acts[i - 1].Crash?
    ensures t in run[i].tasks && run[i].tasks[t] == run[i - 1].tasks[t]
  {
    RunStep(w, run, acts, i);
    TasksDelta(w, run[i - 1], acts[i - 1], run[i]);
  }

  // ----- records

  /**
   Field coherence of every stored record in every reachable state: the preimage opens the
   payment hash, a claim txid names the transaction that spent both outputs, and each
   status has its evidence on the chain.
   */
  lemma RecordsCoherent(w: World, run: seq<State>, acts: seq<Action>, i: nat, id: Id)
    requires WorldOk(w) && IsRun(w, run, acts) && i < |run| && id in run[i].swaps
    ensures var s := run[i]; var r := s.swaps[id];
            && !r.status.Failed?
            && (r.lnPreimage.Some? <==> r.lnPaymentId.Some?)
            && (r.lnPreimage.Some? ==>
                  && |r.lnPreimage.value| == 32 && w.c.sha256(r.lnPreimage.value) == r.terms.paymentHash
                  && (r.status.Paid? || r.status.Claimed? || r.status.Refunded?))
            && (r.claimTxid.Some? ==>
                  && r.lnPreimage.Some? && (r.status.Paid? || r.status.Claimed?)
                  && SpentTogether(s.chain, r.terms, r.claimTxid.value))
            && (r.status.Claimed? ==> r.claimTxid.Some?)
            && (r.status.Refunded? ==> r.claimTxid.None? && RefundSpent(w, s.chain, r.terms))
            && (r.status.Funded? || r.lnPreimage.Some? ==> FundingConfirmed(s.chain, r.terms))
  {
    RunKeepsInv(w, run, acts, i);
    assert FieldsOk(w, run[i].chain, run[i].swaps[id]);
  }

  /** The stored script, read back, has the stored hash and height, and both outputs pay to its address. */
  predicate ScriptMatches(ch: Chain, t: SwapTerms) {
    var r := Parse(t.witnessScript);
    && r.Ok? && r.value.paymentHash == t.paymentHash && r.value.refundLockHeight == t.refundLockHeight
    && HasOutput(ch, AssetOut(t)) && OutScript(OutputAt(ch, AssetOut(t))) == t.p2wshAddress.script
    && HasOutput(ch, LbtcOut(t)) && OutScript(OutputAt(ch, LbtcOut(t))) == t.p2wshAddress.script
  }

  /**
   The funding that the claim handler and the refund worker rebuild from a stored record
   is what the chain holds: two different outputs, with the assets and amounts both sign.
   */
  predicate RebuildsFunding(w: World, ch: Chain, t: SwapTerms) {
    var funding := FundingOf(t, w.policyAsset);
    && AssetOutPoint(funding) != LbtcOutPoint(funding)
    && HasOutput(ch, AssetOutPoint(funding))
    && OutputAt(ch, AssetOutPoint(funding)) == Explicit(t.assetId, t.assetAmount, P2wshScript(w.c, t.witnessScript))
    && HasOutput(ch, LbtcOutPoint(funding))
    && OutputAt(ch, LbtcOutPoint(funding)) == Explicit(w.policyAsset, t.feeSubsidy, P2wshScript(w.c, t.witnessScript))
    && t.assetAmount > 0 && t.feeSubsidy > 0
  }

  lemma RecordsDescribeChain(w: World, run: seq<State>, acts: seq<Action>, i: nat, id: Id)
    requires WorldOk(w) && IsRun(w, run, acts) && i < |run| && id in run[i].swaps
    ensures RebuildsFunding(w, run[i].chain, run[i].swaps[id].terms)
  {
    RunKeepsInv(w, run, acts, i);
    FundedRebuilds(w, run[i].chain, run[i].funded[id]);
  }

  lemma FundedRebuilds(w: World, ch: Chain, f: FundedHtlc)
    requires HtlcOk(w, ch, f)
    ensures RebuildsFunding(w, ch, f.terms)
  {
  }

  lemma FundedScriptMatches(w: World, ch: Chain, f: FundedHtlc)
    requires HtlcOk(w, ch, f)
    ensures ScriptMatches(ch, f.terms)
  {
    ParseUndoesPrint(SpecOf(w, f).value);
  }

  /** The payment hash a preimage must open is the one inside the script the chain enforces. */
  lemma StoredScriptMatches(w: World, run: seq<State>, acts: seq<Action>, i: nat, id: Id)
    requires WorldOk(w) && IsRun(w, run, acts) && i < |run| && id in run[i].swaps
    ensures ScriptMatches(run[i].chain, run[i].swaps[id].terms)
  {
    RunKeepsInv(w, run, acts, i);
    FundedScriptMatches(w, run[i].chain, run[i].funded[id]);
  }

  /** Two preimages the invariant allows for one swap are the same. */
  lemma PreimageFixed(w: World, s: State, n: State, id: Id)
    requires Ideal(w.c) && RecordsOk(w, s) && RecordsOk(w, n) && SwapsGrow(s, n)
    requires id in s.swaps && s.swaps[id].lnPreimage.Some?
    ensures id in n.swaps && n.swaps[id].lnPreimage == s.swaps[id].lnPreimage
  {
    assert FieldsOk(w, s.chain, s.swaps[id]) && FieldsOk(w, n.chain, n.swaps[id]);
  }

  /** A stored preimage never changes, even with racing payment calls and crashes. */
  lemma PreimageNeverChanges(w: World, run: seq<State>, acts: seq<Action>, i: nat, j: nat, id: Id)
    requires WorldOk(w) && IsRun(w, run, acts) && i <= j < |run|
    requires id in run[i].swaps && run[i].swaps[id].lnPreimage.Some?
    ensures id in run[j].swaps && run[j].swaps[id].lnPreimage == run[i].swaps[id].lnPreimage
  {
    RunKeepsInv(w, run, acts, i);
    RunKeepsInv(w, run, acts, j);
    RunGrows(w, run, acts, i, j);
    PreimageFixed(w, run[i], run[j], id);
  }

  /** A claim txid, once some state stores one, is the only one any later state stores. */
  lemma ClaimTxidUnique(w: World, run: seq<State>, acts: seq<Action>, i: nat, j: nat, id: Id)
    requires WorldOk(w) && IsRun(w, run, acts) && i <= j < |run|
    requires id in run[i].swaps && run[i].swaps[id].claimTxid.Some?
    requires id in run[j].swaps && run[j].swaps[id].claimTxid.Some?
    ensures run[j].swaps[id].claimTxid == run[i].swaps[id].claimTxid
  {
    RunKeepsInv(w, run, acts, i);
    RunKeepsInv(w, run, acts, j);
    RunGrows(w, run, acts, i, j);
    ClaimTxidFixed(w, run[i], run[j], id);
  }

  lemma ClaimTxidFixed(w: World, s: State, n: State, id: Id)
    requires RecordsOk(w, s) && RecordsOk(w, n) && Grows(s, n)
    requires id in s.swaps && s.swaps[id].claimTxid.Some?
    requires id in n.swaps && n.swaps[id].claimTxid.Some?
    ensures n.swaps[id].claimTxid == s.swaps[id].claimTxid
  {
    assert FieldsOk(w, s.chain, s.swaps[id]) && FieldsOk(w, n.chain, n.swaps[id]);
  }

  // ----- spends

  /**
   Nothing has spent the HTLC, or one transaction has spent both outputs: its claim, and
   the preimage is stored, or its refund, and the lock height was reached.
   */
  ghost predicate UnspentOrSpentOnce(w: World, s: State, id: Id)
    requires id in s.funded
  {
    var t := s.funded[id].terms;
    || (AssetOut(t) !in s.chain.spent && LbtcOut(t) !in s.chain.spent)
    || (AssetOut(t) in s.chain.spent && SpentBy(w, s, id, s.chain.spent[AssetOut(t)]))
  }

  ghost predicate SpentBy(w: World, s: State, id: Id, txid: Txid)
    requires id in s.funded
  {
    var t := s.funded[id].terms;
    && SpentTogether(s.chain, t, txid)
    && SignedOk(w, s, Strip(s.chain.txs[txid]), Some(id))
  }

  lemma SpendBodyPrevs(w: World, t: SwapTerms, b: Tx)
    requires IsClaimBody(w, t, b) || IsRefundBody(w, t, b)
    ensures |b.inputs| == 2 && b.inputs[0].prev == AssetOut(t) && b.inputs[1].prev == LbtcOut(t)
  {
  }

  lemma SpenderSpends(c: Crypto, ch: Chain, op: OutPoint) returns (i: nat)
    requires SpendsJustified(c, ch) && op in ch.spent
    ensures ch.spent[op] in ch.txs && i < |ch.txs[ch.spent[op]].inputs|
    ensures Strip(ch.txs[ch.spent[op]]).inputs[i].prev == op
  {
    i :| SpendJustified(c, ch, op, i);
  }

  lemma HtlcOutputIsScriptHash(w: World, ch: Chain, f: FundedHtlc, op: OutPoint)
    requires HtlcOk(w, ch, f) && IsOutPointOf(op, f.terms)
    ensures HasOutput(ch, op) && IsScriptHashProgram(OutScript(OutputAt(ch, op)))
  {
  }

  lemma SwapOfOutPoint(s: State, id: Id, other: Id, op: OutPoint)
    requires FundingsDistinct(s) && id in s.funded && other in s.funded
    requires IsOutPointOf(op, s.funded[id].terms) && IsOutPointOf(op, s.funded[other].terms)
    ensures id == other
  {
  }

  /** A signed transaction that touches one outpoint of an HTLC is a claim or refund of that HTLC. */
  lemma OriginSpends(w: World, s: State, id: Id, other: Id, op: OutPoint, b: Tx, i: nat)
    requires FundingsDistinct(s) && id in s.funded && other in s.funded && IsOutPointOf(op, s.funded[id].terms)
    requires IsClaimBody(w, s.funded[other].terms, b) || IsRefundBody(w, s.funded[other].terms, b)
    requires i < |b.inputs| && b.inputs[i].prev == op
    ensures other == id
  {
    SpendBodyPrevs(w, s.funded[other].terms, b);
    assert IsOutPointOf(op, s.funded[other].terms);
    SwapOfOutPoint(s, id, other, op);
  }

  lemma SignedSpenderIsOwn(w: World, s: State, id: Id, op: OutPoint, b: Tx, i: nat)
    requires HtlcsOk(w, s) && FundingsDistinct(s)
    requires b in s.signed && SignedOk(w, s, b, s.signed[b])
    requires id in s.funded && IsOutPointOf(op, s.funded[id].terms) && i < |b.inputs| && b.inputs[i].prev == op
    ensures s.signed[b] == Some(id)
  {
    HtlcOutputIsScriptHash(w, s.chain, s.funded[id], op);
    if s.signed[b].Some? {
      OriginSpends(w, s, id, s.signed[b].value, op, b, i);
    }
  }

  /** Such a transaction spends both outputs. */
  lemma OwnSpenderSpendsBoth(w: World, ch: Chain, t: SwapTerms, txid: Txid)
    requires InputsRecorded(ch) && txid in ch.txs
    requires IsClaimBody(w, t, Strip(ch.txs[txid])) || IsRefundBody(w, t, Strip(ch.txs[txid]))
    ensures SpentTogether(ch, t, txid)
  {
    var tx := ch.txs[txid];
    SpendBodyPrevs(w, t, Strip(tx));
    assert tx.inputs[0].prev == Strip(tx).inputs[0].prev && tx.inputs[1].prev == Strip(tx).inputs[1].prev;
  }

  /** Whoever holds the keys: a signed transaction that spends an outpoint is the HTLC's own spend. */
  lemma SignedSpendIsOwn(w: World, s: State, id: Id, op: OutPoint)
    requires ChainValid(w.c, s.chain) && HtlcsOk(w, s) && FundingsDistinct(s) && AllSignedOk(w, s)
    requires id in s.funded && IsOutPointOf(op, s.funded[id].terms) && op in s.chain.spent
    requires s.chain.spent[op] in s.chain.txs && Strip(s.chain.txs[s.chain.spent[op]]) in s.signed
    ensures SpentBy(w, s, id, s.chain.spent[op])
    ensures s.signed[Strip(s.chain.txs[s.chain.spent[op]])] == Some(id)
  {
    var b := Strip(s.chain.txs[s.chain.spent[op]]);
    var i := SpenderSpends(w.c, s.chain, op);
    assert SignedOk(w, s, b, s.signed[b]);
    SignedSpenderIsOwn(w, s, id, op, b, i);
    OwnSpenderSpendsBoth(w, s.chain, s.funded[id].terms, s.chain.spent[op]);
  }

  lemma OwnedHtlcSpentOnceAt(w: World, s: State, id: Id)
    requires ChainValid(w.c, s.chain) && HtlcsOk(w, s) && FundingsDistinct(s)
    requires AllSignedOk(w, s) && OwnedSpendsSigned(w, s)
    requires id in s.funded && BothKeysOwned(w, s.funded[id])
    ensures UnspentOrSpentOnce(w, s, id)
  {
    var t := s.funded[id].terms;
    forall op | IsOutPointOf(op, t) && op in s.chain.spent
      ensures SpentBy(w, s, id, s.chain.spent[op])
    {
      SignedSpendIsOwn(w, s, id, op);
    }
    assert IsOutPointOf(AssetOut(t), t) && IsOutPointOf(LbtcOut(t), t);
  }

  /**
   If the wallet holds both keys, each HTLC's two outputs are spent at most once and
   together: by a claim paying the claimer, and then a preimage that opens the payment
   hash is stored, or by a refund paying the refunder, after the lock height.
   */
  lemma OwnedHtlcSpentOnce(w: World, run: seq<State>, acts: seq<Action>, i: nat, id: Id)
    requires WorldOk(w) && IsRun(w, run, acts) && i < |run|
    requires id in run[i].funded && BothKeysOwned(w, run[i].funded[id])
    ensures UnspentOrSpentOnce(w, run[i], id)
  {
    RunKeepsInv(w, run, acts, i);
    OwnedHtlcSpentOnceAt(w, run[i], id);
  }

  /** The stack by which `tx` spent an HTLC output. */
  ghost predicate OpenedBy(w: World, spec: HtlcSpec, tx: Tx, i: nat, value: u64, stack: seq<bytes>)
    requires i < |tx.inputs|
  {
    var env := ScriptEnvOf(w.c, tx, i, WitnessScript(spec), value);
    && tx.inputs[i].scriptWitness == stack + [WitnessScript(spec)]
    && (ClaimStack(env, spec, stack) || RefundStack(env, spec, stack))
  }

  /** A refund-path spend that the chain let through proves the lock height passed. */
  lemma RefundPathWaits(w: World, ch: Chain, spec: HtlcSpec, txid: Txid, i: nat, value: u64, stack: seq<bytes>)
    requires TxsFiled(w.c, ch) && txid in ch.txs && i < |ch.txs[txid].inputs|
    requires RefundStack(ScriptEnvOf(w.c, ch.txs[txid], i, WitnessScript(spec), value), spec, stack)
    requires spec.refundLockHeight < LOCKTIME_THRESHOLD
    ensures spec.refundLockHeight <= ch.height
  {
    var tx := ch.txs[txid];
    assert Final(ch, tx);
    assert tx.inputs[i].sequence != SEQUENCE_MAX;
  }

  /**
   Whoever spends an HTLC output, in any reachable chain and with any keys, either shows
   the preimage with the claimer's signature, or the refunder's signature once `delta`
   blocks have passed the tip at which the swap was created.
   */
  lemma EverySpendIsClaimOrLateRefund(w: World, run: seq<State>, acts: seq<Action>, k: nat, id: Id, op: OutPoint)
    returns (i: nat, stack: seq<bytes>)
    requires WorldOk(w) && IsRun(w, run, acts) && k < |run|
    requires id in run[k].funded && IsOutPointOf(op, run[k].funded[id].terms) && op in run[k].chain.spent
    ensures var ch := run[k].chain; var f := run[k].funded[id];
            && SpecOf(w, f).Ok? && HasOutput(ch, op) && ch.spent[op] in ch.txs
            && var tx := ch.txs[ch.spent[op]]; var spec := SpecOf(w, f).value;
               && i < |tx.inputs| && tx.inputs[i].prev == op
               && OpenedBy(w, spec, tx, i, Amount(OutputAt(ch, op)), stack)
               && (|stack| == 3 && f.terms.refundLockHeight < LOCKTIME_THRESHOLD ==> f.tip + f.delta <= ch.height)
  {
    RunKeepsInv(w, run, acts, k);
    i, stack := SpendIsClaimOrLateRefund(w, run[k].chain, run[k].funded[id], op);
  }

  lemma SpendIsClaimOrLateRefund(w: World, ch: Chain, f: FundedHtlc, op: OutPoint)
    returns (i: nat, stack: seq<bytes>)
    requires Ideal(w.c) && TxsFiled(w.c, ch) && SpendsJustified(w.c, ch)
    requires HtlcOk(w, ch, f) && IsOutPointOf(op, f.terms) && op in ch.spent
    ensures HasOutput(ch, op) && ch.spent[op] in ch.txs
    ensures var tx := ch.txs[ch.spent[op]];
            && i < |tx.inputs| && tx.inputs[i].prev == op
            && OpenedBy(w, SpecOf(w, f).value, tx, i, Amount(OutputAt(ch, op)), stack)
            && (|stack| == 3 && f.terms.refundLockHeight < LOCKTIME_THRESHOLD ==> f.tip + f.delta <= ch.height)
  {
    i :| SpendJustified(w.c, ch, op, i);
    var spec := SpecOf(w, f).value;
    stack := InvariantSigned.SpendShowsStack(w.c, spec, ch.txs[ch.spent[op]], i, OutputAt(ch, op));
    if |stack| == 3 && f.terms.refundLockHeight < LOCKTIME_THRESHOLD {
      RefundPathWaits(w, ch, spec, ch.spent[op], i, Amount(OutputAt(ch, op)), stack);
    }
  }

  // ----- quotes

  /** Swap `r`, funded as `f`, is the swap quote `q` is linked to: it was made from it, on its terms. */
  predicate LinkSound(q: QuoteRecord, r: SwapRecord, f: FundedHtlc) {
    var t := r.terms;
    && t == f.terms
    && t.quoteId == q.quoteId && t.direction == q.direction
    && t.assetId == q.assetId && t.assetAmount == q.assetAmount
    && t.totalPriceMsat == q.totalPriceMsat == t.assetAmount * q.priceMsatPerAssetUnit
    && t.minFundingConfs == q.minFundingConfs && t.feeSubsidy == q.feeSubsidy
    && t.refundLockHeight == SaturatingAdd(f.tip, q.refundDeltaBlocks)
  }

  lemma QuoteLinkSoundAt(w: World, s: State, qid: Id)
    requires QuotesOk(w, s) && SwapsFunded(s) && HtlcsOk(w, s)
    requires qid in s.quotes && s.quotes[qid].swapId.Some?
    ensures var id := s.quotes[qid].swapId.value;
            id in s.swaps && id in s.funded && LinkSound(s.quotes[qid], s.swaps[id], s.funded[id])
  {
    var id := s.quotes[qid].swapId.value;
    assert id in s.swaps && id in s.funded;
    LinkFollows(w, s.chain, s.quotes[qid], s.swaps[id], s.funded[id]);
  }

  lemma LinkFollows(w: World, ch: Chain, q: QuoteRecord, r: SwapRecord, f: FundedHtlc)
    requires QuoteOk(w, q) && MadeFrom(q, f) && HtlcOk(w, ch, f)
    requires r.terms == f.terms && r.terms.quoteId == q.quoteId
    ensures LinkSound(q, r, f)
  {
  }

  /** In every reachable state a linked quote names an existing swap that was made from it, on its terms. */
  lemma QuoteLinkSound(w: World, run: seq<State>, acts: seq<Action>, i: nat, qid: Id)
    requires WorldOk(w) && IsRun(w, run, acts) && i < |run|
    requires qid in run[i].quotes && run[i].quotes[qid].swapId.Some?
    ensures var id := run[i].quotes[qid].swapId.value;
            && id in run[i].swaps && id in run[i].funded
            && LinkSound(run[i].quotes[qid], run[i].swaps[id], run[i].funded[id])
  {
    RunKeepsInv(w, run, acts, i);
    QuoteLinkSoundAt(w, run[i], qid);
  }

  /**
   In every reachable state, restarts with other configurations included: the offer a
   stored quote shows hashes to its offer id, and create_swap's offer check passes exactly
   when the configuration in force offers what was quoted.
   */
  lemma OfferCheckAcrossRestarts(w: World, run: seq<State>, acts: seq<Action>, i: nat, qid: Id)
    requires WorldOk(w) && IsRun(w, run, acts) && i < |run| && qid in run[i].quotes
    ensures run[i].quotes[qid].offerId == OfferId(w.c, QuoteOffer(run[i].quotes[qid]))
    ensures var q, cfg := run[i].quotes[qid], run[i].cfg;
            OfferId(w.c, CurrentOffer(cfg)) == q.offerId <==>
            && q.assetId == cfg.sellAssetId && q.priceMsatPerAssetUnit == cfg.priceMsatPerAssetUnit
            && q.feeSubsidy == cfg.feeSubsidy && q.refundDeltaBlocks == cfg.refundDeltaBlocks
            && q.invoiceExpirySecs == cfg.invoiceExpirySecs && q.maxMinFundingConfs == MAX_MIN_FUNDING_CONFS
  {
    RunKeepsInv(w, run, acts, i);
    assert QuoteOk(w, run[i].quotes[qid]);
    OfferIdMatchesIff(w.c, run[i].cfg, run[i].quotes[qid]);
  }
}
