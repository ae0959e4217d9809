/**
 What can still happen to a paid swap: the continuations of a serial run in which it is
 refunded on the chain.
 */
module RefundFutures {
  import opened HtlcScript
  import opened Transaction
  import opened HtlcSpend
  import opened Chain
  import opened Records
  import opened Protocol
  import opened Invariant
  import opened Serial
  import opened RefundHistory
  import opened PaidSwaps
  import Liveness
  import Safety

  /** What may follow state `s`, with at most one task at a time. */
  ghost predicate SerialFrom(w: World, s: State, path: seq<State>, more: seq<Action>) {
    && IsPath(w, path, more) && path[0] == s
    && forall i :: 0 <= i < |path| ==> OneTask(path[i])
  }

  ghost predicate StillRefundable(w: World, s: State, t: SwapTerms) {
    exists path: seq<State>, more: seq<Action> ::
      SerialFrom(w, s, path, more) && RefundSpent(w, path[|path| - 1].chain, t)
  }

  // ----- a continuation, joined to the run it continues

  ghost function Joined(run: seq<State>, k: nat, path: seq<State>): seq<State>
    requires k < |run| && path != []
  {
    run[..k] + path
  }

  lemma JoinedStep(w: World, run: seq<State>, acts: seq<Action>, k: nat, path: seq<State>, more: seq<Action>, i: nat)
    requires IsPath(w, run, acts) && k < |run| && IsPath(w, path, more) && path[0] == run[k] && i < k + |more|
    ensures StepAt(w, Joined(run, k, path), acts[..k] + more, i)
  {
    var longer, all := Joined(run, k, path), acts[..k] + more;
    if i < k {
      assert StepAt(w, run, acts, i);
      assert all[i] == acts[i] && longer[i] == run[i] && longer[i + 1] == run[i + 1];
    } else {
      assert StepAt(w, path, more, i - k);
      assert all[i] == more[i - k] && longer[i] == path[i - k] && longer[i + 1] == path[i - k + 1];
    }
  }

  lemma JoinedIsRun(w: World, run: seq<State>, acts: seq<Action>, k: nat, path: seq<State>, more: seq<Action>)
    requires IsRun(w, run, acts) && k < |run| && IsPath(w, path, more) && path[0] == run[k]
    ensures IsRun(w, Joined(run, k, path), acts[..k] + more)
  {
    forall i: nat | i < |acts[..k] + more|
      ensures StepAt(w, Joined(run, k, path), acts[..k] + more, i)
    {
      JoinedStep(w, run, acts, k, path, more, i);
    }
    assert Joined(run, k, path)[0] == run[0];
  }

  lemma JoinedIsSerial(w: World, run: seq<State>, acts: seq<Action>, k: nat, path: seq<State>, more: seq<Action>)
    requires IsSerialRun(w, run, acts) && k < |run| && SerialFrom(w, run[k], path, more)
    ensures IsSerialRun(w, Joined(run, k, path), acts[..k] + more)
  {
    JoinedIsRun(w, run, acts, k, path, more);
  }

  lemma JoinedCall(acts: seq<Action>, b: nat, k: nat, id: Id, more: seq<Action>)
    requires PayCall(acts, b, k, id)
    ensures PayCall(acts[..k + 1] + more, b, k, id)
  {
    var all := acts[..k + 1] + more;
    assert forall i :: 0 <= i <= k ==> all[i] == acts[i];
  }

  lemma JoinedEnds(run: seq<State>, k: nat, path: seq<State>, b: nat)
    requires b < k < |run| && path != []
    ensures var longer := Joined(run, k, path);
            |longer| == k + |path| && longer[b] == run[b] && longer[|longer| - 1] == path[|path| - 1]
  {
  }

  lemma JoinedPayCall(w: World, run: seq<State>, acts: seq<Action>, b: nat, k: nat, id: Id,
                      path: seq<State>, more: seq<Action>)
    requires IsSerialRun(w, run, acts) && PayCall(acts, b, k, id) && SerialFrom(w, run[k + 1], path, more)
    ensures IsSerialRun(w, Joined(run, k + 1, path), acts[..k + 1] + more) && PayCall(acts[..k + 1] + more, b, k, id)
  {
    JoinedIsSerial(w, run, acts, k + 1, path, more);
    JoinedCall(acts, b, k, id, more);
  }

  /** A continuation refunds the swap only with a refund signed before the call read it. */
  lemma FutureRefundWasSigned(w: World, run: seq<State>, acts: seq<Action>, b: nat, k: nat, id: Id,
                              path: seq<State>, more: seq<Action>)
    requires WorldOk(w) && IsSerialRun(w, run, acts) && PayCall(acts, b, k, id)
    requires id in run[b].funded && BothKeysOwned(w, run[b].funded[id])
    requires SerialFrom(w, run[k + 1], path, more) && RefundSpent(w, path[|path| - 1].chain, run[b].funded[id].terms)
    ensures RefundSigned(w, run[b], run[b].funded[id].terms)
  {
    var longer := Joined(run, k + 1, path);
    JoinedPayCall(w, run, acts, b, k, id, path, more);
    JoinedEnds(run, k + 1, path, b);
    PaidSwapRefundWasSigned(w, longer, acts[..k + 1] + more, b, k, |longer| - 1, id);
  }

  // ----- a signed refund can land

  /** No transaction the wallet signed shares its txid with another one on the chain. */
  ghost predicate SignedTxidsApart(w: World, s: State) {
    forall b :: b in s.signed ==> Liveness.NoTxidCollision(w.c, s.chain, b)
  }

  /** The signed refund, with its witnesses filled in by the key the script names. */
  lemma RefundWithWitnesses(w: World, f: FundedHtlc, b: Tx, k: nat) returns (tx: Tx)
    requires WorldOk(w) && SpecOf(w, f).Ok? && f.terms.witnessScript == WitnessScript(SpecOf(w, f).value)
    requires IsRefundBody(w, f.terms, b) && KeyHash(w, k) == SpecOf(w, f).value.refunderHash
    ensures Strip(tx) == b && |tx.inputs| == 2
    ensures var g := FundingOf(f.terms, w.policyAsset);
            && InputAccepted(w.c, tx, 0, HtlcOutput(w.c, f.terms.witnessScript, g, 0))
            && InputAccepted(w.c, tx, 1, HtlcOutput(w.c, f.terms.witnessScript, g, 1))
  {
    var g := FundingOf(f.terms, w.policyAsset);
    var receive, fee, lock := b.outputs[0].script, b.outputs[2].value, f.terms.refundLockHeight;
    tx := RefundTx(w.c, f.terms.witnessScript, lock, g, receive, w.secretKey(k), fee).value;
    Liveness.RefundTxSpends(w.c, f.terms.witnessScript, lock, g, receive, w.secretKey(k), fee);
    Liveness.RefundInputsIff(w, SpecOf(w, f).value, g, receive, k, fee);
  }

  lemma StripOnce(tx: Tx)
    ensures Strip(Strip(tx)) == Strip(tx)
  {
    assert Strip(Strip(tx)).inputs == Strip(tx).inputs;
  }

  lemma RefundFinal(w: World, ch: Chain, t: SwapTerms, tx: Tx)
    requires IsRefundBody(w, t, Strip(tx)) && t.refundLockHeight <= ch.height
    ensures Final(ch, tx)
  {
  }

  lemma SignedRefundAcceptable(w: World, s: State, id: Id, b: Tx) returns (tx: Tx)
    requires WorldOk(w) && ChainValid(w.c, s.chain) && Readable(w, s) && Liveness.NoTxidCollision(w.c, s.chain, b)
    requires id in s.funded && BothKeysOwned(w, s.funded[id]) && Liveness.Unspent(s.chain, s.funded[id].terms)
    requires b in s.signed && IsRefundBody(w, s.funded[id].terms, b)
    ensures Strip(tx) == b && Acceptable(w.c, s.chain, tx)
  {
    var f := s.funded[id];
    assert HtlcOk(w, s.chain, f);
    SignedRefundIsOwn(w, s, id, b);
    var k: nat :| KeyHash(w, k) == SpecOf(w, f).value.refunderHash;
    tx := RefundWithWitnesses(w, f, b, k);
    StripOnce(tx);
    RefundFinal(w, s.chain, f.terms, tx);
    Liveness.SpendAcceptableIff(w, s.chain, f, tx, b.outputs[0].script, b.outputs[2].value, f.terms.refundLockHeight,
                                SEQUENCE_LOCKTIME);
  }

  lemma OneStepPath(w: World, s: State, a: Action, n: State)
    requires Takes(w, s, a, n) && OneTask(s) && OneTask(n)
    ensures SerialFrom(w, s, [s, n], [a])
  {
  }

  lemma PathRefunds(w: World, s: State, path: seq<State>, more: seq<Action>, n: State, t: SwapTerms)
    requires SerialFrom(w, s, path, more) && path[|path| - 1] == n && RefundSpent(w, n.chain, t)
    ensures StillRefundable(w, s, t)
  {
  }

  lemma OtherLeavesTasks(w: World, s: State, tx: Tx)
    requires Acceptable(w.c, s.chain, tx) && Strip(tx) in s.signed && OneTask(s)
    ensures Enabled(w, s, OtherTx(tx)) && OneTask(Apply(w, s, OtherTx(tx)))
  {
  }

  lemma SignedRefundLands(w: World, s: State, id: Id, b: Tx)
    requires WorldOk(w) && Orderly(w, s) && Liveness.NoTxidCollision(w.c, s.chain, b)
    requires id in s.funded && BothKeysOwned(w, s.funded[id]) && Liveness.Unspent(s.chain, s.funded[id].terms)
    requires b in s.signed && IsRefundBody(w, s.funded[id].terms, b)
    ensures StillRefundable(w, s, s.funded[id].terms)
  {
    var tx := SignedRefundAcceptable(w, s, id, b);
    OtherLeavesTasks(w, s, tx);
    var n := Apply(w, s, OtherTx(tx));
    OtherRefundLands(w, s, OtherTx(tx), n, s.funded[id].terms);
    OneStepPath(w, s, OtherTx(tx), n);
    PathRefunds(w, s, [s, n], [OtherTx(tx)], n, s.funded[id].terms);
  }

  /** When the payment is stored, nothing but a refund can have spent the HTLC. */
  lemma UnspentOrRefunded(w: World, s: State, id: Id)
    requires ChainValid(w.c, s.chain) && Readable(w, s) && OwnedSpendsSigned(w, s)
    requires id in s.funded && BothKeysOwned(w, s.funded[id]) && id in s.swaps && s.swaps[id].lnPreimage.None?
    ensures Liveness.Unspent(s.chain, s.funded[id].terms) || RefundSpent(w, s.chain, s.funded[id].terms)
  {
    Safety.OwnedHtlcSpentOnceAt(w, s, id);
  }

  lemma UnpaidWhilePaying(s: State, t: TaskId, id: Id)
    requires RecordsExclusive(s) && TasksCurrent(s)
    requires t in s.tasks && s.tasks[t].PayRead? && s.tasks[t].terms.swapId == id
    ensures id in s.swaps && s.swaps[id].lnPreimage.None?
  {
    assert TaskCurrent(s, s.tasks[t]);
    assert Exclusive(s.swaps[id]);
  }

  lemma StoredUnspentOrRefunded(w: World, run: seq<State>, acts: seq<Action>, b: nat, k: nat, id: Id)
    requires WorldOk(w) && IsSerialRun(w, run, acts) && PayCall(acts, b, k, id)
    requires id in run[b].funded && BothKeysOwned(w, run[b].funded[id])
    ensures var t := run[b].funded[id].terms;
            Liveness.Unspent(run[k + 1].chain, t) || RefundSpent(w, run[k + 1].chain, t)
  {
    CallBegins(w, run, acts, b, k, id);
    PayingDuring(w, run, acts, b, k, k, id);
    CallStores(w, run, acts, b, k, id);
    SerialRunCurrent(w, run, acts, k);
    UnpaidWhilePaying(run[k], acts[k].t, id);
    TermsStay(w, run, acts, b, k, id);
    Safety.RunKeepsInv(w, run, acts, k);
    UnspentOrRefunded(w, run[k], id);
  }

  lemma AlreadyRefunded(w: World, s: State, t: SwapTerms)
    requires OneTask(s) && RefundSpent(w, s.chain, t)
    ensures StillRefundable(w, s, t)
  {
    assert SerialFrom(w, s, [s], []);
  }

  /** The wallet could refund the HTLC, or somebody has. */
  ghost predicate RefundReady(w: World, s: State, id: Id) {
    && id in s.funded && BothKeysOwned(w, s.funded[id])
    && var t := s.funded[id].terms;
       RefundSigned(w, s, t) && (Liveness.Unspent(s.chain, t) || RefundSpent(w, s.chain, t))
  }

  ghost predicate Landable(w: World, s: State, id: Id, t: SwapTerms) {
    Orderly(w, s) && RefundReady(w, s, id) && SignedTxidsApart(w, s) && t == s.funded[id].terms
  }

  lemma SignedMayLand(w: World, s: State, id: Id, t: SwapTerms)
    requires WorldOk(w) && Landable(w, s, id, t)
    ensures StillRefundable(w, s, t)
  {
    if RefundSpent(w, s.chain, t) {
      AlreadyRefunded(w, s, t);
    } else {
      var b :| b in s.signed && IsRefundBody(w, t, b);
      SignedRefundLands(w, s, id, b);
    }
  }

  lemma StoredRefundReady(w: World, run: seq<State>, acts: seq<Action>, b: nat, k: nat, id: Id)
    requires WorldOk(w) && IsSerialRun(w, run, acts) && PayCall(acts, b, k, id)
    requires id in run[b].funded && BothKeysOwned(w, run[b].funded[id])
    requires RefundSigned(w, run[b], run[b].funded[id].terms)
    ensures RefundReady(w, run[k + 1], id) && run[k + 1].funded[id] == run[b].funded[id]
  {
    CallBegins(w, run, acts, b, k, id);
    TermsStay(w, run, acts, b, k + 1, id);
    SignedUnchanged(w, run, acts, b, k, k + 1, id);
    StoredUnspentOrRefunded(w, run, acts, b, k, id);
  }

  ghost predicate Orderly(w: World, s: State) {
    ChainValid(w.c, s.chain) && Readable(w, s) && OneTask(s)
  }

  lemma RunOrderly(w: World, run: seq<State>, acts: seq<Action>, i: nat)
    requires WorldOk(w) && IsSerialRun(w, run, acts) && i < |run|
    ensures Orderly(w, run[i])
  {
    Safety.RunKeepsInv(w, run, acts, i);
  }

  lemma StoredLandable(w: World, run: seq<State>, acts: seq<Action>, b: nat, k: nat, id: Id)
    requires WorldOk(w) && IsSerialRun(w, run, acts) && PayCall(acts, b, k, id) && SignedTxidsApart(w, run[k + 1])
    requires id in run[b].funded && BothKeysOwned(w, run[b].funded[id])
    requires RefundSigned(w, run[b], run[b].funded[id].terms)
    ensures Landable(w, run[k + 1], id, run[b].funded[id].terms)
  {
    StoredRefundReady(w, run, acts, b, k, id);
    RunOrderly(w, run, acts, k + 1);
  }

  lemma FutureRefund(w: World, run: seq<State>, acts: seq<Action>, b: nat, k: nat, id: Id)
    requires WorldOk(w) && IsSerialRun(w, run, acts) && PayCall(acts, b, k, id)
    requires id in run[b].funded && BothKeysOwned(w, run[b].funded[id])
    requires StillRefundable(w, run[k + 1], run[b].funded[id].terms)
    ensures RefundSigned(w, run[b], run[b].funded[id].terms)
  {
    var t := run[b].funded[id].terms;
    var path: seq<State>, more: seq<Action> :|
      SerialFrom(w, run[k + 1], path, more) && RefundSpent(w, path[|path| - 1].chain, t);
    FutureRefundWasSigned(w, run, acts, b, k, id, path, more);
  }

  /**
   A payment that was stored can still meet a refund on the chain, in some serial
   continuation, exactly if the wallet had signed a refund of the swap before the call read it.
   */
  lemma PaidThenRefundableIff(w: World, run: seq<State>, acts: seq<Action>, b: nat, k: nat, id: Id)
    requires WorldOk(w) && IsSerialRun(w, run, acts) && PayCall(acts, b, k, id) && SignedTxidsApart(w, run[k + 1])
    requires id in run[b].funded && BothKeysOwned(w, run[b].funded[id])
    ensures var t := run[b].funded[id].terms;
            StillRefundable(w, run[k + 1], t) <==> RefundSigned(w, run[b], t)
  {
    if StillRefundable(w, run[k + 1], run[b].funded[id].terms) {
      FutureRefund(w, run, acts, b, k, id);
    }
    if RefundSigned(w, run[b], run[b].funded[id].terms) {
      StoredLandable(w, run, acts, b, k, id);
      SignedMayLand(w, run[k + 1], id, run[b].funded[id].terms);
    }
  }
}
