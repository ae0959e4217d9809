/**
 Atomicity on the chain in serial runs: when a swap the server has paid, or is paying, is
 refunded all the same.
 */
module PaidSwaps {
  import opened Records
  import opened Protocol
  import opened Invariant
  import opened Serial
  import opened RefundHistory
  import InvariantSigned
  import Safety

  /** A payment of the swap is under way or stored. */
  predicate Paying(s: State, id: Id) {
    || (id in s.swaps && s.swaps[id].lnPreimage.Some?)
    || (exists t :: t in s.tasks && s.tasks[t].PayRead? && s.tasks[t].terms.swapId == id)
  }

  /** A row that a refund is signed for is not paid, and no payment call is under way. */
  lemma RefundMeetsUnpaid(w: World, s: State, a: Action)
    requires OneTask(s) && RecordsExclusive(s) && TasksCurrent(s) && InvariantSigned.RefundSigns(w, s, a)
    ensures !Paying(s, s.tasks[a.t].todo[0].terms.swapId)
  {
    assert TaskCurrent(s, s.tasks[a.t]);
    assert Exclusive(s.swaps[s.tasks[a.t].todo[0].terms.swapId]);
  }

  lemma PayingSignsNoRefund(w: World, s: State, a: Action, t: SwapTerms)
    requires OneTask(s) && RecordsExclusive(s) && TasksCurrent(s) && Paying(s, t.swapId)
    ensures !SignsRefundOf(w, s, a, t)
  {
    if SignsRefundOf(w, s, a, t) {
      RefundMeetsUnpaid(w, s, a);
      assert false;
    }
  }

  /** Task `t` pays swap `id`: it begins at step `b` and stores the payment at step `k`. */
  predicate PayCall(acts: seq<Action>, b: nat, k: nat, id: Id) {
    && b < k < |acts| && acts[b].BeginPay? && acts[b].swapId == id
    && acts[k].PersistPayment? && Safety.SameCall(acts, b, k, acts[k].t)
  }

  lemma PayBegins(w: World, s: State, a: Action, n: State)
    requires a.BeginPay? && Takes(w, s, a, n)
    ensures a.swapId in s.swaps && s.swaps[a.swapId].status.Funded?
    ensures a.t in n.tasks && n.tasks[a.t] == PayRead(s.swaps[a.swapId].terms)
  {
  }

  /** Step `b` reads the swap, Funded, for payment. */
  lemma RunPayBegins(w: World, run: seq<State>, acts: seq<Action>, b: nat)
    requires IsRun(w, run, acts) && b < |acts| && acts[b].BeginPay?
    ensures var id := acts[b].swapId;
            && id in run[b].swaps && run[b].swaps[id].status.Funded?
            && acts[b].t in run[b + 1].tasks && run[b + 1].tasks[acts[b].t] == PayRead(run[b].swaps[id].terms)
  {
    Safety.RunStep(w, run, acts, b + 1);
    PayBegins(w, run[b], acts[b], run[b + 1]);
  }

  lemma CallBegins(w: World, run: seq<State>, acts: seq<Action>, b: nat, k: nat, id: Id)
    requires WorldOk(w) && IsRun(w, run, acts) && PayCall(acts, b, k, id)
    ensures id in run[b].swaps && run[b].swaps[id].status.Funded? && run[b].swaps[id].terms.swapId == id
    ensures id in run[b].funded && run[b].funded[id].terms == run[b].swaps[id].terms
    ensures acts[k].t in run[b + 1].tasks && run[b + 1].tasks[acts[k].t] == PayRead(run[b].swaps[id].terms)
  {
    RunPayBegins(w, run, acts, b);
    RunSwapIds(w, run, acts, b);
  }

  lemma RunSwapIds(w: World, run: seq<State>, acts: seq<Action>, i: nat)
    requires WorldOk(w) && IsRun(w, run, acts) && i < |run|
    ensures SwapsFunded(run[i]) && forall id :: id in run[i].funded ==> run[i].funded[id].terms.swapId == id
  {
    Safety.RunKeepsInv(w, run, acts, i);
  }

  lemma PayingDuring(w: World, run: seq<State>, acts: seq<Action>, b: nat, k: nat, i: nat, id: Id)
    requires WorldOk(w) && IsRun(w, run, acts) && PayCall(acts, b, k, id) && b < i <= k && id in run[b].swaps
    ensures Paying(run[i], id)
    ensures acts[k].t in run[i].tasks && run[i].tasks[acts[k].t] == PayRead(run[b].swaps[id].terms)
  {
    CallBegins(w, run, acts, b, k, id);
    Safety.CallRemembers(w, run, acts, b, i, acts[k].t);
  }

  lemma PayStored(w: World, s: State, a: Action, n: State)
    requires a.PersistPayment? && Takes(w, s, a, n)
    ensures a.t in s.tasks && s.tasks[a.t].PayRead? && n.chain == s.chain
    ensures var id := s.tasks[a.t].terms.swapId; id in n.swaps && n.swaps[id].lnPreimage.Some?
  {
  }

  lemma StoredAt(w: World, run: seq<State>, acts: seq<Action>, k: nat)
    requires IsRun(w, run, acts) && k < |acts| && acts[k].PersistPayment?
    requires acts[k].t in run[k].tasks && run[k].tasks[acts[k].t].PayRead?
    ensures var id := run[k].tasks[acts[k].t].terms.swapId;
            id in run[k + 1].swaps && run[k + 1].swaps[id].lnPreimage.Some? && run[k + 1].chain == run[k].chain
  {
    Safety.RunStep(w, run, acts, k + 1);
    PayStored(w, run[k], acts[k], run[k + 1]);
  }

  lemma CallStores(w: World, run: seq<State>, acts: seq<Action>, b: nat, k: nat, id: Id)
    requires WorldOk(w) && IsRun(w, run, acts) && PayCall(acts, b, k, id)
    ensures id in run[k + 1].swaps && run[k + 1].swaps[id].lnPreimage.Some? && run[k + 1].chain == run[k].chain
  {
    CallBegins(w, run, acts, b, k, id);
    PayingDuring(w, run, acts, b, k, k, id);
    StoredAt(w, run, acts, k);
  }

  lemma PayingThroughout(w: World, run: seq<State>, acts: seq<Action>, b: nat, k: nat, i: nat, id: Id)
    requires WorldOk(w) && IsRun(w, run, acts) && PayCall(acts, b, k, id) && b < i < |run|
    ensures Paying(run[i], id)
  {
    if i <= k {
      CallBegins(w, run, acts, b, k, id);
      PayingDuring(w, run, acts, b, k, i, id);
    } else {
      CallStores(w, run, acts, b, k, id);
      Safety.RunGrows(w, run, acts, k + 1, i);
    }
  }

  /** From the moment the call reads the swap, no refund of it is signed. */
  lemma CallSignsNoRefund(w: World, run: seq<State>, acts: seq<Action>, b: nat, k: nat, i: nat, t: SwapTerms)
    requires WorldOk(w) && IsSerialRun(w, run, acts) && PayCall(acts, b, k, t.swapId) && b <= i < |acts|
    ensures !SignsRefundOf(w, run[i], acts[i], t)
  {
    if b < i {
      PayingThroughout(w, run, acts, b, k, i, t.swapId);
      SerialRunCurrent(w, run, acts, i);
      PayingSignsNoRefund(w, run[i], acts[i], t);
    }
  }

  lemma TermsStay(w: World, run: seq<State>, acts: seq<Action>, i: nat, j: nat, id: Id)
    requires WorldOk(w) && IsRun(w, run, acts) && i <= j < |run| && id in run[i].swaps
    ensures id in run[i].funded && id in run[j].funded
    ensures run[i].funded[id] == run[j].funded[id] && run[i].funded[id].terms == run[i].swaps[id].terms
  {
    RunSwapIds(w, run, acts, i);
    Safety.FundedStays(w, run, acts, i, j, id);
  }

  lemma SignedUnchangedStep(w: World, run: seq<State>, acts: seq<Action>, b: nat, k: nat, i: nat, id: Id)
    requires WorldOk(w) && IsSerialRun(w, run, acts) && PayCall(acts, b, k, id) && b <= i < |acts| && id in run[b].swaps
    ensures var t := run[b].swaps[id].terms; RefundSigned(w, run[i + 1], t) <==> RefundSigned(w, run[i], t)
  {
    CallBegins(w, run, acts, b, k, id);
    TermsStay(w, run, acts, b, i + 1, id);
    RunRefundSignedChange(w, run, acts, i, id);
    CallSignsNoRefund(w, run, acts, b, k, i, run[b].swaps[id].terms);
  }

  /** So the refunds signed are those signed before. */
  lemma {:induction false} SignedUnchanged(w: World, run: seq<State>, acts: seq<Action>, b: nat, k: nat, j: nat, id: Id)
    requires WorldOk(w) && IsSerialRun(w, run, acts) && PayCall(acts, b, k, id) && b <= j < |run| && id in run[b].swaps
    ensures var t := run[b].swaps[id].terms; RefundSigned(w, run[j], t) <==> RefundSigned(w, run[b], t)
  {
    if b < j {
      SignedUnchanged(w, run, acts, b, k, j - 1, id);
      SignedUnchangedStep(w, run, acts, b, k, j - 1, id);
    }
  }

  // ----- with any keys

  /** Between the two states somebody else puts a refund of the HTLC on the chain. */
  ghost predicate OtherRefundBetween(w: World, acts: seq<Action>, b: nat, j: nat, t: SwapTerms) {
    exists m {:trigger OtherRefunds(w, acts[m], t)} :: b <= m < j && m < |acts| && OtherRefunds(w, acts[m], t)
  }

  /** While the call pays and after, whoever puts a refund on the chain is somebody else. */
  lemma PutByOthers(w: World, run: seq<State>, acts: seq<Action>, b: nat, k: nat, j: nat, t: SwapTerms)
    requires WorldOk(w) && IsSerialRun(w, run, acts) && PayCall(acts, b, k, t.swapId) && b <= j < |run|
    ensures RefundPutBetween(w, run, acts, b, j, t) <==> OtherRefundBetween(w, acts, b, j, t)
  {
    forall m: nat | b <= m < j && m < |acts|
      ensures PutsRefund(w, run[m], acts[m], t) <==> OtherRefunds(w, acts[m], t)
    {
      CallSignsNoRefund(w, run, acts, b, k, m, t);
    }
  }

  /**
   A swap is read for payment at step `b` and its payment stored at step `k`, serially.
   At any later time it has been refunded on the chain exactly if it already was when it
   was read, or somebody has since broadcast a refund. The server's own passes never do.
   */
  lemma PaidSwapRefundedIff(w: World, run: seq<State>, acts: seq<Action>, b: nat, k: nat, j: nat, id: Id)
    requires WorldOk(w) && IsSerialRun(w, run, acts) && PayCall(acts, b, k, id) && b <= j < |run|
    ensures id in run[b].swaps
    ensures var t := run[b].swaps[id].terms;
            RefundSpent(w, run[j].chain, t) <==> RefundSpent(w, run[b].chain, t) || OtherRefundBetween(w, acts, b, j, t)
  {
    CallBegins(w, run, acts, b, k, id);
    RefundSpentIff(w, run, acts, b, j, id);
    PutByOthers(w, run, acts, b, k, j, run[b].swaps[id].terms);
  }

  // ----- with the wallet's keys

  /** If the wallet holds both keys, only a refund signed before the call read the swap can meet the payment. */
  lemma PaidSwapRefundWasSigned(w: World, run: seq<State>, acts: seq<Action>, b: nat, k: nat, j: nat, id: Id)
    requires WorldOk(w) && IsSerialRun(w, run, acts) && PayCall(acts, b, k, id) && b <= j < |run|
    requires id in run[b].funded && BothKeysOwned(w, run[b].funded[id])
    requires RefundSpent(w, run[j].chain, run[b].funded[id].terms)
    ensures RefundSigned(w, run[b], run[b].funded[id].terms)
  {
    CallBegins(w, run, acts, b, k, id);
    TermsStay(w, run, acts, b, j, id);
    OwnedRefundSigned(w, run, acts, j, id);
    SignedUnchanged(w, run, acts, b, k, j, id);
  }

  /** A swap that the server starts to pay before its lock height is never refunded, if its call goes through. */
  lemma EarlyPaymentIsSafe(w: World, run: seq<State>, acts: seq<Action>, b: nat, k: nat, j: nat, id: Id)
    requires WorldOk(w) && IsSerialRun(w, run, acts) && PayCall(acts, b, k, id) && b <= j < |run|
    requires id in run[b].funded && BothKeysOwned(w, run[b].funded[id])
    requires run[b].chain.height < run[b].funded[id].terms.refundLockHeight
    ensures !RefundSpent(w, run[j].chain, run[b].funded[id].terms)
  {
    RunReadable(w, run, acts, b);
    NoRefundBeforeLock(w, run[b], id);
    if RefundSpent(w, run[j].chain, run[b].funded[id].terms) {
      PaidSwapRefundWasSigned(w, run, acts, b, k, j, id);
    }
  }
}
