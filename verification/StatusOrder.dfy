/**
 The order of swap statuses: which steps follow it under full interleaving, and exactly
 which late writes do not.
 */
module StatusOrder {
  import opened Types
  import opened Transaction
  import opened Chain
  import opened Records
  import opened Protocol
  import opened Invariant
  import InvariantRecord
  import Safety

  /** Created to Funded to Paid to Claimed, with Refunded reachable until payment. */
  predicate Edge(a: SwapStatus, b: SwapStatus) {
    || (a.Created? && (b.Funded? || b.Refunded?))
    || (a.Funded? && (b.Paid? || b.Refunded?))
    || (a.Paid? && b.Claimed?)
  }

  function Rank(a: SwapStatus): nat {
    match a
    case Created => 3
    case Funded => 2
    case Paid => 1
    case _ => 0
  }

  /** The action is a write decided on a status the swap has since left. */
  predicate LateWrite(s: State, a: Action, id: Id)
    requires id in s.swaps
  {
    var u := UpdateOf(s, a);
    var status := s.swaps[id].status;
    && u.Some? && u.value.id == id
    && ((a.MarkFunded? && status.Refunded?)
        || (a.PersistPayment? && (status.Claimed? || status.Refunded?))
        || (a.PersistRefund? && status.Paid?))
  }

  /** A confirmed claim only meets a paid swap. */
  lemma ClaimMeetsPaid(w: World, ch: Chain, r: SwapRecord, txid: Txid)
    requires FieldsOk(w, ch, r) && r.lnPreimage.Some? && ClaimSpent(w, ch, r.terms, txid)
    ensures r.status.Paid? || r.status.Claimed?
  {
    InvariantRecord.ClaimExcludesRefund(w, ch, r.terms, txid);
  }

  /** A refund that went through never meets a claimed swap. */
  lemma RefundMeetsUnclaimed(w: World, ch: Chain, r: SwapRecord)
    requires FieldsOk(w, ch, r) && RefundSpent(w, ch, r.terms)
    ensures !r.status.Claimed? && !r.status.Failed?
  {
    if r.claimTxid.Some? {
      InvariantRecord.ClaimExcludesRefund(w, ch, r.terms, r.claimTxid.value);
    }
  }

  /** What each status write can meet. */
  predicate WriteMeets(s: State, a: Action) {
    UpdateOf(s, a).Some? ==>
      && UpdateOf(s, a).value.id in s.swaps
      && var status := s.swaps[UpdateOf(s, a).value.id].status;
         && (a.MarkFunded? ==> status.Created? || status.Refunded?)
         && (a.PersistPayment? ==> !status.Created? && !status.Failed?)
         && (a.PersistClaim? ==> status.Paid? || status.Claimed?)
         && (a.PersistRefund? ==> !status.Claimed? && !status.Failed?)
  }

  lemma EnabledWriteMeets(w: World, s: State, a: Action)
    requires RecordsOk(w, s) && CreatorsOk(s) && TasksOk(w, s)
    requires Enabled(w, s, a)
    ensures WriteMeets(s, a)
  {
    if UpdateOf(s, a).Some? {
      var k := s.tasks[a.t];
      assert TaskOk(w, s, k);
      var r := s.swaps[k.terms.swapId];
      assert FieldsOk(w, s.chain, r);
      if a.MarkFunded? {
        assert Creating(k) == Some(k.terms.swapId);
      } else if a.PersistClaim? {
        ClaimMeetsPaid(w, s.chain, r, k.txid);
      } else if a.PersistRefund? {
        RefundMeetsUnclaimed(w, s.chain, r);
      }
    }
  }

  /** The status stays or moves along an edge. */
  predicate FollowsOrder(a: SwapStatus, b: SwapStatus) {
    a == b || Edge(a, b)
  }

  lemma ChangeFollowsOrderIff(s: State, a: Action, n: State, id: Id)
    requires SwapsChange(s, a, n) && WriteMeets(s, a) && id in s.swaps
    ensures id in n.swaps
    ensures FollowsOrder(s.swaps[id].status, n.swaps[id].status) <==> !LateWrite(s, a, id)
  {
  }

  /**
   In every reachable state, a step of any interleaving leaves a swap's status alone or
   moves it along an edge, except exactly the late writes.
   */
  lemma StatusStepFollowsOrderIff(w: World, s: State, a: Action, n: State, id: Id)
    requires Inv(w, s) && Takes(w, s, a, n) && id in s.swaps
    ensures id in n.swaps
    ensures FollowsOrder(s.swaps[id].status, n.swaps[id].status) <==> !LateWrite(s, a, id)
  {
    SwapsDelta(w, s, a, n);
    EnabledWriteMeets(w, s, a);
    ChangeFollowsOrderIff(s, a, n, id);
  }

  /** The same in every run: which of its steps break the order, and only those. */
  lemma RunFollowsOrderIff(w: World, run: seq<State>, acts: seq<Action>, i: nat, id: Id)
    requires WorldOk(w) && IsRun(w, run, acts) && 0 < i < |run| && id in run[i - 1].swaps
    ensures id in run[i].swaps
    ensures FollowsOrder(run[i - 1].swaps[id].status, run[i].swaps[id].status)
            <==> !LateWrite(run[i - 1], acts[i - 1], id)
  {
    Safety.RunKeepsInv(w, run, acts, i - 1);
    Safety.RunStep(w, run, acts, i);
    StatusStepFollowsOrderIff(w, run[i - 1], acts[i - 1], run[i], id);
  }
}
