/**
 Steps keep every HTLC described by its terms, and identities apart.
 */
module InvariantHtlc {
  import opened Types
  import opened HtlcScript
  import opened Transaction
  import opened Chain
  import opened Funding
  import opened Records
  import opened Protocol
  import opened Invariant

  /** The outputs an accepted funding leaves on the chain are the ones its terms name. */
  lemma FundHtlcOk(w: World, s: State, a: Action)
    requires QuotesOk(w, s) && TasksOk(w, s) && FundsNew(w, s, a)
    ensures HtlcOk(w, Accept(w.c, s.chain, a.tx), NewHtlc(w, s, a))
    ensures NewHtlc(w, s, a).terms.swapId == s.tasks[a.t].swapId
    ensures NewHtlc(w, s, a).terms.fundingTxid !in s.chain.txs
  {
    var k := s.tasks[a.t];
    assert TaskOk(w, s, k);
    assert QuoteOk(w, s.quotes[k.quote.quoteId]);
    var spec := FundSpec(w, s, k, a.tip).value;
    var spk := P2wshScript(w.c, WitnessScript(spec));
    ScanFindsOutputsIff(a.tx, spk, s.cfg.sellAssetId, k.quote.assetAmount, w.policyAsset, s.cfg.feeSubsidy,
                        a.assetVout, a.lbtcVout);
    AcceptSpends(w.c, s.chain, a.tx);
    assert a.tx.outputs[a.lbtcVout].value == s.cfg.feeSubsidy;
  }

  lemma HtlcsOkKept(w: World, s: State, n: State, id: Id, f: FundedHtlc)
    requires HtlcsOk(w, s) && Extends(s.chain, n.chain)
    requires n.funded == s.funded || (n.funded == s.funded[id := f] && HtlcOk(w, n.chain, f) && f.terms.swapId == id)
    ensures HtlcsOk(w, n)
  {
    forall x | x in n.funded
      ensures HtlcOk(w, n.chain, n.funded[x]) && n.funded[x].terms.swapId == x
    {
      if x in s.funded {
        HtlcOkStable(w, s.chain, n.chain, s.funded[x]);
      }
    }
  }

  lemma HtlcsOkStep(w: World, s: State, a: Action, n: State)
    requires ChainValid(w.c, s.chain) && HtlcsOk(w, s) && QuotesOk(w, s) && TasksOk(w, s)
    requires Takes(w, s, a, n)
    ensures HtlcsOk(w, n)
  {
    StepExtendsChain(w, s, a, n);
    FundedDelta(w, s, a, n);
    if FundsNew(w, s, a) {
      FundHtlcOk(w, s, a);
      HtlcsOkKept(w, s, n, s.tasks[a.t].swapId, NewHtlc(w, s, a));
    } else {
      HtlcsUnfunded(w, s, n);
    }
  }

  lemma HtlcsUnfunded(w: World, s: State, n: State)
    requires HtlcsOk(w, s) && Extends(s.chain, n.chain) && n.funded == s.funded
    ensures HtlcsOk(w, n)
  {
    forall x | x in n.funded
      ensures HtlcOk(w, n.chain, n.funded[x])
    {
      HtlcOkStable(w, s.chain, n.chain, s.funded[x]);
    }
  }

  lemma FundingsDistinctKept(w: World, s: State, n: State, id: Id, f: FundedHtlc)
    requires HtlcsOk(w, s) && FundingsDistinct(s)
    requires n.funded == s.funded || (n.funded == s.funded[id := f] && f.terms.fundingTxid !in s.chain.txs)
    ensures FundingsDistinct(n)
  {
    forall x | x in s.funded
      ensures s.funded[x].terms.fundingTxid in s.chain.txs
    {
      assert HtlcOk(w, s.chain, s.funded[x]);
    }
  }

  /** A new funding is a new transaction. */
  lemma FundingsDistinctStep(w: World, s: State, a: Action, n: State)
    requires Inv(w, s) && Takes(w, s, a, n)
    ensures FundingsDistinct(n)
  {
    FundedDelta(w, s, a, n);
    if FundsNew(w, s, a) {
      FundHtlcOk(w, s, a);
      FundingsDistinctKept(w, s, n, s.tasks[a.t].swapId, NewHtlc(w, s, a));
    }
  }

  lemma InsertFunded(w: World, s: State, a: Action)
    requires a.Insert? && TasksOk(w, s) && Enabled(w, s, a)
    ensures var r := s.tasks[a.t].record; r.terms.swapId in s.funded && s.funded[r.terms.swapId].terms == r.terms
  {
    assert TaskOk(w, s, s.tasks[a.t]);
  }

  lemma SwapsFundedChange(s: State, a: Action, n: State)
    requires SwapsFunded(s) && FundedGrows(s, n) && SwapsChange(s, a, n)
    requires a.Insert? ==>
               var r := s.tasks[a.t].record; r.terms.swapId in s.funded && s.funded[r.terms.swapId].terms == r.terms
    ensures SwapsFunded(n)
  {
  }

  lemma SwapsFundedStep(w: World, s: State, a: Action, n: State)
    requires SwapsFunded(s) && FreshOk(s) && TasksOk(w, s) && Takes(w, s, a, n)
    ensures SwapsFunded(n)
  {
    StepFundedGrows(w, s, a, n);
    SwapsDelta(w, s, a, n);
    if a.Insert? {
      InsertFunded(w, s, a);
    }
    SwapsFundedChange(s, a, n);
  }

  /** The lock follows the acting task. */
  predicate LockFollows(s: State, a: Action, n: State)
    requires Actor(a).Some?
  {
    n.walletLock == if a.t in n.tasks && HoldsWallet(n.tasks[a.t]) then Some(a.t)
                    else if s.walletLock == Some(a.t) then None
                    else s.walletLock
  }

  lemma CreateLock(w: World, s: State, a: Action, n: State)
    requires InCreate(a) && LocksOk(s) && Takes(w, s, a, n)
    ensures LockFollows(s, a, n)
  {
  }

  lemma PayOrClaimLock(w: World, s: State, a: Action, n: State)
    requires InPayOrClaim(a) && LocksOk(s) && Takes(w, s, a, n)
    ensures LockFollows(s, a, n)
  {
  }

  lemma RefundNextLock(w: World, s: State, a: Action, n: State)
    requires a.RefundNext? && LocksOk(s) && Takes(w, s, a, n)
    ensures LockFollows(s, a, n)
  {
  }

  lemma RefundLock(w: World, s: State, a: Action, n: State)
    requires (InRefund(a) || a.Fail?) && !a.RefundNext? && LocksOk(s) && Takes(w, s, a, n)
    ensures LockFollows(s, a, n)
  {
  }

  /** A task comes to hold the wallet only when it already did, or nobody does. */
  lemma WalletFree(w: World, s: State, a: Action, n: State)
    requires Actor(a).Some? && LocksOk(s) && Takes(w, s, a, n)
    ensures a.t in n.tasks && HoldsWallet(n.tasks[a.t]) ==> s.walletLock == Some(a.t) || s.walletLock.None?
  {
  }

  lemma LocksOkActor(s: State, a: Action, n: State)
    requires LocksOk(s) && Actor(a).Some? && ActorMoves(s, a, n) && LockFollows(s, a, n)
    requires a.t in n.tasks && HoldsWallet(n.tasks[a.t]) ==> s.walletLock == Some(a.t) || s.walletLock.None?
    ensures LocksOk(n)
  {
  }

  lemma EnvironmentLocks(w: World, s: State, a: Action, n: State)
    requires Actor(a).None? && LocksOk(s) && Takes(w, s, a, n)
    ensures LocksOk(n)
  {
  }

  lemma LocksOkStep(w: World, s: State, a: Action, n: State)
    requires LocksOk(s) && Takes(w, s, a, n)
    ensures LocksOk(n)
  {
    if Actor(a).None? {
      EnvironmentLocks(w, s, a, n);
    } else {
      if InCreate(a) {
        CreateLock(w, s, a, n);
      } else if InPayOrClaim(a) {
        PayOrClaimLock(w, s, a, n);
      } else if a.RefundNext? {
        RefundNextLock(w, s, a, n);
      } else {
        RefundLock(w, s, a, n);
      }
      TasksDelta(w, s, a, n);
      WalletFree(w, s, a, n);
      LocksOkActor(s, a, n);
    }
  }

  /** The create_swap tasks that FreshOk speaks of were there before. */
  predicate NoNewCreates(s: State, n: State) {
    forall u :: u in n.tasks && (n.tasks[u].CreateRead? || n.tasks[u].CreateFunded?) ==>
      u in s.tasks && n.tasks[u] == s.tasks[u]
  }

  lemma NoNewCreatesStep(s: State, a: Action, n: State)
    requires TasksChange(s, a, n)
    ensures !a.BeginCreate? && !a.Fund? ==> NoNewCreates(s, n)
  {
  }

  lemma FreshOkBegin(w: World, s: State, a: Action, n: State)
    requires a.BeginCreate? && FreshOk(s) && Takes(w, s, a, n)
    ensures FreshOk(n)
  {
  }

  lemma FundTaskIs(w: World, s: State, a: Action, n: State)
    requires a.Fund? && Takes(w, s, a, n)
    ensures n.swaps == s.swaps && n.funded.Keys <= s.funded.Keys + {s.tasks[a.t].swapId}
    ensures a.t in n.tasks ==>
              n.tasks[a.t].CreateFunded? && n.tasks[a.t].record.terms.swapId == s.tasks[a.t].swapId
  {
    assert FundTerms(w, s, a).Ok? ==> FundTerms(w, s, a).value.swapId == s.tasks[a.t].swapId;
  }

  lemma FreshOkFunded(s: State, a: Action, n: State)
    requires a.Fund? && FreshOk(s) && SwapsFunded(s) && ActorMoves(s, a, n) && n.swaps == s.swaps
    requires a.t in s.tasks && s.tasks[a.t].CreateRead? && n.funded.Keys <= s.funded.Keys + {s.tasks[a.t].swapId}
    requires a.t in n.tasks ==> n.tasks[a.t].CreateFunded? && n.tasks[a.t].record.terms.swapId == s.tasks[a.t].swapId
    ensures FreshOk(n)
  {
  }

  lemma FreshOkFund(w: World, s: State, a: Action, n: State)
    requires a.Fund? && FreshOk(s) && SwapsFunded(s) && Takes(w, s, a, n)
    ensures FreshOk(n)
  {
    FundTaskIs(w, s, a, n);
    CreateMoves(w, s, a, n);
    FreshOkFunded(s, a, n);
  }

  lemma FreshOkInsert(w: World, s: State, a: Action, n: State)
    requires a.Insert? && FreshOk(s) && LocksOk(s) && Takes(w, s, a, n)
    ensures FreshOk(n)
  {
  }

  lemma FreshOkRest(s: State, n: State)
    requires FreshOk(s) && NoNewCreates(s, n) && n.funded == s.funded && n.swaps.Keys == s.swaps.Keys
    ensures FreshOk(n)
  {
  }

  lemma FreshOkStep(w: World, s: State, a: Action, n: State)
    requires FreshOk(s) && LocksOk(s) && SwapsFunded(s) && Takes(w, s, a, n)
    ensures FreshOk(n)
  {
    if a.BeginCreate? {
      FreshOkBegin(w, s, a, n);
    } else if a.Fund? {
      FreshOkFund(w, s, a, n);
    } else if a.Insert? {
      FreshOkInsert(w, s, a, n);
    } else {
      FreshOkOther(w, s, a, n);
    }
  }

  lemma FreshOkOther(w: World, s: State, a: Action, n: State)
    requires !a.BeginCreate? && !a.Fund? && !a.Insert? && FreshOk(s) && Takes(w, s, a, n)
    ensures FreshOk(n)
  {
    TasksDelta(w, s, a, n);
    NoNewCreatesStep(s, a, n);
    OthersKeepFunded(w, s, a, n);
    SwapsDelta(w, s, a, n);
    FreshOkRest(s, n);
  }
}
