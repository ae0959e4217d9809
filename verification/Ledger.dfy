/**
 Where the funded amounts are, for every asset and every reachable state.
 */
module Ledger {
  import opened Types
  import opened Transaction
  import opened HtlcSpend
  import opened Chain
  import opened Records
  import opened Protocol
  import opened Invariant
  import Liveness
  import Safety

  // ----- one HTLC

  /** What create_swap recorded as locked. */
  function Locked(w: World, t: SwapTerms, a: Asset): nat {
    (if t.assetId == a then t.assetAmount else 0) + (if w.policyAsset == a then t.feeSubsidy else 0)
  }

  function HeldAt(ch: Chain, op: OutPoint, a: Asset): nat {
    if HasOutput(ch, op) && op !in ch.spent then SumOut([OutputAt(ch, op)], a) else 0
  }

  /** What the chain still holds in the HTLC's two outputs. */
  function Held(ch: Chain, t: SwapTerms, a: Asset): nat {
    HeldAt(ch, AssetOut(t), a) + HeldAt(ch, LbtcOut(t), a)
  }

  /** The outpoint was spent by a transaction the wallet never signed. */
  predicate TakenAt(s: State, op: OutPoint) {
    op in s.chain.spent && (s.chain.spent[op] in s.chain.txs ==> Strip(s.chain.txs[s.chain.spent[op]]) !in s.signed)
  }

  function TakenFrom(s: State, op: OutPoint, a: Asset): nat {
    if HasOutput(s.chain, op) && TakenAt(s, op) then SumOut([OutputAt(s.chain, op)], a) else 0
  }

  /** What others took with their own keys. */
  function Taken(s: State, t: SwapTerms, a: Asset): nat {
    TakenFrom(s, AssetOut(t), a) + TakenFrom(s, LbtcOut(t), a)
  }

  /** The wallet's own claim or refund has spent the HTLC. */
  predicate SettledByWallet(s: State, t: SwapTerms) {
    && AssetOut(t) in s.chain.spent && s.chain.spent[AssetOut(t)] in s.chain.txs
    && Strip(s.chain.txs[s.chain.spent[AssetOut(t)]]) in s.signed
  }

  /** The outputs of that spend. */
  function Settlement(s: State, t: SwapTerms): seq<TxOut> {
    if SettledByWallet(s, t) then s.chain.txs[s.chain.spent[AssetOut(t)]].outputs else []
  }

  /** Outputs that pay someone. */
  function Payouts(outs: seq<TxOut>): seq<TxOut> {
    if outs == [] then []
    else if OutScript(outs[0]) != [] then [outs[0]] + Payouts(outs[1..])
    else Payouts(outs[1..])
  }

  function Fees(outs: seq<TxOut>): seq<TxOut> {
    if outs == [] then []
    else if OutScript(outs[0]) == [] then [outs[0]] + Fees(outs[1..])
    else Fees(outs[1..])
  }

  lemma {:induction false} SumOutAppend(xs: seq<TxOut>, ys: seq<TxOut>, a: Asset)
    ensures SumOut(xs + ys, a) == SumOut(xs, a) + SumOut(ys, a)
  {
    if xs == [] {
      assert xs + ys == ys;
    } else {
      assert (xs + ys)[1..] == xs[1..] + ys;
      SumOutAppend(xs[1..], ys, a);
    }
  }

  lemma {:induction false} PayoutsAndFees(outs: seq<TxOut>, a: Asset)
    ensures SumOut(outs, a) == SumOut(Payouts(outs), a) + SumOut(Fees(outs), a)
  {
    if outs != [] {
      PayoutsAndFees(outs[1..], a);
      SumOutAppend([outs[0]], Payouts(outs[1..]), a);
      SumOutAppend([outs[0]], Fees(outs[1..]), a);
      SumOutAppend([outs[0]], outs[1..], a);
      assert [outs[0]] + outs[1..] == outs;
    }
  }

  lemma LockedIsOnChain(w: World, ch: Chain, f: FundedHtlc, a: Asset)
    requires HtlcOk(w, ch, f)
    ensures Locked(w, f.terms, a) ==
            SumOut([OutputAt(ch, AssetOut(f.terms))], a) + SumOut([OutputAt(ch, LbtcOut(f.terms))], a)
  {
  }

  /** What accounting needs of a state. */
  ghost predicate Auditable(w: World, s: State) {
    ChainValid(w.c, s.chain) && HtlcsOk(w, s) && FundingsDistinct(s) && AllSignedOk(w, s)
  }

  lemma SettledSpentBy(w: World, s: State, id: Id)
    requires Auditable(w, s) && id in s.funded && SettledByWallet(s, s.funded[id].terms)
    ensures Safety.SpentBy(w, s, id, s.chain.spent[AssetOut(s.funded[id].terms)])
  {
    Safety.SignedSpendIsOwn(w, s, id, AssetOut(s.funded[id].terms));
  }

  lemma SettlementConserves(w: World, s: State, id: Id, a: Asset)
    requires id in s.funded && HtlcOk(w, s.chain, s.funded[id]) && SettledByWallet(s, s.funded[id].terms)
    requires Safety.SpentBy(w, s, id, s.chain.spent[AssetOut(s.funded[id].terms)])
    ensures SumOut(Settlement(s, s.funded[id].terms), a) == Locked(w, s.funded[id].terms, a)
  {
    var t := s.funded[id].terms;
    var b := Strip(s.chain.txs[s.chain.spent[AssetOut(t)]]);
    var f := FundingOf(t, w.policyAsset);
    LockedIsOnChain(w, s.chain, s.funded[id], a);
    Liveness.SpendConserves(w.c, t.witnessScript, f, b.outputs[0].script, b.outputs[2].value, b.lockTime,
                            b.inputs[0].sequence, a);
    Liveness.SumOutTwo(HtlcOutput(w.c, t.witnessScript, f, 0), HtlcOutput(w.c, t.witnessScript, f, 1), a);
  }

  /** Locked is held, paid out, spent on fees, or taken by others. */
  predicate Accounted(w: World, s: State, t: SwapTerms, a: Asset) {
    Locked(w, t, a) ==
    Held(s.chain, t, a) + SumOut(Payouts(Settlement(s, t)), a) + SumOut(Fees(Settlement(s, t)), a) + Taken(s, t, a)
  }

  /** The LBTC output is not settled alone. */
  lemma UnsettledLbtc(w: World, s: State, id: Id)
    requires Auditable(w, s) && id in s.funded && !SettledByWallet(s, s.funded[id].terms)
    ensures LbtcOut(s.funded[id].terms) in s.chain.spent ==> TakenAt(s, LbtcOut(s.funded[id].terms))
  {
    var op := LbtcOut(s.funded[id].terms);
    if op in s.chain.spent && !TakenAt(s, op) {
      Safety.SignedSpendIsOwn(w, s, id, op);
      assert false;
    }
  }

  lemma UnsettledAccounted(w: World, s: State, id: Id, a: Asset)
    requires Auditable(w, s) && id in s.funded && !SettledByWallet(s, s.funded[id].terms)
    ensures Accounted(w, s, s.funded[id].terms, a)
  {
    LockedIsOnChain(w, s.chain, s.funded[id], a);
    UnsettledLbtc(w, s, id);
  }

  lemma SettledAccounted(w: World, s: State, id: Id, a: Asset)
    requires Auditable(w, s) && id in s.funded && SettledByWallet(s, s.funded[id].terms)
    ensures Accounted(w, s, s.funded[id].terms, a)
  {
    SettledSpentBy(w, s, id);
    SettlementConserves(w, s, id, a);
    PayoutsAndFees(Settlement(s, s.funded[id].terms), a);
  }

  // ----- all of them

  ghost function Total(ids: set<Id>, amount: Id -> nat): nat {
    if ids == {} then 0 else
      var id :| id in ids;
      amount(id) + Total(ids - {id}, amount)
  }

  lemma {:induction false} TotalOfSum(ids: set<Id>, sum: Id -> nat, v: Id -> nat, x: Id -> nat, y: Id -> nat,
                                      z: Id -> nat)
    requires forall id :: id in ids ==> sum(id) == v(id) + x(id) + y(id) + z(id)
    ensures Total(ids, sum) == Total(ids, v) + Total(ids, x) + Total(ids, y) + Total(ids, z)
    decreases ids
  {
    if ids != {} {
      var id :| id in ids && Total(ids, sum) == sum(id) + Total(ids - {id}, sum)
                && Total(ids, v) == v(id) + Total(ids - {id}, v)
                && Total(ids, x) == x(id) + Total(ids - {id}, x)
                && Total(ids, y) == y(id) + Total(ids - {id}, y)
                && Total(ids, z) == z(id) + Total(ids - {id}, z);
      TotalOfSum(ids - {id}, sum, v, x, y, z);
    }
  }

  ghost function LockedOf(w: World, s: State, a: Asset): Id -> nat {
    (id: Id) => if id in s.funded then Locked(w, s.funded[id].terms, a) else 0
  }

  ghost function HeldOf(s: State, a: Asset): Id -> nat {
    (id: Id) => if id in s.funded then Held(s.chain, s.funded[id].terms, a) else 0
  }

  ghost function PaidOf(s: State, a: Asset): Id -> nat {
    (id: Id) => if id in s.funded then SumOut(Payouts(Settlement(s, s.funded[id].terms)), a) else 0
  }

  ghost function FeesOf(s: State, a: Asset): Id -> nat {
    (id: Id) => if id in s.funded then SumOut(Fees(Settlement(s, s.funded[id].terms)), a) else 0
  }

  ghost function TakenOf(s: State, a: Asset): Id -> nat {
    (id: Id) => if id in s.funded then Taken(s, s.funded[id].terms, a) else 0
  }

  ghost predicate Balances(w: World, s: State, a: Asset) {
    Total(s.funded.Keys, LockedOf(w, s, a)) ==
    Total(s.funded.Keys, HeldOf(s, a)) + Total(s.funded.Keys, PaidOf(s, a)) + Total(s.funded.Keys, FeesOf(s, a))
    + Total(s.funded.Keys, TakenOf(s, a))
  }

  lemma AuditableBalances(w: World, s: State, a: Asset)
    requires Auditable(w, s)
    ensures Balances(w, s, a)
  {
    forall id | id in s.funded.Keys
      ensures LockedOf(w, s, a)(id) == HeldOf(s, a)(id) + PaidOf(s, a)(id) + FeesOf(s, a)(id) + TakenOf(s, a)(id)
    {
      if SettledByWallet(s, s.funded[id].terms) {
        SettledAccounted(w, s, id, a);
      } else {
        UnsettledAccounted(w, s, id, a);
      }
    }
    TotalOfSum(s.funded.Keys, LockedOf(w, s, a), HeldOf(s, a), PaidOf(s, a), FeesOf(s, a), TakenOf(s, a));
  }

  lemma RunAuditable(w: World, run: seq<State>, acts: seq<Action>, i: nat)
    requires WorldOk(w) && IsRun(w, run, acts) && i < |run|
    ensures Auditable(w, run[i])
  {
    Safety.RunKeepsInv(w, run, acts, i);
  }

  /**
   In every reachable state and for every asset, over all HTLCs and whoever holds their
   keys: what was locked is still in unspent outputs, was paid to claimers and refunders
   by the wallet, went to fees, or was taken by others with keys of their own.
   */
  lemma LedgerBalances(w: World, run: seq<State>, acts: seq<Action>, i: nat, a: Asset)
    requires WorldOk(w) && IsRun(w, run, acts) && i < |run|
    ensures Balances(w, run[i], a)
  {
    RunAuditable(w, run, acts, i);
    AuditableBalances(w, run[i], a);
  }

  /** Nothing is taken from an HTLC whose two keys the wallet holds. */
  lemma NothingTakenFromOwned(w: World, run: seq<State>, acts: seq<Action>, i: nat, id: Id, a: Asset)
    requires WorldOk(w) && IsRun(w, run, acts) && i < |run|
    requires id in run[i].funded && BothKeysOwned(w, run[i].funded[id])
    ensures Taken(run[i], run[i].funded[id].terms, a) == 0
  {
    Safety.RunKeepsInv(w, run, acts, i);
    OwnedNotTaken(w, run[i], id);
  }

  lemma OwnedNotTaken(w: World, s: State, id: Id)
    requires OwnedSpendsSigned(w, s) && id in s.funded && BothKeysOwned(w, s.funded[id])
    ensures !TakenAt(s, AssetOut(s.funded[id].terms)) && !TakenAt(s, LbtcOut(s.funded[id].terms))
  {
    var t := s.funded[id].terms;
    assert IsOutPointOf(AssetOut(t), t) && IsOutPointOf(LbtcOut(t), t);
  }

  predicate SharesNothing(s: State, t: SwapTerms, u: SwapTerms) {
    && {AssetOut(t), LbtcOut(t)} !! {AssetOut(u), LbtcOut(u)}
    && (SettledByWallet(s, t) && SettledByWallet(s, u) ==>
          s.chain.spent[AssetOut(t)] != s.chain.spent[AssetOut(u)])
  }

  /** Nothing is counted twice: two HTLCs share no output, and no transaction settles both. */
  lemma NothingCountedTwice(w: World, run: seq<State>, acts: seq<Action>, i: nat, id: Id, other: Id)
    requires WorldOk(w) && IsRun(w, run, acts) && i < |run|
    requires id in run[i].funded && other in run[i].funded && id != other
    ensures SharesNothing(run[i], run[i].funded[id].terms, run[i].funded[other].terms)
  {
    RunAuditable(w, run, acts, i);
    SettlementsDiffer(w, run[i], id, other);
  }

  lemma SettlementOrigin(w: World, s: State, id: Id)
    requires Auditable(w, s) && id in s.funded && SettledByWallet(s, s.funded[id].terms)
    ensures s.signed[Strip(s.chain.txs[s.chain.spent[AssetOut(s.funded[id].terms)]])] == Some(id)
  {
    Safety.SignedSpendIsOwn(w, s, id, AssetOut(s.funded[id].terms));
  }

  lemma OutputsDiffer(s: State, id: Id, other: Id)
    requires FundingsDistinct(s) && id in s.funded && other in s.funded && id != other
    ensures var t, u := s.funded[id].terms, s.funded[other].terms;
            {AssetOut(t), LbtcOut(t)} !! {AssetOut(u), LbtcOut(u)}
  {
  }

  lemma SettlementsDiffer(w: World, s: State, id: Id, other: Id)
    requires Auditable(w, s) && id in s.funded && other in s.funded && id != other
    ensures SharesNothing(s, s.funded[id].terms, s.funded[other].terms)
  {
    OutputsDiffer(s, id, other);
    if SettledByWallet(s, s.funded[id].terms) && SettledByWallet(s, s.funded[other].terms) {
      SettlementOrigin(w, s, id);
      SettlementOrigin(w, s, other);
    }
  }

  /** What a settled HTLC paid: the asset in full and an LBTC remainder, to one claimer or refunder, and one fee. */
  ghost predicate PaidInFull(w: World, t: SwapTerms, outs: seq<TxOut>, receive: bytes, fee: u64) {
    && fee < t.feeSubsidy
    && Payouts(outs) == [Explicit(t.assetId, t.assetAmount, receive),
                         Explicit(w.policyAsset, t.feeSubsidy - fee, receive)]
    && Fees(outs) == [Explicit(w.policyAsset, fee, [])]
    && (IsClaimerScript(w, t, receive) || IsRefunderScript(w, t, receive))
  }

  lemma SettlementPaysInFull(w: World, run: seq<State>, acts: seq<Action>, i: nat, id: Id)
    returns (receive: bytes, fee: u64)
    requires WorldOk(w) && IsRun(w, run, acts) && i < |run|
    requires id in run[i].funded && SettledByWallet(run[i], run[i].funded[id].terms)
    ensures var t := run[i].funded[id].terms; PaidInFull(w, t, Settlement(run[i], t), receive, fee)
  {
    RunAuditable(w, run, acts, i);
    SettledSpentBy(w, run[i], id);
    receive, fee := SettlementPays(w, run[i], id);
  }

  lemma PayeeScriptNotEmpty(w: World, f: FundedHtlc, receive: bytes)
    requires WorldOk(w) && SpecOf(w, f).Ok?
    requires IsClaimerScript(w, f.terms, receive) || IsRefunderScript(w, f.terms, receive)
    ensures receive != []
  {
    if IsWalletScript(w, receive) {
      var k: nat :| w.addressAt(k).script == receive;
    }
  }

  lemma SettlementPays(w: World, s: State, id: Id) returns (receive: bytes, fee: u64)
    requires WorldOk(w) && id in s.funded && HtlcOk(w, s.chain, s.funded[id])
    requires SettledByWallet(s, s.funded[id].terms)
    requires Safety.SpentBy(w, s, id, s.chain.spent[AssetOut(s.funded[id].terms)])
    ensures PaidInFull(w, s.funded[id].terms, Settlement(s, s.funded[id].terms), receive, fee)
  {
    var t := s.funded[id].terms;
    var b := Strip(s.chain.txs[s.chain.spent[AssetOut(t)]]);
    receive, fee := b.outputs[0].script, b.outputs[2].value;
    PayeeScriptNotEmpty(w, s.funded[id], receive);
    SplitOfThree(b.outputs[0], b.outputs[1], b.outputs[2]);
    assert b.outputs == [b.outputs[0], b.outputs[1], b.outputs[2]];
  }

  lemma SplitOfThree(x: TxOut, y: TxOut, z: TxOut)
    requires OutScript(x) != [] && OutScript(y) != [] && OutScript(z) == []
    ensures Payouts([x, y, z]) == [x, y] && Fees([x, y, z]) == [z]
  {
    SplitCons(z, []);
    SplitCons(y, [z]);
    SplitCons(x, [y, z]);
    assert [x, y, z] == [x] + [y, z] && [y, z] == [y] + [z] && [z] == [z] + [];
  }

  lemma SplitCons(x: TxOut, rest: seq<TxOut>)
    ensures Payouts([x] + rest) == if OutScript(x) != [] then [x] + Payouts(rest) else Payouts(rest)
    ensures Fees([x] + rest) == if OutScript(x) == [] then [x] + Fees(rest) else Fees(rest)
  {
    assert ([x] + rest)[1..] == rest;
  }
}
