/**
 Atomicity on the chain with any number of tasks: when a swap whose payment is stored can
 still be refunded.
 */
module RefundRaces {
  import opened Types
  import opened Transaction
  import opened Chain
  import opened Records
  import opened Offer
  import opened Store
  import opened Protocol
  import opened Invariant
  import opened RefundHistory
  import opened Handlers
  import InvariantSigned
  import Liveness
  import RefundFutures
  import Safety

  /** Some continuation of any tasks, blocks and transactions refunds the HTLC on the chain. */
  ghost predicate MayBeRefunded(w: World, s: State, t: SwapTerms) {
    exists acts, n :: Leads(w, s, acts, n) && RefundSpent(w, n.chain, t)
  }

  // ----- passes that still know the swap as unpaid

  /** A pass over these rows gets to a due row of the swap, and signs its refund. */
  predicate WillSign(w: World, cfg: Config, tip: u32, fee: u64, todo: seq<SwapRecord>, id: Id)
    decreases |todo|
  {
    && todo != []
    && (RefundDue(todo[0], tip) ==> RefundFor(w, cfg, todo[0].terms, fee).Ok?)
    && ((RefundDue(todo[0], tip) && todo[0].terms.swapId == id) || WillSign(w, cfg, tip, fee, todo[1..], id))
  }

  predicate StaleIn(w: World, cfg: Config, k: Task, id: Id) {
    (k.RefundPass? || k.RefundSent?) && WillSign(w, cfg, k.tip, k.fee, k.todo, id)
  }

  /** A refund pass under way listed the swap before it was paid, and will sign its refund. */
  predicate Stale(w: World, s: State, id: Id) {
    exists t :: t in s.tasks && StaleIn(w, s.cfg, s.tasks[t], id)
  }

  // ----- without either, no refund is ever signed

  /** The payment is stored, no refund is signed, and no pass is about to sign one. */
  ghost predicate Settled(w: World, s: State, id: Id) {
    && id in s.swaps && s.swaps[id].lnPreimage.Some? && !Stale(w, s, id)
    && id in s.funded && !RefundSigned(w, s, s.funded[id].terms)
  }

  lemma SignerIsStale(w: World, s: State, a: Action, t: SwapTerms)
    requires SignsRefundOf(w, s, a, t)
    ensures Stale(w, s, t.swapId)
  {
    assert StaleIn(w, s.cfg, s.tasks[a.t], t.swapId);
  }

  lemma {:induction false} SignedRow(w: World, cfg: Config, tip: u32, fee: u64, todo: seq<SwapRecord>, id: Id)
    requires WillSign(w, cfg, tip, fee, todo, id)
    ensures exists i :: 0 <= i < |todo| && todo[i].terms.swapId == id && RefundDue(todo[i], tip)
    decreases |todo|
  {
    if !(RefundDue(todo[0], tip) && todo[0].terms.swapId == id) {
      SignedRow(w, cfg, tip, fee, todo[1..], id);
      var i :| 0 <= i < |todo[1..]| && todo[1..][i].terms.swapId == id && RefundDue(todo[1..][i], tip);
      assert todo[i + 1] == todo[1..][i];
    }
  }

  /** What a refund task knows, it knew before. */
  lemma NextPassStale(w: World, s: State, a: Action, n: State, id: Id)
    requires a.RefundNext? && Takes(w, s, a, n) && a.t in n.tasks && StaleIn(w, n.cfg, n.tasks[a.t], id)
    ensures a.t in s.tasks && StaleIn(w, s.cfg, s.tasks[a.t], id)
  {
  }

  lemma RecordedPassStale(w: World, s: State, a: Action, n: State, id: Id)
    requires a.PersistRefund? && Takes(w, s, a, n) && a.t in n.tasks && StaleIn(w, n.cfg, n.tasks[a.t], id)
    ensures a.t in s.tasks && StaleIn(w, s.cfg, s.tasks[a.t], id)
  {
  }

  /** A new pass does not list a paid swap as due. */
  lemma NewPassFresh(w: World, s: State, a: Action, n: State, id: Id)
    requires a.BeginRefund? && Takes(w, s, a, n)
    requires id in s.swaps && s.swaps[id].lnPreimage.Some? && FieldsOk(w, s.chain, s.swaps[id])
    ensures a.t in n.tasks ==> !StaleIn(w, n.cfg, n.tasks[a.t], id)
  {
    if a.t in n.tasks && StaleIn(w, n.cfg, n.tasks[a.t], id) {
      SignedRow(w, n.cfg, a.tip, a.fee, a.todo, id);
      assert false;
    }
  }

  lemma ActorStale(w: World, s: State, a: Action, n: State, id: Id)
    requires Actor(a).Some? && Takes(w, s, a, n) && ActorMoves(s, a, n)
    requires id in s.swaps && s.swaps[id].lnPreimage.Some? && FieldsOk(w, s.chain, s.swaps[id])
    requires a.t in n.tasks && StaleIn(w, n.cfg, n.tasks[a.t], id)
    ensures Stale(w, s, id)
  {
    if a.RefundNext? {
      NextPassStale(w, s, a, n, id);
    } else if a.PersistRefund? {
      RecordedPassStale(w, s, a, n, id);
    } else if a.BeginRefund? {
      NewPassFresh(w, s, a, n, id);
    }
  }

  lemma StaleBefore(w: World, s: State, a: Action, n: State, id: Id)
    requires Takes(w, s, a, n) && id in s.swaps && s.swaps[id].lnPreimage.Some? && FieldsOk(w, s.chain, s.swaps[id])
    requires Stale(w, n, id)
    ensures Stale(w, s, id)
  {
    TasksDelta(w, s, a, n);
    var u :| u in n.tasks && StaleIn(w, n.cfg, n.tasks[u], id);
    if Actor(a) == Some(u) {
      ActorStale(w, s, a, n, id);
    } else {
      BystanderStale(w, s, a, n, u, id);
    }
  }

  lemma BystanderStale(w: World, s: State, a: Action, n: State, u: TaskId, id: Id)
    requires TasksChange(s, a, n) && Actor(a) != Some(u) && u in n.tasks && StaleIn(w, n.cfg, n.tasks[u], id)
    ensures Stale(w, s, id)
  {
    assert u in s.tasks && n.tasks[u] == s.tasks[u] && n.cfg == s.cfg;
  }

  lemma SettledStep(w: World, s: State, a: Action, n: State, id: Id)
    requires Takes(w, s, a, n) && Settled(w, s, id) && RecordsOk(w, s)
    requires Grows(s, n) && s.funded[id].terms.swapId == id && SignedChange(w, s, a, n, s.funded[id].terms)
    ensures Settled(w, n, id)
  {
    assert FieldsOk(w, s.chain, s.swaps[id]);
    if Stale(w, n, id) {
      StaleBefore(w, s, a, n, id);
      assert false;
    }
    if SignsRefundOf(w, s, a, s.funded[id].terms) {
      SignerIsStale(w, s, a, s.funded[id].terms);
      assert false;
    }
  }

  lemma RunSettledStep(w: World, run: seq<State>, acts: seq<Action>, i: nat, id: Id)
    requires WorldOk(w) && IsRun(w, run, acts) && i < |acts| && Settled(w, run[i], id)
    ensures Settled(w, run[i + 1], id)
  {
    Safety.RunKeepsInv(w, run, acts, i);
    Safety.RunStep(w, run, acts, i + 1);
    Safety.RunStepGrows(w, run, acts, i + 1);
    RunRefundSignedChange(w, run, acts, i, id);
    SettledStep(w, run[i], acts[i], run[i + 1], id);
  }

  lemma {:induction false} StaysSettled(w: World, run: seq<State>, acts: seq<Action>, i: nat, j: nat, id: Id)
    requires WorldOk(w) && IsRun(w, run, acts) && i <= j < |run| && Settled(w, run[i], id)
    ensures Settled(w, run[j], id)
  {
    if i < j {
      StaysSettled(w, run, acts, i, j - 1, id);
      RunSettledStep(w, run, acts, j - 1, id);
    }
  }

  /** A spent HTLC of wallet keys keeps its spender. */
  lemma ClaimedStays(w: World, ch: Chain, later: Chain, t: SwapTerms)
    requires Extends(ch, later) && AssetOut(t) in ch.spent && SpentTogether(ch, t, ch.spent[AssetOut(t)])
    requires RefundSpent(w, later, t)
    ensures RefundSpent(w, ch, t)
  {
  }

  /** The swap is not refunded on the chain, and nothing signed or under way will refund it. */
  ghost predicate OutOfReach(w: World, s: State, id: Id) {
    && id in s.funded && !RefundSpent(w, s.chain, s.funded[id].terms)
    && (Liveness.Unspent(s.chain, s.funded[id].terms) ==> Settled(w, s, id))
  }

  lemma NeverRefunded(w: World, run: seq<State>, acts: seq<Action>, i: nat, j: nat, id: Id)
    requires WorldOk(w) && IsRun(w, run, acts) && i <= j < |run| && OutOfReach(w, run[i], id)
    requires BothKeysOwned(w, run[i].funded[id])
    ensures !RefundSpent(w, run[j].chain, run[i].funded[id].terms)
  {
    Safety.FundedStays(w, run, acts, i, j, id);
    if Settled(w, run[i], id) {
      StaysSettled(w, run, acts, i, j, id);
      SettledUnspent(w, run, acts, j, id);
    } else if RefundSpent(w, run[j].chain, run[i].funded[id].terms) {
      RefundWasThere(w, run, acts, i, j, id);
      assert false;
    }
  }

  lemma SettledUnspent(w: World, run: seq<State>, acts: seq<Action>, j: nat, id: Id)
    requires WorldOk(w) && IsRun(w, run, acts) && j < |run| && Settled(w, run[j], id)
    requires BothKeysOwned(w, run[j].funded[id])
    ensures !RefundSpent(w, run[j].chain, run[j].funded[id].terms)
  {
    if RefundSpent(w, run[j].chain, run[j].funded[id].terms) {
      OwnedRefundSigned(w, run, acts, j, id);
      assert false;
    }
  }

  lemma SpentOnce(w: World, run: seq<State>, acts: seq<Action>, i: nat, id: Id)
    requires WorldOk(w) && IsRun(w, run, acts) && i < |run|
    requires id in run[i].funded && BothKeysOwned(w, run[i].funded[id])
    requires !Liveness.Unspent(run[i].chain, run[i].funded[id].terms)
    ensures var t := run[i].funded[id].terms;
            AssetOut(t) in run[i].chain.spent && SpentTogether(run[i].chain, t, run[i].chain.spent[AssetOut(t)])
  {
    Safety.OwnedHtlcSpentOnce(w, run, acts, i, id);
  }

  lemma RefundWasThere(w: World, run: seq<State>, acts: seq<Action>, i: nat, j: nat, id: Id)
    requires WorldOk(w) && IsRun(w, run, acts) && i <= j < |run| && id in run[i].funded
    requires BothKeysOwned(w, run[i].funded[id]) && !Liveness.Unspent(run[i].chain, run[i].funded[id].terms)
    requires RefundSpent(w, run[j].chain, run[i].funded[id].terms)
    ensures RefundSpent(w, run[i].chain, run[i].funded[id].terms)
  {
    SpentOnce(w, run, acts, i, id);
    Safety.RunGrows(w, run, acts, i, j);
    ClaimedStays(w, run[i].chain, run[j].chain, run[i].funded[id].terms);
  }

  lemma FutureNeverRefunded(w: World, run: seq<State>, acts: seq<Action>, i: nat, id: Id, path: seq<State>,
                            more: seq<Action>)
    requires WorldOk(w) && IsRun(w, run, acts) && i < |run| && OutOfReach(w, run[i], id)
    requires BothKeysOwned(w, run[i].funded[id]) && IsPath(w, path, more) && path[0] == run[i]
    ensures !RefundSpent(w, path[|path| - 1].chain, run[i].funded[id].terms)
  {
    var longer := RefundFutures.Joined(run, i, path);
    RefundFutures.JoinedIsRun(w, run, acts, i, path, more);
    assert longer[i] == run[i] && longer[|longer| - 1] == path[|path| - 1];
    NeverRefunded(w, longer, acts[..i] + more, i, |longer| - 1, id);
  }

  lemma OutOfReachStays(w: World, run: seq<State>, acts: seq<Action>, i: nat, id: Id)
    requires WorldOk(w) && IsRun(w, run, acts) && i < |run| && OutOfReach(w, run[i], id)
    requires BothKeysOwned(w, run[i].funded[id])
    ensures !MayBeRefunded(w, run[i], run[i].funded[id].terms)
  {
    forall more, n | Leads(w, run[i], more, n)
      ensures !RefundSpent(w, n.chain, run[i].funded[id].terms)
    {
      var path :| IsPath(w, path, more) && path[0] == run[i] && path[|path| - 1] == n;
      FutureNeverRefunded(w, run, acts, i, id, path, more);
    }
  }

  // ----- with either, one can still land

  /** Task `u` is a pass over rows of which one, of the swap with these terms, will be signed. */
  predicate PassNears(w: World, m: State, u: TaskId, todo: seq<SwapRecord>, t: SwapTerms) {
    && u in m.tasks && m.tasks[u].RefundPass? && m.tasks[u].todo == todo && StaleIn(w, m.cfg, m.tasks[u], t.swapId)
    && RowsAre(todo, t)
  }

  predicate RowsAre(todo: seq<SwapRecord>, t: SwapTerms) {
    forall i :: 0 <= i < |todo| && todo[i].terms.swapId == t.swapId ==> todo[i].terms == t
  }

  predicate SameFunding(m: State, n: State) {
    n.chain == m.chain && n.funded == m.funded
  }

  /** Such a pass signs the refund, whatever the network does with the others. */
  lemma {:induction false} PassSigns(w: World, s: State, acts: seq<Action>, m: State, u: TaskId, todo: seq<SwapRecord>,
                                     t: SwapTerms)
    returns (more: seq<Action>, n: State)
    requires Leads(w, s, acts, m) && PassNears(w, m, u, todo, t)
    ensures Leads(w, s, more, n) && SameFunding(m, n) && RefundSigned(w, n, t)
    decreases |todo|
  {
    var k := LostRound(w, s, acts, m, u, todo, t);
    if RefundSigned(w, k, t) {
      more, n := acts + [RefundNext(u, Reply(false, false))], k;
    } else {
      more, n := PassSigns(w, s, acts + [RefundNext(u, Reply(false, false))], k, u, todo[1..], t);
    }
  }

  /** One round of the pass; its broadcast, if any, gets lost. */
  lemma LostRound(w: World, s: State, acts: seq<Action>, m: State, u: TaskId, todo: seq<SwapRecord>, t: SwapTerms)
    returns (n: State)
    requires Leads(w, s, acts, m) && PassNears(w, m, u, todo, t)
    ensures todo != [] && Leads(w, s, acts + [RefundNext(u, Reply(false, false))], n) && SameFunding(m, n)
    ensures RefundSigned(w, n, t) || PassNears(w, n, u, todo[1..], t)
  {
    n := LostRoundTakes(w, m, u, todo, t);
    LeadsOn(w, s, acts, m, RefundNext(u, Reply(false, false)), n);
    if RefundDue(todo[0], m.tasks[u].tip) && todo[0].terms.swapId == t.swapId {
      SignedNow(w, m, RefundNext(u, Reply(false, false)), n, t);
    } else {
      StillNears(w, m, n, u, todo, t);
    }
  }

  lemma LostRoundTakes(w: World, m: State, u: TaskId, todo: seq<SwapRecord>, t: SwapTerms) returns (n: State)
    requires PassNears(w, m, u, todo, t)
    ensures todo != [] && Takes(w, m, RefundNext(u, Reply(false, false)), n) && SameFunding(m, n)
    ensures n.cfg == m.cfg && u in n.tasks && n.tasks[u] == RefundPass(m.tasks[u].tip, todo[1..], m.tasks[u].fee)
  {
    n := ApplyRefund(w, m, u, Reply(false, false));
  }

  lemma StillNears(w: World, m: State, n: State, u: TaskId, todo: seq<SwapRecord>, t: SwapTerms)
    requires PassNears(w, m, u, todo, t) && !(RefundDue(todo[0], m.tasks[u].tip) && todo[0].terms.swapId == t.swapId)
    requires n.cfg == m.cfg && u in n.tasks && n.tasks[u] == RefundPass(m.tasks[u].tip, todo[1..], m.tasks[u].fee)
    ensures PassNears(w, n, u, todo[1..], t)
  {
  }

  lemma SignedNow(w: World, m: State, a: Action, n: State, t: SwapTerms)
    requires a.RefundNext? && Takes(w, m, a, n)
    requires RefundDue(m.tasks[a.t].todo[0], m.tasks[a.t].tip) && m.tasks[a.t].todo[0].terms == t
    ensures RefundSigned(w, n, t)
  {
    assert InvariantSigned.RefundSigns(w, m, a);
    RefundPut(w, m, a, n);
    assert RefundBodyOf(w, m, a) in n.signed;
  }

  /** A pass that is about to record a refund does so first. */
  lemma RecordsFirst(w: World, s: State, u: TaskId) returns (acts: seq<Action>, m: State)
    requires u in s.tasks && (s.tasks[u].RefundPass? || (s.tasks[u].RefundSent? && s.tasks[u].terms.swapId in s.swaps))
    ensures Leads(w, s, acts, m) && m.chain == s.chain && m.funded == s.funded && m.cfg == s.cfg
    ensures u in m.tasks && m.tasks[u] == RefundPass(s.tasks[u].tip, s.tasks[u].todo, s.tasks[u].fee)
  {
    if s.tasks[u].RefundPass? {
      acts, m := [], s;
      LeadsNowhere(w, s);
    } else {
      var k := s.tasks[u];
      acts := [PersistRefund(u)];
      m := UpdateSwap(s, SetStatus(k.terms.swapId, Refunded)).(tasks := s.tasks[u := RefundPass(k.tip, k.todo, k.fee)]);
      LeadsFirst(w, s, PersistRefund(u), m);
    }
  }

  lemma StaleSigns(w: World, s: State, id: Id) returns (acts: seq<Action>, n: State)
    requires Stale(w, s, id) && TasksOk(w, s) && SwapsFunded(s) && HtlcsOk(w, s) && id in s.funded
    ensures Leads(w, s, acts, n) && SameFunding(s, n) && RefundSigned(w, n, s.funded[id].terms)
  {
    var u :| u in s.tasks && StaleIn(w, s.cfg, s.tasks[u], id);
    RowsAreFunded(w, s, u, id);
    var m: State;
    acts, m := RecordsFirst(w, s, u);
    acts, n := PassSigns(w, s, acts, m, u, s.tasks[u].todo, s.funded[id].terms);
  }

  lemma RowsAreFunded(w: World, s: State, u: TaskId, id: Id)
    requires TasksOk(w, s) && SwapsFunded(s) && HtlcsOk(w, s) && id in s.funded
    requires u in s.tasks && (s.tasks[u].RefundPass? || s.tasks[u].RefundSent?)
    ensures s.funded[id].terms.swapId == id && RowsAre(s.tasks[u].todo, s.funded[id].terms)
    ensures s.tasks[u].RefundSent? ==> s.tasks[u].terms.swapId in s.swaps
  {
    assert TaskOk(w, s, s.tasks[u]);
    forall i | 0 <= i < |s.tasks[u].todo| && s.tasks[u].todo[i].terms.swapId == id
      ensures s.tasks[u].todo[i].terms == s.funded[id].terms
    {
      assert InSwaps(s, s.tasks[u].todo[i].terms);
    }
  }

  /** No transaction on the chain shares its txid with a refund of the swap. */
  ghost predicate RefundTxidsApart(w: World, ch: Chain, t: SwapTerms) {
    forall b :: IsRefundBody(w, t, b) ==> Liveness.NoTxidCollision(w.c, ch, b)
  }

  lemma OtherTakes(w: World, s: State, tx: Tx)
    requires Acceptable(w.c, s.chain, tx) && Strip(tx) in s.signed
    ensures Takes(w, s, OtherTx(tx), s.(chain := Accept(w.c, s.chain, tx)))
  {
  }

  lemma LandsBy(w: World, s: State, acts: seq<Action>, m: State, t: SwapTerms, tx: Tx)
    requires Leads(w, s, acts, m) && ChainValid(w.c, m.chain) && IsRefundBody(w, t, Strip(tx))
    requires Acceptable(w.c, m.chain, tx) && Strip(tx) in m.signed
    ensures MayBeRefunded(w, s, t)
  {
    var n := m.(chain := Accept(w.c, m.chain, tx));
    OtherTakes(w, m, tx);
    LeadsOn(w, s, acts, m, OtherTx(tx), n);
    OtherRefundLands(w, m, OtherTx(tx), n, t);
  }

  /** A state in which a refund of the HTLC is signed and can still be accepted. */
  ghost predicate SignedAndUnspent(w: World, m: State, id: Id) {
    && ChainValid(w.c, m.chain) && Readable(w, m) && id in m.funded && BothKeysOwned(w, m.funded[id])
    && var t := m.funded[id].terms;
       Liveness.Unspent(m.chain, t) && RefundSigned(w, m, t) && RefundTxidsApart(w, m.chain, t)
  }

  lemma SignedLands(w: World, s: State, acts: seq<Action>, m: State, id: Id)
    requires WorldOk(w) && Leads(w, s, acts, m) && SignedAndUnspent(w, m, id)
    ensures MayBeRefunded(w, s, m.funded[id].terms)
  {
    var t := m.funded[id].terms;
    var b :| b in m.signed && IsRefundBody(w, t, b);
    var tx := RefundFutures.SignedRefundAcceptable(w, m, id, b);
    LandsBy(w, s, acts, m, t, tx);
  }

  lemma PathKeepsInv(w: World, run: seq<State>, acts: seq<Action>, i: nat, path: seq<State>, more: seq<Action>)
    requires WorldOk(w) && IsRun(w, run, acts) && i < |run| && IsPath(w, path, more) && path[0] == run[i]
    ensures Inv(w, path[|path| - 1])
  {
    var longer := RefundFutures.Joined(run, i, path);
    RefundFutures.JoinedIsRun(w, run, acts, i, path, more);
    assert longer[|longer| - 1] == path[|path| - 1];
    Safety.RunKeepsInv(w, longer, acts[..i] + more, |longer| - 1);
  }

  /** What the actions lead to from a reachable state is reachable. */
  lemma LeadsKeepsInv(w: World, run: seq<State>, acts: seq<Action>, i: nat, more: seq<Action>, n: State)
    requires WorldOk(w) && IsRun(w, run, acts) && i < |run| && Leads(w, run[i], more, n)
    ensures Inv(w, n)
  {
    var path :| IsPath(w, path, more) && path[0] == run[i] && path[|path| - 1] == n;
    PathKeepsInv(w, run, acts, i, path, more);
  }

  lemma ReachMayLand(w: World, run: seq<State>, acts: seq<Action>, i: nat, id: Id)
    requires WorldOk(w) && IsRun(w, run, acts) && i < |run|
    requires id in run[i].funded && BothKeysOwned(w, run[i].funded[id])
    requires Liveness.Unspent(run[i].chain, run[i].funded[id].terms)
    requires RefundSigned(w, run[i], run[i].funded[id].terms) || Stale(w, run[i], id)
    requires RefundTxidsApart(w, run[i].chain, run[i].funded[id].terms)
    ensures MayBeRefunded(w, run[i], run[i].funded[id].terms)
  {
    var more, m := [], run[i];
    LeadsNowhere(w, run[i]);
    if !RefundSigned(w, run[i], run[i].funded[id].terms) {
      Safety.RunKeepsInv(w, run, acts, i);
      more, m := StaleSigns(w, run[i], id);
    }
    LeadsKeepsInv(w, run, acts, i, more, m);
    SignedLands(w, run[i], more, m, id);
  }

  /**
   With any number of tasks, and the wallet's keys: a swap whose payment is stored can still
   be refunded on the chain, or has been, exactly if it has been, or its outputs are unspent
   and a refund of it is signed or a pass under way listed it before it was paid.
   */
  lemma StoredPaymentRefundableIff(w: World, run: seq<State>, acts: seq<Action>, i: nat, id: Id)
    requires WorldOk(w) && IsRun(w, run, acts) && i < |run|
    requires id in run[i].swaps && run[i].swaps[id].lnPreimage.Some?
    requires id in run[i].funded && BothKeysOwned(w, run[i].funded[id])
    requires RefundTxidsApart(w, run[i].chain, run[i].funded[id].terms)
    ensures var s, t := run[i], run[i].funded[id].terms;
            MayBeRefunded(w, s, t) <==>
            || RefundSpent(w, s.chain, t)
            || (Liveness.Unspent(s.chain, t) && (RefundSigned(w, s, t) || Stale(w, s, id)))
  {
    var s, t := run[i], run[i].funded[id].terms;
    if RefundSpent(w, s.chain, t) {
      LeadsNowhere(w, s);
    } else if Liveness.Unspent(s.chain, t) && (RefundSigned(w, s, t) || Stale(w, s, id)) {
      ReachMayLand(w, run, acts, i, id);
    } else {
      OutOfReachStays(w, run, acts, i, id);
    }
  }
}
