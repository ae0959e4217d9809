/**
 Steps keep the record of signatures true, and HTLCs whose keys the wallet holds are
 only spent by what it signed.
 */
module InvariantSigned {
  import opened Types
  import opened HtlcScript
  import opened HtlcMeaning
  import opened Transaction
  import opened Chain
  import opened Records
  import opened Protocol
  import opened Invariant
  import InvariantTask

  // ----- signatures

  lemma SignedOkStable(w: World, s: State, n: State, b: Tx, origin: Option<Id>)
    requires Extends(s.chain, n.chain) && FundedGrows(s, n) && SwapsGrow(s, n) && SignedOk(w, s, b, origin)
    ensures SignedOk(w, n, b, origin)
  {
  }

  lemma AllSignedOkPut(w: World, s: State, n: State, b: Tx, origin: Option<Id>)
    requires AllSignedOk(w, s) && Extends(s.chain, n.chain) && FundedGrows(s, n) && SwapsGrow(s, n)
    requires n.signed == s.signed || (n.signed == s.signed[b := origin] && SignedOk(w, n, b, origin))
    ensures AllSignedOk(w, n)
  {
    forall x | x in n.signed
      ensures SignedOk(w, n, x, n.signed[x])
    {
      if x in s.signed {
        SignedOkStable(w, s, n, x, s.signed[x]);
      }
    }
  }

  lemma FundSignedOk(w: World, s: State, a: Action, n: State)
    requires a.Fund? && Takes(w, s, a, n) && Extends(s.chain, n.chain)
    ensures n.signed == s.signed[Strip(a.tx) := None] && SignedOk(w, n, Strip(a.tx), None)
  {
    forall i | 0 <= i < |Strip(a.tx).inputs|
      ensures HasOutput(n.chain, Strip(a.tx).inputs[i].prev)
              && !IsScriptHashProgram(OutScript(OutputAt(n.chain, Strip(a.tx).inputs[i].prev)))
    {
      assert Strip(a.tx).inputs[i].prev == a.tx.inputs[i].prev;
    }
  }

  lemma ClaimSignedOk(w: World, s: State, a: Action, n: State)
    requires a.BroadcastClaim? && TasksOk(w, s) && SwapsFunded(s) && Takes(w, s, a, n)
    ensures var k := s.tasks[a.t];
            var b := Strip(ClaimFor(w, s.cfg, k.terms, k.preimage, k.fee).value);
            n.signed == s.signed[b := Some(k.terms.swapId)] && SignedOk(w, n, b, Some(k.terms.swapId))
  {
    var k := s.tasks[a.t];
    assert TaskOk(w, s, k);
    InvariantTask.ClaimForBody(w, s.cfg, k.terms, k.preimage, k.fee);
  }

  /** The transaction a refund step signs, if the head of the list is due. */
  ghost predicate RefundSigns(w: World, s: State, a: Action) {
    && a.RefundNext? && RefundEnabled(w, s, a.t, a.reply)
    && RefundDue(s.tasks[a.t].todo[0], s.tasks[a.t].tip)
  }

  lemma RefundSignedOk(w: World, s: State, a: Action, n: State)
    requires RefundSigns(w, s, a) && ChainValid(w.c, s.chain) && TasksOk(w, s) && SwapsFunded(s)
    requires Takes(w, s, a, n)
    ensures var k := s.tasks[a.t];
            var b := Strip(RefundFor(w, s.cfg, k.todo[0].terms, k.fee).value);
            n.signed == s.signed[b := Some(k.todo[0].terms.swapId)] && SignedOk(w, n, b, Some(k.todo[0].terms.swapId))
  {
    var k := s.tasks[a.t];
    assert TaskOk(w, s, k);
    assert InSwaps(s, k.todo[0].terms);
    BroadcastExtends(w, s.chain, RefundFor(w, s.cfg, k.todo[0].terms, k.fee).value, a.reply);
    InvariantTask.RefundForBody(w, s.cfg, k.todo[0].terms, k.fee);
  }

  lemma SignedSame(w: World, s: State, a: Action, n: State)
    requires Takes(w, s, a, n)
    requires !a.Fund? && !a.BroadcastClaim? && !RefundSigns(w, s, a)
    ensures n.signed == s.signed
  {
  }

  ghost predicate Kept(s: State, n: State) {
    Extends(s.chain, n.chain) && FundedGrows(s, n) && SwapsGrow(s, n)
  }

  lemma FundSignedStep(w: World, s: State, a: Action, n: State)
    requires a.Fund? && AllSignedOk(w, s) && Kept(s, n) && Takes(w, s, a, n)
    ensures AllSignedOk(w, n) && s.signed.Keys <= n.signed.Keys
  {
    FundSignedOk(w, s, a, n);
    AllSignedOkPut(w, s, n, Strip(a.tx), None);
  }

  lemma ClaimSignedStep(w: World, s: State, a: Action, n: State)
    requires a.BroadcastClaim? && TasksOk(w, s) && SwapsFunded(s) && AllSignedOk(w, s) && Kept(s, n)
    requires Takes(w, s, a, n)
    ensures AllSignedOk(w, n) && s.signed.Keys <= n.signed.Keys
  {
    ClaimSignedOk(w, s, a, n);
    var k := s.tasks[a.t];
    AllSignedOkPut(w, s, n, Strip(ClaimFor(w, s.cfg, k.terms, k.preimage, k.fee).value), Some(k.terms.swapId));
  }

  lemma RefundSignedStep(w: World, s: State, a: Action, n: State)
    requires RefundSigns(w, s, a) && ChainValid(w.c, s.chain) && TasksOk(w, s) && SwapsFunded(s)
    requires AllSignedOk(w, s) && Kept(s, n) && Takes(w, s, a, n)
    ensures AllSignedOk(w, n) && s.signed.Keys <= n.signed.Keys
  {
    RefundSignedOk(w, s, a, n);
    var k := s.tasks[a.t];
    AllSignedOkPut(w, s, n, Strip(RefundFor(w, s.cfg, k.todo[0].terms, k.fee).value), Some(k.todo[0].terms.swapId));
  }

  lemma AllSignedOkStep(w: World, s: State, a: Action, n: State)
    requires ChainValid(w.c, s.chain) && FreshOk(s) && TasksOk(w, s) && SwapsFunded(s) && AllSignedOk(w, s)
    requires Takes(w, s, a, n)
    ensures AllSignedOk(w, n) && s.signed.Keys <= n.signed.Keys
  {
    StepExtendsChain(w, s, a, n);
    StepFundedGrows(w, s, a, n);
    StepSwapsGrow(w, s, a, n);
    if a.Fund? {
      FundSignedStep(w, s, a, n);
    } else if a.BroadcastClaim? {
      ClaimSignedStep(w, s, a, n);
    } else if RefundSigns(w, s, a) {
      RefundSignedStep(w, s, a, n);
    } else {
      SignedSame(w, s, a, n);
      AllSignedOkPut(w, s, n, Tx(0, 0, [], []), None);
    }
  }

  // ----- what any spend of an HTLC output shows

  /** Whoever spends it: the HTLC's script, and a stack that opens it. */
  lemma SpendShowsStack(c: Crypto, spec: HtlcSpec, tx: Tx, i: nat, out: TxOut) returns (stack: seq<bytes>)
    requires Ideal(c) && i < |tx.inputs| && InputAccepted(c, tx, i, out)
    requires OutScript(out) == P2wshScript(c, WitnessScript(spec))
    ensures tx.inputs[i].scriptWitness == stack + [WitnessScript(spec)]
    ensures var env := ScriptEnvOf(c, tx, i, WitnessScript(spec), Amount(out));
            ClaimStack(env, spec, stack) || RefundStack(env, spec, stack)
  {
    var witnesses := tx.inputs[i].scriptWitness;
    var script := witnesses[|witnesses| - 1];
    stack := witnesses[..|witnesses| - 1];
    assert P2wshScript(c, script)[2..] == c.sha256(script);
    assert P2wshScript(c, WitnessScript(spec))[2..] == c.sha256(WitnessScript(spec));
    HtlcAcceptsIff(ScriptEnvOf(c, tx, i, script, Amount(out)), spec, stack);
  }

  /** If the wallet holds both keys, an unforged spend is one it signed. */
  lemma OwnedSpendSigned(w: World, s: State, f: FundedHtlc, tx: Tx, i: nat, out: TxOut)
    requires WorldOk(w) && BothKeysOwned(w, f) && NoForgery(w, s, tx)
    requires i < |tx.inputs| && InputAccepted(w.c, tx, i, out)
    requires OutScript(out) == P2wshScript(w.c, WitnessScript(SpecOf(w, f).value))
    ensures Strip(tx) in s.signed
  {
    var spec := SpecOf(w, f).value;
    var stack := SpendShowsStack(w.c, spec, tx, i, out);
    var env := ScriptEnvOf(w.c, tx, i, WitnessScript(spec), Amount(out));
    var sig, key := stack[0], stack[1];
    assert env.checkSig(sig, key);
    assert CheckSig(w.c, tx, i, WitnessScript(spec), Amount(out), sig, key);
    assert Owned(w, w.c.hash160(key));
  }

  // ----- spends of owned HTLCs

  /** What a step does to the chain: nothing, a block, or one accepted transaction. */
  datatype ChainStep = Unchanged | Mined(ids: set<Txid>) | Accepted(tx: Tx)

  function ChainAfter(c: Crypto, ch: Chain, k: ChainStep): Chain {
    match k
    case Unchanged => ch
    case Mined(ids) => Mine(ch, ids)
    case Accepted(tx) => Accept(c, ch, tx)
  }

  /** An accepted transaction is signed by the wallet, or forges nothing. */
  ghost predicate ChainStepOk(w: World, s: State, n: State, k: ChainStep) {
    && n.chain == ChainAfter(w.c, s.chain, k)
    && (k.Accepted? ==> Acceptable(w.c, s.chain, k.tx) && (Strip(k.tx) in n.signed || NoForgery(w, s, k.tx)))
  }

  function ReplyStep(tx: Tx, reply: Reply): ChainStep {
    if reply.accepted then Accepted(tx) else Unchanged
  }

  lemma FundChain(w: World, s: State, a: Action, n: State)
    requires a.Fund? && Takes(w, s, a, n)
    ensures ChainStepOk(w, s, n, ReplyStep(a.tx, a.reply))
  {
  }

  lemma ClaimChain(w: World, s: State, a: Action, n: State)
    requires a.BroadcastClaim? && Takes(w, s, a, n)
    ensures var k := s.tasks[a.t];
            ChainStepOk(w, s, n, ReplyStep(ClaimFor(w, s.cfg, k.terms, k.preimage, k.fee).value, a.reply))
  {
  }

  lemma RefundChain(w: World, s: State, a: Action, n: State)
    requires RefundSigns(w, s, a) && Takes(w, s, a, n)
    ensures var k := s.tasks[a.t];
            ChainStepOk(w, s, n, ReplyStep(RefundFor(w, s.cfg, k.todo[0].terms, k.fee).value, a.reply))
  {
  }

  lemma ChainSame(w: World, s: State, a: Action, n: State)
    requires Takes(w, s, a, n)
    requires !a.Fund? && !a.BroadcastClaim? && !RefundSigns(w, s, a) && !a.MineBlock? && !a.OtherTx?
    ensures n.chain == s.chain
  {
  }

  lemma ChainDelta(w: World, s: State, a: Action, n: State) returns (k: ChainStep)
    requires Takes(w, s, a, n)
    ensures ChainStepOk(w, s, n, k)
    ensures a.Fund? && a.reply.accepted ==> k == Accepted(a.tx)
  {
    if a.Fund? {
      FundChain(w, s, a, n);
      k := ReplyStep(a.tx, a.reply);
    } else if a.BroadcastClaim? {
      ClaimChain(w, s, a, n);
      var task := s.tasks[a.t];
      k := ReplyStep(ClaimFor(w, s.cfg, task.terms, task.preimage, task.fee).value, a.reply);
    } else if RefundSigns(w, s, a) {
      RefundChain(w, s, a, n);
      var task := s.tasks[a.t];
      k := ReplyStep(RefundFor(w, s.cfg, task.todo[0].terms, task.fee).value, a.reply);
    } else if a.MineBlock? {
      k := Mined(a.ids);
    } else if a.OtherTx? {
      k := Accepted(a.tx);
    } else {
      ChainSame(w, s, a, n);
      k := Unchanged;
    }
  }

  /** The spend of one outpoint of an HTLC that was already funded. */
  lemma OneSpendSigned(w: World, s: State, n: State, k: ChainStep, id: Id, op: OutPoint)
    requires WorldOk(w) && ChainValid(w.c, s.chain) && HtlcsOk(w, s) && OwnedSpendsSigned(w, s)
    requires ChainStepOk(w, s, n, k) && s.signed.Keys <= n.signed.Keys
    requires id in s.funded && BothKeysOwned(w, s.funded[id]) && IsOutPointOf(op, s.funded[id].terms)
    requires op in n.chain.spent
    ensures n.chain.spent[op] in n.chain.txs && Strip(n.chain.txs[n.chain.spent[op]]) in n.signed
  {
    if k.Accepted? {
      AcceptSpends(w.c, s.chain, k.tx);
      if op !in s.chain.spent {
        var i :| 0 <= i < |k.tx.inputs| && k.tx.inputs[i].prev == op;
        assert HtlcOk(w, s.chain, s.funded[id]);
        if Strip(k.tx) !in n.signed {
          OwnedSpendSigned(w, s, s.funded[id], k.tx, i, OutputAt(s.chain, op));
        }
      }
    }
  }

  /** A brand-new HTLC is not spent yet. */
  lemma NewHtlcUnspent(w: World, ch: Chain, tx: Tx, op: OutPoint)
    requires ChainValid(w.c, ch) && Acceptable(w.c, ch, tx) && op.txid == TxidOf(w.c, tx)
    ensures op !in Accept(w.c, ch, tx).spent
  {
    AcceptSpends(w.c, ch, tx);
    assert op !in ch.spent by {
      if op in ch.spent {
        SpentExist(w.c, ch, op);
      }
    }
  }

  lemma OwnedSpendsUnfunded(w: World, s: State, n: State, k: ChainStep)
    requires WorldOk(w) && ChainValid(w.c, s.chain) && HtlcsOk(w, s) && OwnedSpendsSigned(w, s)
    requires s.signed.Keys <= n.signed.Keys && ChainStepOk(w, s, n, k) && n.funded == s.funded
    ensures OwnedSpendsSigned(w, n)
  {
    forall id, op | id in n.funded && BothKeysOwned(w, n.funded[id]) && op in n.chain.spent
                    && IsOutPointOf(op, n.funded[id].terms)
      ensures n.chain.spent[op] in n.chain.txs && Strip(n.chain.txs[n.chain.spent[op]]) in n.signed
    {
      OneSpendSigned(w, s, n, k, id, op);
    }
  }

  lemma OwnedSpendsFunded(w: World, s: State, n: State, tx: Tx, newId: Id, f: FundedHtlc)
    requires WorldOk(w) && ChainValid(w.c, s.chain) && HtlcsOk(w, s) && OwnedSpendsSigned(w, s)
    requires s.signed.Keys <= n.signed.Keys && ChainStepOk(w, s, n, Accepted(tx))
    requires n.funded == s.funded[newId := f] && f.terms.fundingTxid == TxidOf(w.c, tx)
    ensures OwnedSpendsSigned(w, n)
  {
    forall id, op | id in n.funded && BothKeysOwned(w, n.funded[id]) && op in n.chain.spent
                    && IsOutPointOf(op, n.funded[id].terms)
      ensures n.chain.spent[op] in n.chain.txs && Strip(n.chain.txs[n.chain.spent[op]]) in n.signed
    {
      if id == newId {
        NewHtlcUnspent(w, s.chain, tx, op);
      } else {
        OneSpendSigned(w, s, n, Accepted(tx), id, op);
      }
    }
  }

  lemma NewHtlcTxid(w: World, s: State, a: Action)
    requires FundsNew(w, s, a)
    ensures NewHtlc(w, s, a).terms.fundingTxid == TxidOf(w.c, a.tx)
  {
  }

  lemma OwnedSpendsSignedStep(w: World, s: State, a: Action, n: State)
    requires WorldOk(w) && ChainValid(w.c, s.chain) && HtlcsOk(w, s) && OwnedSpendsSigned(w, s)
    requires s.signed.Keys <= n.signed.Keys
    requires Takes(w, s, a, n)
    ensures OwnedSpendsSigned(w, n)
  {
    var k := ChainDelta(w, s, a, n);
    FundedDelta(w, s, a, n);
    if FundsNew(w, s, a) {
      NewHtlcTxid(w, s, a);
      OwnedSpendsFunded(w, s, n, a.tx, s.tasks[a.t].swapId, NewHtlc(w, s, a));
    } else {
      OwnedSpendsUnfunded(w, s, n, k);
    }
  }
}
