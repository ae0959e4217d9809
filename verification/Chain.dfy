/**
 The Liquid chain as the server meets it: accepted transactions, the spends among
 them, and block heights. Nothing is ever removed: no reorgs and no replacement.
 */
module Chain {
  import opened Types
  import opened Interpreter
  import opened Transaction

  /** `spent` maps an outpoint to the transaction that spends it; `minedAt` only holds transactions in a block. */
  datatype Chain = Chain(txs: map<Txid, Tx>, spent: map<OutPoint, Txid>, minedAt: map<Txid, nat>, height: nat)

  predicate HasOutput(ch: Chain, op: OutPoint) {
    op.txid in ch.txs && op.vout < |ch.txs[op.txid].outputs|
  }

  function OutputAt(ch: Chain, op: OutPoint): TxOut
    requires HasOutput(ch, op)
  {
    ch.txs[op.txid].outputs[op.vout]
  }

  /** Final in the next block. Time-based lock times are outside this model and let through. */
  predicate Final(ch: Chain, tx: Tx) {
    || tx.lockTime <= ch.height
    || tx.lockTime >= LOCKTIME_THRESHOLD
    || forall i :: 0 <= i < |tx.inputs| ==> tx.inputs[i].sequence == SEQUENCE_MAX
  }

  function SumOut(outs: seq<TxOut>, a: Asset): nat {
    if outs == [] then 0
    else (if outs[0].Explicit? && outs[0].asset == a then outs[0].value else 0) + SumOut(outs[1..], a)
  }

  function SpentOutputs(ch: Chain, ins: seq<TxIn>): seq<TxOut>
    requires forall i :: 0 <= i < |ins| ==> HasOutput(ch, ins[i].prev)
  {
    if ins == [] then [] else [OutputAt(ch, ins[0].prev)] + SpentOutputs(ch, ins[1..])
  }

  /** Explicit transactions conserve every asset, the fee output included. */
  ghost predicate Balanced(ch: Chain, tx: Tx)
    requires forall i :: 0 <= i < |tx.inputs| ==> HasOutput(ch, tx.inputs[i].prev)
  {
    var ins := SpentOutputs(ch, tx.inputs);
    (forall o :: o in ins || o in tx.outputs ==> o.Explicit?) ==>
      forall a: Asset :: SumOut(ins, a) == SumOut(tx.outputs, a)
  }

  /** Every input is an existing, unspent, distinct output whose script lets the spender pass. */
  predicate InputsValid(c: Crypto, ch: Chain, tx: Tx) {
    && (forall i :: 0 <= i < |tx.inputs| ==>
          HasOutput(ch, tx.inputs[i].prev) && tx.inputs[i].prev !in ch.spent
          && InputAccepted(c, tx, i, OutputAt(ch, tx.inputs[i].prev)))
    && (forall i, j :: 0 <= i < j < |tx.inputs| ==> tx.inputs[i].prev != tx.inputs[j].prev)
  }

  /** Outputs other than the fee carry a positive amount. */
  predicate OutputsPositive(tx: Tx) {
    forall i :: 0 <= i < |tx.outputs| ==>
      var o := tx.outputs[i]; o.Explicit? && o.script != [] ==> o.value > 0
  }

  ghost predicate Acceptable(c: Crypto, ch: Chain, tx: Tx) {
    && tx.inputs != [] && |tx.outputs| <= U32_MAX
    && TxidOf(c, tx) !in ch.txs
    && InputsValid(c, ch, tx)
    && Balanced(ch, tx)
    && OutputsPositive(tx)
    && Final(ch, tx)
  }

  function SpendAll(spent: map<OutPoint, Txid>, ins: seq<TxIn>, id: Txid): map<OutPoint, Txid> {
    if ins == [] then spent else SpendAll(spent, ins[1..], id)[ins[0].prev := id]
  }

  function Accept(c: Crypto, ch: Chain, tx: Tx): Chain {
    var id := TxidOf(c, tx);
    ch.(txs := ch.txs[id := tx], spent := SpendAll(ch.spent, tx.inputs, id))
  }

  /** The chain already holds this very transaction. */
  predicate Known(c: Crypto, ch: Chain, tx: Tx) {
    TxidOf(c, tx) in ch.txs && Strip(ch.txs[TxidOf(c, tx)]) == Strip(tx)
  }

  /** A block: some accepted transactions get the new height. */
  function Mine(ch: Chain, ids: set<Txid>): Chain {
    ch.(height := ch.height + 1,
        minedAt := ch.minedAt + (map id | id in ids && id in ch.txs && id !in ch.minedAt :: ch.height + 1))
  }

  // ----- what every chain satisfies

  ghost predicate SpendJustified(c: Crypto, ch: Chain, op: OutPoint, i: nat)
    requires op in ch.spent
  {
    && ch.spent[op] in ch.txs
    && i < |ch.txs[ch.spent[op]].inputs|
    && ch.txs[ch.spent[op]].inputs[i].prev == op
    && HasOutput(ch, op)
    && InputAccepted(c, ch.txs[ch.spent[op]], i, OutputAt(ch, op))
  }

  ghost predicate SpendsJustified(c: Crypto, ch: Chain) {
    forall op :: op in ch.spent ==> exists i: nat :: SpendJustified(c, ch, op, i)
  }

  predicate InputsRecorded(ch: Chain) {
    forall id, i :: id in ch.txs && 0 <= i < |ch.txs[id].inputs| ==>
      ch.txs[id].inputs[i].prev in ch.spent && ch.spent[ch.txs[id].inputs[i].prev] == id
  }

  /** Transactions are filed under their txids, final, and mined no higher than the tip. */
  predicate TxsFiled(c: Crypto, ch: Chain) {
    && (forall id :: id in ch.txs ==> TxidOf(c, ch.txs[id]) == id && Final(ch, ch.txs[id]))
    && (forall id :: id in ch.minedAt ==> id in ch.txs && ch.minedAt[id] <= ch.height)
  }

  ghost predicate ChainValid(c: Crypto, ch: Chain) {
    TxsFiled(c, ch) && SpendsJustified(c, ch) && InputsRecorded(ch)
  }

  /** `later` extends `ch`: transactions, spends and block heights are never undone. */
  predicate Extends(ch: Chain, later: Chain) {
    && (forall id :: id in ch.txs ==> id in later.txs && later.txs[id] == ch.txs[id])
    && (forall op :: op in ch.spent ==> op in later.spent && later.spent[op] == ch.spent[op])
    && (forall id :: id in ch.minedAt ==> id in later.minedAt && later.minedAt[id] == ch.minedAt[id])
    && ch.height <= later.height
  }

  lemma {:induction false} SpendAllSpends(spent: map<OutPoint, Txid>, ins: seq<TxIn>, id: Txid)
    ensures forall op :: op in SpendAll(spent, ins, id) <==>
              op in spent || exists i :: 0 <= i < |ins| && ins[i].prev == op
    ensures forall i :: 0 <= i < |ins| ==> ins[i].prev in SpendAll(spent, ins, id)
                                           && SpendAll(spent, ins, id)[ins[i].prev] == id
    ensures forall op :: op in spent && (forall i :: 0 <= i < |ins| ==> ins[i].prev != op) ==>
              SpendAll(spent, ins, id)[op] == spent[op]
  {
    if ins != [] {
      SpendAllSpends(spent, ins[1..], id);
      assert forall i :: 1 <= i < |ins| ==> ins[i] == ins[1..][i - 1];
    }
  }

  lemma AcceptSpends(c: Crypto, ch: Chain, tx: Tx)
    requires Acceptable(c, ch, tx)
    ensures Extends(ch, Accept(c, ch, tx))
    ensures forall op :: op in Accept(c, ch, tx).spent <==>
              op in ch.spent || exists i :: 0 <= i < |tx.inputs| && tx.inputs[i].prev == op
    ensures forall i :: 0 <= i < |tx.inputs| ==>
              tx.inputs[i].prev in Accept(c, ch, tx).spent
              && Accept(c, ch, tx).spent[tx.inputs[i].prev] == TxidOf(c, tx)
  {
    SpendAllSpends(ch.spent, tx.inputs, TxidOf(c, tx));
  }

  /** Only outputs that exist are spent. */
  lemma SpentExist(c: Crypto, ch: Chain, op: OutPoint)
    requires SpendsJustified(c, ch) && op in ch.spent
    ensures HasOutput(ch, op)
  {
    var i: nat :| SpendJustified(c, ch, op, i);
  }

  lemma AcceptJustifies(c: Crypto, ch: Chain, tx: Tx)
    requires SpendsJustified(c, ch) && Acceptable(c, ch, tx)
    ensures SpendsJustified(c, Accept(c, ch, tx))
  {
    AcceptSpends(c, ch, tx);
    var later := Accept(c, ch, tx);
    forall op | op in later.spent
      ensures exists i: nat :: SpendJustified(c, later, op, i)
    {
      if op in ch.spent {
        var i: nat :| SpendJustified(c, ch, op, i);
        assert SpendJustified(c, later, op, i);
      } else {
        var i: nat :| i < |tx.inputs| && tx.inputs[i].prev == op;
        assert SpendJustified(c, later, op, i);
      }
    }
  }

  lemma AcceptRecords(c: Crypto, ch: Chain, tx: Tx)
    requires InputsRecorded(ch) && Acceptable(c, ch, tx)
    ensures InputsRecorded(Accept(c, ch, tx))
  {
    AcceptSpends(c, ch, tx);
  }

  lemma AcceptFiles(c: Crypto, ch: Chain, tx: Tx)
    requires TxsFiled(c, ch) && Final(ch, tx)
    ensures TxsFiled(c, Accept(c, ch, tx))
  {
  }

  /** Accepting a transaction keeps the chain valid and undoes nothing. */
  lemma AcceptKeepsValid(c: Crypto, ch: Chain, tx: Tx)
    requires ChainValid(c, ch) && Acceptable(c, ch, tx)
    ensures ChainValid(c, Accept(c, ch, tx)) && Extends(ch, Accept(c, ch, tx))
  {
    AcceptSpends(c, ch, tx);
    AcceptJustifies(c, ch, tx);
    AcceptRecords(c, ch, tx);
    AcceptFiles(c, ch, tx);
  }

  lemma MineKeepsValid(c: Crypto, ch: Chain, ids: set<Txid>)
    requires ChainValid(c, ch)
    ensures ChainValid(c, Mine(ch, ids)) && Extends(ch, Mine(ch, ids))
  {
    var later := Mine(ch, ids);
    forall op | op in later.spent
      ensures exists i: nat :: SpendJustified(c, later, op, i)
    {
      var i: nat :| SpendJustified(c, ch, op, i);
      assert SpendJustified(c, later, op, i);
    }
  }
}
