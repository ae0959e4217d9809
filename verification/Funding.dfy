/**
 The wallet's part: finding the HTLC outputs in the funding transaction, and counting
 and awaiting its confirmations.
 */
module Funding {
  import opened Types
  import opened Transaction
  import opened Chain

  // ----- the output scan

  predicate Matches(o: TxOut, spk: bytes, a: Asset) {
    o.Explicit? && o.script == spk && o.asset == a
  }

  function LastMatch(outs: seq<TxOut>, spk: bytes, a: Asset): (r: Option<nat>)
    ensures r.Some? ==> r.value < |outs| && Matches(outs[r.value], spk, a)
    ensures forall k :: 0 <= k < |outs| && Matches(outs[k], spk, a) ==> r.Some? && k <= r.value
  {
    if outs == [] then None
    else if Matches(outs[|outs| - 1], spk, a) then Some(|outs| - 1)
    else LastMatch(outs[..|outs| - 1], spk, a)
  }

  /** (asset vout, LBTC vout); the policy arm is only reached when the asset arm did not match. */
  function ScanOutputs(outs: seq<TxOut>, spk: bytes, assetId: Asset, policyAsset: Asset): Result<(nat, nat)> {
    var a := LastMatch(outs, spk, assetId);
    var b := if policyAsset == assetId then None else LastMatch(outs, spk, policyAsset);
    if a.Some? && b.Some? then Ok((a.value, b.value)) else Err
  }

  /** The loop of `build_and_broadcast_funding`. */
  method FindHtlcOutputs(tx: Tx, spk: bytes, assetId: Asset, policyAsset: Asset) returns (r: Result<(nat, nat)>)
    ensures r == ScanOutputs(tx.outputs, spk, assetId, policyAsset)
  {
    var assetVout: Option<nat> := None;
    var lbtcVout: Option<nat> := None;
    for vout := 0 to |tx.outputs|
      invariant assetVout == LastMatch(tx.outputs[..vout], spk, assetId)
      invariant lbtcVout == if policyAsset == assetId then None else LastMatch(tx.outputs[..vout], spk, policyAsset)
    {
      assert tx.outputs[..vout + 1][..vout] == tx.outputs[..vout];
      var output := tx.outputs[vout];
      if OutScript(output) != spk {
        continue;
      }
      if output.Explicit? && output.asset == assetId {
        assetVout := Some(vout);
      } else if output.Explicit? && output.asset == policyAsset {
        lbtcVout := Some(vout);
      }
    }
    assert tx.outputs[..|tx.outputs|] == tx.outputs;
    if assetVout.None? { return Err; }
    if lbtcVout.None? { return Err; }
    return Ok((assetVout.value, lbtcVout.value));
  }

  /** One output per recipient: `a` locks the asset, `b` the subsidy, nothing else pays the HTLC. */
  predicate FundsHtlc(tx: Tx, spk: bytes, assetId: Asset, amount: u64, policyAsset: Asset, subsidy: u64, a: nat,
                      b: nat) {
    && a < |tx.outputs| && b < |tx.outputs| && a != b
    && tx.outputs[a] == Explicit(assetId, amount, spk)
    && tx.outputs[b] == Explicit(policyAsset, subsidy, spk)
    && forall k :: 0 <= k < |tx.outputs| && k != a && k != b ==> OutScript(tx.outputs[k]) != spk
  }

  /**
   On such a transaction the scan finds the two right outputs exactly when the sold asset
   is not the policy asset; otherwise it fails, with the funding already broadcast.
   */
  lemma ScanFindsOutputsIff(tx: Tx, spk: bytes, assetId: Asset, amount: u64, policyAsset: Asset, subsidy: u64, a: nat,
                            b: nat)
    requires FundsHtlc(tx, spk, assetId, amount, policyAsset, subsidy, a, b)
    ensures ScanOutputs(tx.outputs, spk, assetId, policyAsset) == Ok((a, b)) <==> assetId != policyAsset
    ensures ScanOutputs(tx.outputs, spk, assetId, policyAsset).Err? <==> assetId == policyAsset
  {
    var m, n := LastMatch(tx.outputs, spk, assetId), LastMatch(tx.outputs, spk, policyAsset);
    assert Matches(tx.outputs[a], spk, assetId) && Matches(tx.outputs[b], spk, policyAsset);
  }

  // ----- confirmations

  /** `tx_confirmations_for_script`: `entry` is the height in the script's history, at most 0 in the mempool. */
  function TxConfirmations(entry: Option<int>, tip: nat): Option<nat> {
    if entry.None? then None
    else if entry.value <= 0 then Some(0)
    else if tip < entry.value then Some(0)
    else Some(tip - entry.value + 1)
  }

  function HistoryHeight(ch: Chain, id: Txid): Option<int> {
    if id !in ch.txs then None else if id !in ch.minedAt then Some(0) else Some(ch.minedAt[id])
  }

  predicate Confirmed(ch: Chain, id: Txid, tip: nat, minConfs: u32) {
    var confs := TxConfirmations(HistoryHeight(ch, id), tip);
    confs.Some? && confs.value >= minConfs
  }

  /** More blocks, one after the other. */
  function MineAll(ch: Chain, blocks: seq<set<Txid>>): Chain {
    if blocks == [] then ch else Mine(MineAll(ch, blocks[..|blocks| - 1]), blocks[|blocks| - 1])
  }

  /** A transaction that nobody knows has no count; one that is not in a block counts zero. */
  lemma UnminedCount(ch: Chain, id: Txid, tip: nat, n: u32)
    requires id !in ch.minedAt
    ensures Confirmed(ch, id, tip, n) <==> id in ch.txs && n == 0
  {
  }

  /** In a block, the transaction counts one for that block and one for each block up to the tip that is read. */
  lemma MinedCount(ch: Chain, id: Txid, tip: nat, n: u32)
    requires id in ch.txs && id in ch.minedAt && ch.minedAt[id] > 0
    ensures Confirmed(ch, id, tip, n) <==> n == 0 || ch.minedAt[id] + n <= tip + 1
  {
  }

  lemma {:induction false} MineAllKeeps(ch: Chain, blocks: seq<set<Txid>>, id: Txid)
    requires id in ch.txs && id in ch.minedAt
    ensures var later := MineAll(ch, blocks);
            id in later.txs && id in later.minedAt && later.minedAt[id] == ch.minedAt[id]
            && later.height == ch.height + |blocks|
  {
    if blocks != [] {
      MineAllKeeps(ch, blocks[..|blocks| - 1], id);
    }
  }

  /** The block that takes the transaction and `k` more: `k + 1` confirmations, no more and no less. */
  lemma CountByBlocks(ch: Chain, id: Txid, taken: set<Txid>, blocks: seq<set<Txid>>, n: u32)
    requires id in ch.txs && id !in ch.minedAt && id in taken
    ensures var later := MineAll(Mine(ch, taken), blocks);
            Confirmed(later, id, later.height, n) <==> n <= |blocks| + 1
  {
    MineAllKeeps(Mine(ch, taken), blocks, id);
  }

  /** Confirmations once seen are never lost, whatever is accepted or mined and however far the tip moves. */
  lemma ConfirmedForever(ch: Chain, later: Chain, id: Txid, tip: nat, laterTip: nat, minConfs: u32)
    requires Extends(ch, later) && tip <= laterTip
    requires Confirmed(ch, id, tip, minConfs)
    ensures Confirmed(later, id, laterTip, minConfs)
  {
  }

  /** `wait_for_funding_confirmations`: one observation per poll, the last at the deadline; `Err` is a failed sync. */
  method WaitForConfirmations(polls: seq<Result<Option<u32>>>, minConfs: u32) returns (r: Result<u32>)
    requires polls != []
    ensures r.Ok? ==> r.value >= minConfs && Ok(Some(r.value)) in polls
    ensures r.Ok? <==>
            exists k :: 0 <= k < |polls| && polls[k].Ok? && polls[k].value.Some? && polls[k].value.value >= minConfs
                        && forall j :: 0 <= j < k ==>
                             polls[j].Ok? && (polls[j].value.None? || polls[j].value.value < minConfs)
  {
    var k := 0;
    while true
      invariant 0 <= k < |polls|
      invariant forall j :: 0 <= j < k ==> polls[j].Ok? && !Sufficient(polls[j], minConfs)
      decreases |polls| - k
    {
      if polls[k].Err? { return Err; }
      var confs := polls[k].value;
      if confs.Some? && confs.value >= minConfs {
        assert Sufficient(polls[k], minConfs);
        return Ok(confs.value);
      }
      if k == |polls| - 1 { return Err; }
      k := k + 1;
    }
  }

  predicate Sufficient(poll: Result<Option<u32>>, minConfs: u32) {
    poll.Ok? && poll.value.Some? && poll.value.value >= minConfs
  }
}
