/**
 The wallet object the server shares: its chain tip, and the transactions it sent.
 Keys and addresses are functions of the world; coin selection is outside this model.
 */
module Wallet {
  import opened Types
  import opened Transaction
  import opened Protocol

  datatype Broadcast = Broadcast(tx: Tx, ok: bool)

  class LiquidWallet {
    const world: World
    var tipHeight: u32
    var broadcasts: seq<Broadcast>

    constructor (world: World)
      ensures this.world == world && broadcasts == []
    {
      this.world := world;
      tipHeight := 0;
      broadcasts := [];
    }

    /** `observed` is the tip the Electrum server reports, `None` when it cannot be reached. */
    method Sync(observed: Option<u32>) returns (ok: bool)
      modifies this`tipHeight
      ensures ok <==> observed.Some?
      ensures tipHeight == if ok then observed.value else old(tipHeight)
    {
      if observed.None? { return false; }
      tipHeight := observed.value;
      return true;
    }

    /** The network takes the transaction or not; the answer is out of the server's hands. */
    method BroadcastTransaction(tx: Tx) returns (ok: bool)
      modifies this`broadcasts
      ensures broadcasts == old(broadcasts) + [Broadcast(tx, ok)]
    {
      ok := *;
      broadcasts := broadcasts + [Broadcast(tx, ok)];
    }
  }
}
