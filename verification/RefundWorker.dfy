/**
 One pass of the refund worker, run alone: it lists the swaps, tries each due one in id
 order, and records the refunds that went out.
 */
module RefundWorker {
  import opened Types
  import opened Interpreter
  import opened Transaction
  import opened HtlcSpend
  import opened Records
  import opened Offer
  import opened Store
  import opened Protocol
  import opened Wallet

  /** The listed swaps a pass must try, in listing order. */
  function DueSwaps(listed: seq<SwapRecord>, tip: u32): seq<SwapRecord> {
    if listed == [] then []
    else
      var last := listed[|listed| - 1];
      DueSwaps(listed[..|listed| - 1], tip) + if RefundDue(last, tip) then [last] else []
  }

  predicate InIdOrder(rs: seq<SwapRecord>) {
    forall i, j :: 0 <= i < j < |rs| ==> IdLess(rs[i].terms.swapId, rs[j].terms.swapId)
  }

  /** Exactly the listed swaps that are Created or Funded with their lock height reached, in id order. */
  lemma {:induction false} DueSwapsExact(listed: seq<SwapRecord>, tip: u32)
    requires InIdOrder(listed)
    ensures forall r :: r in DueSwaps(listed, tip) <==>
              r in listed && (r.status == Created || r.status == SwapStatus.Funded) && r.terms.refundLockHeight <= tip
    ensures InIdOrder(DueSwaps(listed, tip))
  {
    if listed != [] {
      var init, last := listed[..|listed| - 1], listed[|listed| - 1];
      DueSwapsExact(init, tip);
      var due := DueSwaps(init, tip);
      assert listed == init + [last];
      forall i | 0 <= i < |due|
        ensures IdLess(due[i].terms.swapId, last.terms.swapId)
      {
        assert due[i] in due;
        var m :| 0 <= m < |init| && init[m] == due[i];
        assert listed[m] == init[m];
      }
    }
  }

  /** A table has one listing, so what a pass tries is determined by the table. */
  lemma {:induction false} ListingUnique(swaps: map<Id, SwapRecord>, a: seq<SwapRecord>, b: seq<SwapRecord>)
    requires IsListing(swaps, a) && IsListing(swaps, b)
    ensures a == b
  {
    ListingPrefix(swaps, a, b, |a|);
    ListingPrefix(swaps, b, a, |b|);
  }

  lemma {:induction false} ListingPrefix(swaps: map<Id, SwapRecord>, a: seq<SwapRecord>, b: seq<SwapRecord>, n: nat)
    requires IsListing(swaps, a) && IsListing(swaps, b) && n <= |a|
    ensures n <= |b| && a[..n] == b[..n]
  {
    if n > 0 {
      ListingPrefix(swaps, a, b, n - 1);
      NextAgrees(swaps, a, b, n - 1);
    }
  }

  /** After a common prefix, two listings go on with the same row. */
  lemma NextAgrees(swaps: map<Id, SwapRecord>, a: seq<SwapRecord>, b: seq<SwapRecord>, n: nat)
    requires IsListing(swaps, a) && IsListing(swaps, b) && n < |a| && n <= |b| && a[..n] == b[..n]
    ensures n < |b| && a[n] == b[n]
  {
    NextNotAbove(swaps, a, b, n);
    NextNotAbove(swaps, b, a, n);
    IdOrderTotal(a[n].terms.swapId, b[n].terms.swapId);
  }

  lemma NextNotAbove(swaps: map<Id, SwapRecord>, a: seq<SwapRecord>, b: seq<SwapRecord>, n: nat)
    requires IsListing(swaps, a) && IsListing(swaps, b) && n < |a| && n <= |b| && a[..n] == b[..n]
    ensures n < |b| && (b[n].terms.swapId == a[n].terms.swapId || IdLess(b[n].terms.swapId, a[n].terms.swapId))
  {
    var j := ListingIndex(swaps, b, a[n].terms.swapId);
    IndexAtLeast(swaps, a, b, n, j);
  }

  lemma ListingIndex(swaps: map<Id, SwapRecord>, out: seq<SwapRecord>, id: Id) returns (i: nat)
    requires IsListing(swaps, out) && id in swaps
    ensures i < |out| && out[i] == swaps[id] && out[i].terms.swapId == id
  {
    i :| i < |out| && out[i].terms.swapId == id;
  }

  /** An element beyond a common prefix of `n` is found at index `n` or later. */
  lemma IndexAtLeast(swaps: map<Id, SwapRecord>, a: seq<SwapRecord>, b: seq<SwapRecord>, n: nat, j: nat)
    requires IsListing(swaps, a) && IsListing(swaps, b)
    requires n < |a| && n <= |b| && a[..n] == b[..n] && j < |b| && b[j].terms.swapId == a[n].terms.swapId
    ensures n <= j
  {
    if j < n {
      assert a[j] == a[..n][j] && b[j] == b[..n][j];
      IdOrderTotal(a[j].terms.swapId, a[n].terms.swapId);
    }
  }

  /** Row `id` was among the due swaps, and its broadcast went through. */
  predicate WasRefunded(due: seq<SwapRecord>, sent: seq<Broadcast>, id: Id)
    requires |sent| <= |due|
  {
    exists i :: 0 <= i < |sent| && sent[i].ok && due[i].terms.swapId == id
  }

  /** The table after a pass: the refunded rows get their status, nothing else changes. */
  ghost function AfterPass(swaps: map<Id, SwapRecord>, due: seq<SwapRecord>, sent: seq<Broadcast>): map<Id, SwapRecord>
    requires |sent| <= |due|
  {
    map id | id in swaps :: if WasRefunded(due, sent, id) then swaps[id].(status := Refunded) else swaps[id]
  }

  lemma AfterPassGrows(swaps: map<Id, SwapRecord>, due: seq<SwapRecord>, sent: seq<Broadcast>, b: Broadcast)
    requires |sent| < |due| && due[|sent|].terms.swapId in swaps
    ensures AfterPass(swaps, due, sent + [b]) ==
            if b.ok then ApplyUpdate(AfterPass(swaps, due, sent), SetStatus(due[|sent|].terms.swapId, Refunded))
            else AfterPass(swaps, due, sent)
  {
    var grown := sent + [b];
    forall id
      ensures WasRefunded(due, grown, id) <==> WasRefunded(due, sent, id) || (b.ok && due[|sent|].terms.swapId == id)
    {
      if WasRefunded(due, sent, id) {
        var i :| 0 <= i < |sent| && sent[i].ok && due[i].terms.swapId == id;
        assert grown[i].ok;
      }
      if b.ok && due[|sent|].terms.swapId == id {
        assert grown[|sent|].ok;
      }
    }
  }

  /** The due swaps beyond those already tried do not matter to the table. */
  lemma AfterPassOfMore(swaps: map<Id, SwapRecord>, due: seq<SwapRecord>, more: seq<SwapRecord>, sent: seq<Broadcast>)
    requires |sent| <= |due|
    ensures AfterPass(swaps, due + more, sent) == AfterPass(swaps, due, sent)
  {
    forall id
      ensures WasRefunded(due + more, sent, id) <==> WasRefunded(due, sent, id)
    {
      if WasRefunded(due, sent, id) {
        var i :| 0 <= i < |sent| && sent[i].ok && due[i].terms.swapId == id;
        assert (due + more)[i].terms.swapId == id;
      }
    }
  }

  /** Each broadcast is the refund its due swap calls for. */
  predicate SentFor(w: World, cfg: Config, fee: u64, due: seq<SwapRecord>, sent: seq<Broadcast>)
    requires |sent| <= |due|
  {
    forall i :: 0 <= i < |sent| ==> RefundFor(w, cfg, due[i].terms, fee) == Ok(sent[i].tx)
  }

  /** What does not change during a pass. */
  datatype Pass = Pass(w: World, cfg: Config, fee: u64, tip: u32, table: map<Id, SwapRecord>)

  /**
   A pass over `listed` sent exactly `sent` and left `swaps`: each broadcast the refund of
   a due swap, in order; all due swaps tried if `ok`, else stopped at one that has no refund.
   */
  ghost predicate PassResult(p: Pass, listed: seq<SwapRecord>, sent: seq<Broadcast>, swaps: map<Id, SwapRecord>,
                             ok: bool) {
    var due := DueSwaps(listed, p.tip);
    && |sent| <= |due|
    && SentFor(p.w, p.cfg, p.fee, due, sent)
    && swaps == AfterPass(p.table, due, sent)
    && (ok <==> |sent| == |due|)
    && (!ok ==> RefundFor(p.w, p.cfg, due[|sent|].terms, p.fee).Err?)
  }

  /** What it takes to build the refund: the fee, the height, and for LIQUID_TO_LN the buyer's very address. */
  predicate Refundable(p: Pass, t: SwapTerms) {
    && p.fee < t.feeSubsidy && t.refundLockHeight < 500_000_000
    && (t.direction.LiquidToLn? ==> p.w.addressAt(p.cfg.buyerKeyIndex) == t.buyerAddress)
  }

  lemma RefundBuiltIff(p: Pass, t: SwapTerms)
    ensures RefundFor(p.w, p.cfg, t, p.fee).Ok? <==> Refundable(p, t)
  {
  }

  /** A due swap is tried exactly if every due swap up to it, in id order, can be refunded. */
  lemma DueTriedIff(p: Pass, listed: seq<SwapRecord>, sent: seq<Broadcast>, swaps: map<Id, SwapRecord>, ok: bool,
                    i: nat)
    requires PassResult(p, listed, sent, swaps, ok) && i < |DueSwaps(listed, p.tip)|
    ensures i < |sent| <==> forall j :: 0 <= j <= i ==> Refundable(p, DueSwaps(listed, p.tip)[j].terms)
  {
    var due := DueSwaps(listed, p.tip);
    forall j | 0 <= j < |due|
      ensures RefundFor(p.w, p.cfg, due[j].terms, p.fee).Ok? <==> Refundable(p, due[j].terms)
    {
      RefundBuiltIff(p, due[j].terms);
    }
    if i >= |sent| {
      assert !Refundable(p, due[|sent|].terms);
    }
  }

  lemma PassStarts(p: Pass)
    ensures PassResult(p, [], [], p.table, true)
  {
  }

  lemma DueSnoc(listed: seq<SwapRecord>, r: SwapRecord, tip: u32)
    ensures DueSwaps(listed + [r], tip) == DueSwaps(listed, tip) + if RefundDue(r, tip) then [r] else []
  {
    assert (listed + [r])[..|listed|] == listed;
  }

  lemma PassSkips(p: Pass, listed: seq<SwapRecord>, sent: seq<Broadcast>, swaps: map<Id, SwapRecord>, r: SwapRecord)
    requires PassResult(p, listed, sent, swaps, true) && !RefundDue(r, p.tip)
    ensures PassResult(p, listed + [r], sent, swaps, true)
  {
    DueSnoc(listed, r, p.tip);
  }

  lemma PassTries(p: Pass, listed: seq<SwapRecord>, sent: seq<Broadcast>, swaps: map<Id, SwapRecord>, r: SwapRecord,
                  b: Broadcast, later: map<Id, SwapRecord>)
    requires PassResult(p, listed, sent, swaps, true) && RefundDue(r, p.tip) && r.terms.swapId in p.table
    requires RefundFor(p.w, p.cfg, r.terms, p.fee) == Ok(b.tx)
    requires later == if b.ok then ApplyUpdate(swaps, SetStatus(r.terms.swapId, Refunded)) else swaps
    ensures PassResult(p, listed + [r], sent + [b], later, true)
  {
    DueSnoc(listed, r, p.tip);
    var due := DueSwaps(listed, p.tip);
    AfterPassOfMore(p.table, due, [r], sent);
    AfterPassGrows(p.table, due + [r], sent, b);
  }

  lemma PassStops(p: Pass, listed: seq<SwapRecord>, sent: seq<Broadcast>, swaps: map<Id, SwapRecord>, r: SwapRecord)
    requires PassResult(p, listed, sent, swaps, true) && RefundDue(r, p.tip)
    requires RefundFor(p.w, p.cfg, r.terms, p.fee).Err?
    ensures PassResult(p, listed + [r], sent, swaps, false)
  {
    DueSnoc(listed, r, p.tip);
    AfterPassOfMore(p.table, DueSwaps(listed, p.tip), [r], sent);
  }

  lemma {:induction false} PassIgnoresRest(p: Pass, listed: seq<SwapRecord>, sent: seq<Broadcast>,
                                           swaps: map<Id, SwapRecord>, rest: seq<SwapRecord>)
    requires PassResult(p, listed, sent, swaps, false)
    ensures PassResult(p, listed + rest, sent, swaps, false)
    decreases |rest|
  {
    if rest == [] {
      assert listed + rest == listed;
    } else {
      var r := rest[0];
      DueSnoc(listed, r, p.tip);
      AfterPassOfMore(p.table, DueSwaps(listed, p.tip), if RefundDue(r, p.tip) then [r] else [], sent);
      PassIgnoresRest(p, listed + [r], sent, swaps, rest[1..]);
      assert listed + [r] + rest[1..] == listed + rest;
    }
  }

  /** The refund of one listed swap: the address check, the key, the transaction. */
  method BuildRefund(w: World, cfg: Config, s: SwapRecord, fee: u64) returns (r: Result<Tx>)
    ensures r == RefundFor(w, cfg, s.terms, fee)
  {
    var funding := FundingOf(s.terms, w.policyAsset);
    var (index, expected) := RefundKey(s.terms, cfg.sellerKeyIndex, cfg.buyerKeyIndex);
    var receive := w.addressAt(index);
    if expected.Some? {
      if receive != expected.value { return Err; }
    }
    r := BuildRefundTx(w.c, s.terms.witnessScript, s.terms.refundLockHeight, funding, receive.script,
                       w.secretKey(index), fee);
  }

  /** One due swap: build, broadcast, record. `tried` is false when there is no refund to send. */
  method TryRefund(wallet: LiquidWallet, store: SqliteStore, cfg: Config, s: SwapRecord, fee: u64)
    returns (tried: bool, ghost b: Broadcast)
    requires store.Valid() && s.terms.swapId in store.Swaps()
    modifies wallet`broadcasts, store`swapRows
    ensures store.Valid() && store.Quotes() == old(store.Quotes())
    ensures tried <==> RefundFor(wallet.world, cfg, s.terms, fee).Ok?
    ensures !tried ==> wallet.broadcasts == old(wallet.broadcasts) && store.Swaps() == old(store.Swaps())
    ensures tried ==>
              && wallet.broadcasts == old(wallet.broadcasts) + [b]
              && RefundFor(wallet.world, cfg, s.terms, fee) == Ok(b.tx)
              && store.Swaps() == if b.ok then ApplyUpdate(old(store.Swaps()), SetStatus(s.terms.swapId, Refunded))
                                  else old(store.Swaps())
  {
    var tx := BuildRefund(wallet.world, cfg, s, fee);
    if tx.Err? {
      b := Broadcast(Tx(0, 0, [], []), false);
      return false, b;
    }
    var ok := wallet.BroadcastTransaction(tx.value);
    b := Broadcast(tx.value, ok);
    if ok {
      var updated := store.UpdateSwapStatus(s.terms.swapId, Refunded);
    }
    return true, b;
  }

  lemma AppendAssoc<T>(xs: seq<T>, ys: seq<T>, z: T)
    ensures xs + ys + [z] == xs + (ys + [z])
  {
  }

  lemma TakeMore<T>(xs: seq<T>, k: nat)
    requires k < |xs|
    ensures xs[..k + 1] == xs[..k] + [xs[k]] && xs[..k + 1] + xs[k + 1..] == xs
  {
  }

  lemma TakeAll<T>(xs: seq<T>)
    ensures xs[..|xs|] == xs
  {
  }

  lemma DropAppended<T>(xs: seq<T>, ys: seq<T>)
    ensures (xs + ys)[|xs|..] == ys
  {
  }

  /** One round of the loop, after `done`. */
  method VisitSwap(wallet: LiquidWallet, store: SqliteStore, cfg: Config, s: SwapRecord, fee: u64, tip: u32,
                   ghost p: Pass, ghost done: seq<SwapRecord>, ghost before: seq<Broadcast>, ghost sent: seq<Broadcast>)
    returns (go: bool, ghost now: seq<Broadcast>)
    requires store.Valid() && store.Swaps().Keys == p.table.Keys && s.terms.swapId in p.table
    requires p.w == wallet.world && p.cfg == cfg && p.fee == fee && p.tip == tip
    requires wallet.broadcasts == before + sent
    requires PassResult(p, done, sent, store.Swaps(), true)
    modifies wallet`broadcasts, store`swapRows
    ensures store.Valid() && store.Quotes() == old(store.Quotes()) && store.Swaps().Keys == p.table.Keys
    ensures wallet.broadcasts == before + now
    ensures PassResult(p, done + [s], now, store.Swaps(), go)
  {
    now := sent;
    if (s.status != Created && s.status != SwapStatus.Funded) || tip < s.terms.refundLockHeight {
      PassSkips(p, done, sent, store.Swaps(), s);
      return true, now;
    }
    ghost var swaps := store.Swaps();
    ghost var b: Broadcast;
    go, b := TryRefund(wallet, store, cfg, s, fee);
    if go {
      ghost var later := store.Swaps();
      PassTries(p, done, sent, swaps, s, b, later);
      now := sent + [b];
      AppendAssoc(before, sent, b);
    } else {
      PassStops(p, done, sent, swaps, s);
    }
  }

  /** The loop of `refund_once`; `true` when it ran to the end. */
  method RefundListed(wallet: LiquidWallet, store: SqliteStore, cfg: Config, listed: seq<SwapRecord>, tip: u32,
                      fee: u64)
    returns (ok: bool)
    requires store.Valid() && IsListing(store.Swaps(), listed)
    modifies wallet`broadcasts, store`swapRows
    ensures store.Valid() && store.Quotes() == old(store.Quotes())
    ensures old(wallet.broadcasts) <= wallet.broadcasts
    ensures PassResult(Pass(wallet.world, cfg, fee, tip, old(store.Swaps())),
                       listed, wallet.broadcasts[|old(wallet.broadcasts)|..], store.Swaps(), ok)
  {
    ghost var before := wallet.broadcasts;
    ghost var p := Pass(wallet.world, cfg, fee, tip, store.Swaps());
    ghost var sent: seq<Broadcast> := [];
    PassStarts(p);
    for k := 0 to |listed|
      invariant store.Valid() && store.Quotes() == old(store.Quotes())
      invariant store.Swaps().Keys == p.table.Keys
      invariant wallet.broadcasts == before + sent
      invariant PassResult(p, listed[..k], sent, store.Swaps(), true)
    {
      ghost var done := listed[..k];
      ok, sent := VisitSwap(wallet, store, cfg, listed[k], fee, tip, p, done, before, sent);
      TakeMore(listed, k);
      if !ok {
        PassIgnoresRest(p, listed[..k + 1], sent, store.Swaps(), listed[k + 1..]);
        DropAppended(before, sent);
        return false;
      }
    }
    TakeAll(listed);
    DropAppended(before, sent);
    return true;
  }

  /**
   `refund_once`. It succeeds exactly when it could sync and tried every due swap;
   otherwise it tried none, or a prefix of them ended by one whose refund cannot be built.
   */
  method RefundOnce(wallet: LiquidWallet, store: SqliteStore, observed: Option<u32>, cfg: Config, fee: u64)
    returns (ok: bool, listed: seq<SwapRecord>)
    requires store.Valid()
    modifies wallet, store
    ensures store.Valid() && store.Quotes() == old(store.Quotes())
    ensures old(wallet.broadcasts) <= wallet.broadcasts
    ensures observed.None? ==>
              !ok && wallet.broadcasts == old(wallet.broadcasts) && store.Swaps() == old(store.Swaps())
    ensures observed.Some? ==>
              && IsListing(old(store.Swaps()), listed)
              && PassResult(Pass(wallet.world, cfg, fee, observed.value, old(store.Swaps())),
                            listed, wallet.broadcasts[|old(wallet.broadcasts)|..], store.Swaps(), ok)
  {
    listed := [];
    var synced := wallet.Sync(observed);
    if !synced { return false, listed; }
    var swaps := store.ListSwaps();
    if swaps.Err? { return false, listed; }
    listed := swaps.value;
    ok := RefundListed(wallet, store, cfg, listed, wallet.tipHeight, fee);
  }
}
