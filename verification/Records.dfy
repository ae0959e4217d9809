/**
 The persisted records and the party table.

 Text columns hold decoded values here: an address is its script, network and blinding
 key, and hex text is the bytes it spells. A swap's first seventeen fields are written
 once, at insertion; they are grouped as its terms.
 */
module Records {
  import opened Types
  import opened Transaction
  import opened HtlcSpend

  type Id = string

  const MAX_MIN_FUNDING_CONFS: u32 := 6
  const DEFAULT_CLAIM_FEE_SATS: u64 := 500

  datatype SwapStatus = Created | Funded | Paid | Claimed | Refunded | Failed

  datatype SwapDirection = LnToLiquid | LiquidToLn

  datatype Address = Address(script: bytes, network: nat, blinder: bytes)

  datatype SwapTerms = SwapTerms(
    swapId: Id,
    quoteId: Id,
    direction: SwapDirection,
    invoice: bytes,
    paymentHash: Hash32,
    assetId: Asset,
    assetAmount: u64,
    totalPriceMsat: u64,
    buyerAddress: Address,
    feeSubsidy: u64,
    refundLockHeight: u32,
    p2wshAddress: Address,
    witnessScript: bytes,
    fundingTxid: Txid,
    assetVout: u32,
    lbtcVout: u32,
    minFundingConfs: u32)

  datatype SwapRecord = SwapRecord(
    terms: SwapTerms,
    lnPaymentId: Option<bytes>,
    lnPreimage: Option<bytes>,
    claimTxid: Option<Txid>,
    status: SwapStatus)

  datatype QuoteRecord = QuoteRecord(
    quoteId: Id,
    offerId: bytes,
    direction: SwapDirection,
    assetId: Asset,
    assetAmount: u64,
    minFundingConfs: u32,
    totalPriceMsat: u64,
    priceMsatPerAssetUnit: u64,
    feeSubsidy: u64,
    refundDeltaBlocks: u32,
    invoiceExpirySecs: u32,
    maxMinFundingConfs: u32,
    swapId: Option<Id>)

  /** The funding both the claim handler and the refund worker rebuild from a record. */
  function FundingOf(t: SwapTerms, policyAsset: Asset): HtlcFunding {
    HtlcFunding(t.fundingTxid, t.assetVout, t.lbtcVout, t.assetId, t.assetAmount, policyAsset, t.feeSubsidy)
  }

  function AssetOut(t: SwapTerms): OutPoint {
    OutPoint(t.fundingTxid, t.assetVout)
  }

  function LbtcOut(t: SwapTerms): OutPoint {
    OutPoint(t.fundingTxid, t.lbtcVout)
  }

  // ----- who does what

  datatype CallerRole = Buyer | Seller

  datatype SwapParties = SwapParties(
    lnPayer: CallerRole,
    lnPayee: CallerRole,
    liquidFunder: CallerRole,
    liquidClaimer: CallerRole,
    liquidRefunder: CallerRole)

  function PartiesFor(d: SwapDirection): SwapParties {
    match d
    case LnToLiquid => SwapParties(Buyer, Seller, Seller, Buyer, Seller)
    case LiquidToLn => SwapParties(Seller, Buyer, Buyer, Seller, Buyer)
  }

  /** The key index a handler signs with when it acts for `role`. */
  function KeyIndexOf(role: CallerRole, sellerKey: u32, buyerKey: u32): u32 {
    match role
    case Seller => sellerKey
    case Buyer => buyerKey
  }

  /** create_swap: (claimer, refunder) key hashes. */
  function HtlcKeyHashes(d: SwapDirection, buyer: Hash20, seller: Hash20): (Hash20, Hash20) {
    match d
    case LnToLiquid => (buyer, seller)
    case LiquidToLn => (seller, buyer)
  }

  /** create_asset_claim: the signing index, and the address it must equal. */
  function ClaimKey(t: SwapTerms, sellerKey: u32, buyerKey: u32): (u32, Option<Address>) {
    match t.direction
    case LnToLiquid => (buyerKey, Some(t.buyerAddress))
    case LiquidToLn => (sellerKey, None)
  }

  /** refund_once: the signing index, and the address it must equal. */
  function RefundKey(t: SwapTerms, sellerKey: u32, buyerKey: u32): (u32, Option<Address>) {
    match t.direction
    case LnToLiquid => (sellerKey, None)
    case LiquidToLn => (buyerKey, Some(t.buyerAddress))
  }

  /**
   The three tables agree: whoever `PartiesFor` names claimer or refunder owns that hash
   in the script and is the one whose index signs, and exactly the buyer's side is
   checked against the buyer's address.
   */
  lemma PartyTablesAgree(t: SwapTerms, buyer: Hash20, seller: Hash20, sellerKey: u32, buyerKey: u32)
    ensures var p := PartiesFor(t.direction);
            var hashOf := (r: CallerRole) => if r.Buyer? then buyer else seller;
            && HtlcKeyHashes(t.direction, buyer, seller) == (hashOf(p.liquidClaimer), hashOf(p.liquidRefunder))
            && ClaimKey(t, sellerKey, buyerKey).0 == KeyIndexOf(p.liquidClaimer, sellerKey, buyerKey)
            && RefundKey(t, sellerKey, buyerKey).0 == KeyIndexOf(p.liquidRefunder, sellerKey, buyerKey)
            && (ClaimKey(t, sellerKey, buyerKey).1 == Some(t.buyerAddress) <==> p.liquidClaimer.Buyer?)
            && (RefundKey(t, sellerKey, buyerKey).1 == Some(t.buyerAddress) <==> p.liquidRefunder.Buyer?)
            && p.lnPayer == p.liquidClaimer != p.liquidRefunder == p.liquidFunder == p.lnPayee
  {
  }

  // ----- listing order: SQLite compares text byte by byte

  predicate IdLess(a: Id, b: Id) {
    if b == [] then false
    else if a == [] then true
    else if a[0] != b[0] then a[0] < b[0]
    else IdLess(a[1..], b[1..])
  }

  /** The first difference of two ids, if they have one. */
  predicate DifferAt(a: Id, b: Id, k: nat) {
    k < |a| && k < |b| && a[..k] == b[..k] && a[k] < b[k]
  }

  lemma DifferAfter(a: Id, b: Id, k: nat)
    requires a != [] && b != [] && a[0] == b[0]
    ensures DifferAt(a, b, k + 1) <==> DifferAt(a[1..], b[1..], k)
  {
    if k < |a[1..]| && k < |b[1..]| {
      assert a[..k + 1] == [a[0]] + a[1..][..k] && b[..k + 1] == [b[0]] + b[1..][..k];
      assert a[1..][..k] == a[..k + 1][1..] && b[1..][..k] == b[..k + 1][1..];
    }
  }

  lemma {:induction false} IdLessDiffers(a: Id, b: Id)
    requires IdLess(a, b) && !(a < b)
    ensures exists k: nat :: DifferAt(a, b, k)
  {
    if a != [] && b != [] && a[0] == b[0] {
      assert a == [a[0]] + a[1..] && b == [b[0]] + b[1..];
      IdLessDiffers(a[1..], b[1..]);
      var k: nat :| DifferAt(a[1..], b[1..], k);
      DifferAfter(a, b, k);
    } else {
      assert DifferAt(a, b, 0);
    }
  }

  lemma {:induction false} DifferingIsLess(a: Id, b: Id, k: nat)
    requires DifferAt(a, b, k)
    ensures IdLess(a, b)
  {
    if k > 0 {
      assert a[0] == a[..k][0] && b[0] == b[..k][0];
      DifferAfter(a, b, k - 1);
      DifferingIsLess(a[1..], b[1..], k - 1);
    }
  }

  lemma {:induction false} PrefixIsLess(a: Id, b: Id)
    requires a < b
    ensures IdLess(a, b)
  {
    if a != [] {
      PrefixIsLess(a[1..], b[1..]);
    }
  }

  /** A proper prefix comes first; otherwise the first difference decides. */
  lemma IdLessIff(a: Id, b: Id)
    ensures IdLess(a, b) <==> a < b || exists k: nat :: DifferAt(a, b, k)
  {
    if IdLess(a, b) && !(a < b) {
      IdLessDiffers(a, b);
    }
    if a < b {
      PrefixIsLess(a, b);
    }
    if k: nat :| DifferAt(a, b, k) {
      DifferingIsLess(a, b, k);
    }
  }

  lemma {:induction false} IdOrderTotal(a: Id, b: Id)
    ensures a == b || IdLess(a, b) || IdLess(b, a)
    ensures !(IdLess(a, b) && IdLess(b, a)) && !IdLess(a, a)
  {
    if a != [] && b != [] {
      IdOrderTotal(a[1..], b[1..]);
      assert a == [a[0]] + a[1..] && b == [b[0]] + b[1..];
    }
    if a != [] {
      IdOrderTotal(a[1..], a[1..]);
    }
  }

  lemma {:induction false} IdOrderTransitive(a: Id, b: Id, c: Id)
    requires IdLess(a, b) && IdLess(b, c)
    ensures IdLess(a, c)
  {
    if a != [] && a[0] == b[0] == c[0] {
      IdOrderTransitive(a[1..], b[1..], c[1..]);
    }
  }

  /** `out` is the table, each row once, in id order. */
  predicate IsListing(swaps: map<Id, SwapRecord>, out: seq<SwapRecord>) {
    && (forall i :: 0 <= i < |out| ==> out[i].terms.swapId in swaps && swaps[out[i].terms.swapId] == out[i])
    && (forall i, j :: 0 <= i < j < |out| ==> IdLess(out[i].terms.swapId, out[j].terms.swapId))
    && (forall id :: id in swaps ==> exists i :: 0 <= i < |out| && out[i].terms.swapId == id)
  }
}
