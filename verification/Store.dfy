/**
 The SQLite store: rows hold i64 integers and text enums, and the store behaves as two
 maps of records. The SQL engine itself is a pair of tables with a primary key.
 */
module Store {
  import opened Types
  import opened Transaction
  import opened Records

  // ----- column codecs

  function DirectionToStr(d: SwapDirection): string {
    match d
    case LnToLiquid => "ln_to_liquid"
    case LiquidToLn => "liquid_to_ln"
  }

  function DirectionFromStr(s: string): Result<SwapDirection> {
    if s == "ln_to_liquid" then Ok(LnToLiquid)
    else if s == "liquid_to_ln" then Ok(LiquidToLn)
    else Err
  }

  function StatusToStr(s: SwapStatus): string {
    match s
    case Created => "created"
    case Funded => "funded"
    case Paid => "paid"
    case Claimed => "claimed"
    case Refunded => "refunded"
    case Failed => "failed"
  }

  function StatusFromStr(s: string): Result<SwapStatus> {
    if s == "created" then Ok(Created)
    else if s == "funded" then Ok(Funded)
    else if s == "paid" then Ok(Paid)
    else if s == "claimed" then Ok(Claimed)
    else if s == "refunded" then Ok(Refunded)
    else if s == "failed" then Ok(Failed)
    else Err
  }

  /** A u64 parameter binds only if it is an i64. */
  function BindU64(n: u64): Result<i64> {
    if n <= I64_MAX then Ok(n) else Err
  }

  function ReadU64(n: i64): Result<u64> {
    if n >= 0 then Ok(n) else Err
  }

  function ReadU32(n: i64): Result<u32> {
    if 0 <= n <= U32_MAX then Ok(n) else Err
  }

  datatype SwapRow = SwapRow(
    swapId: Id, quoteId: Id, direction: string, invoice: bytes, paymentHash: Hash32, assetId: Asset,
    assetAmount: i64, totalPriceMsat: i64, buyerAddress: Address, feeSubsidy: i64, refundLockHeight: i64,
    p2wshAddress: Address, witnessScript: bytes, fundingTxid: Txid, assetVout: i64, lbtcVout: i64,
    minFundingConfs: i64, lnPaymentId: Option<bytes>, lnPreimage: Option<bytes>, claimTxid: Option<Txid>,
    status: string)

  datatype QuoteRow = QuoteRow(
    quoteId: Id, offerId: bytes, direction: string, assetId: Asset, assetAmount: i64, minFundingConfs: i64,
    totalPriceMsat: i64, priceMsatPerAssetUnit: i64, feeSubsidy: i64, refundDeltaBlocks: i64,
    invoiceExpirySecs: i64, maxMinFundingConfs: i64, swapId: Option<Id>)

  function SwapToRow(r: SwapRecord): Result<SwapRow> {
    var t := r.terms;
    var assetAmount :- BindU64(t.assetAmount);
    var totalPrice :- BindU64(t.totalPriceMsat);
    var feeSubsidy :- BindU64(t.feeSubsidy);
    Ok(SwapRow(t.swapId, t.quoteId, DirectionToStr(t.direction), t.invoice, t.paymentHash, t.assetId,
               assetAmount, totalPrice, t.buyerAddress, feeSubsidy, t.refundLockHeight,
               t.p2wshAddress, t.witnessScript, t.fundingTxid, t.assetVout, t.lbtcVout,
               t.minFundingConfs, r.lnPaymentId, r.lnPreimage, r.claimTxid, StatusToStr(r.status)))
  }

  /** `row_to_swap_record`. */
  function RowToSwap(w: SwapRow): Result<SwapRecord> {
    var direction :- DirectionFromStr(w.direction);
    var status :- StatusFromStr(w.status);
    var assetAmount :- ReadU64(w.assetAmount);
    var totalPrice :- ReadU64(w.totalPriceMsat);
    var feeSubsidy :- ReadU64(w.feeSubsidy);
    var refundLockHeight :- ReadU32(w.refundLockHeight);
    var assetVout :- ReadU32(w.assetVout);
    var lbtcVout :- ReadU32(w.lbtcVout);
    var minFundingConfs :- ReadU32(w.minFundingConfs);
    Ok(SwapRecord(
         SwapTerms(w.swapId, w.quoteId, direction, w.invoice, w.paymentHash, w.assetId, assetAmount, totalPrice,
                   w.buyerAddress, feeSubsidy, refundLockHeight, w.p2wshAddress, w.witnessScript, w.fundingTxid,
                   assetVout, lbtcVout, minFundingConfs),
         w.lnPaymentId, w.lnPreimage, w.claimTxid, status))
  }

  function QuoteToRow(q: QuoteRecord): Result<QuoteRow> {
    var assetAmount :- BindU64(q.assetAmount);
    var totalPrice :- BindU64(q.totalPriceMsat);
    var unitPrice :- BindU64(q.priceMsatPerAssetUnit);
    var feeSubsidy :- BindU64(q.feeSubsidy);
    Ok(QuoteRow(q.quoteId, q.offerId, DirectionToStr(q.direction), q.assetId, assetAmount, q.minFundingConfs,
                totalPrice, unitPrice, feeSubsidy, q.refundDeltaBlocks, q.invoiceExpirySecs,
                q.maxMinFundingConfs, q.swapId))
  }

  function RowToQuote(w: QuoteRow): Result<QuoteRecord> {
    var direction :- DirectionFromStr(w.direction);
    var assetAmount :- ReadU64(w.assetAmount);
    var minFundingConfs :- ReadU32(w.minFundingConfs);
    var totalPrice :- ReadU64(w.totalPriceMsat);
    var unitPrice :- ReadU64(w.priceMsatPerAssetUnit);
    var feeSubsidy :- ReadU64(w.feeSubsidy);
    var refundDelta :- ReadU32(w.refundDeltaBlocks);
    var invoiceExpiry :- ReadU32(w.invoiceExpirySecs);
    var maxConfs :- ReadU32(w.maxMinFundingConfs);
    Ok(QuoteRecord(w.quoteId, w.offerId, direction, w.assetId, assetAmount, minFundingConfs, totalPrice,
                   unitPrice, feeSubsidy, refundDelta, invoiceExpiry, maxConfs, w.swapId))
  }

  /** What the i64 columns can hold. */
  predicate SwapStorable(r: SwapRecord) {
    r.terms.assetAmount <= I64_MAX && r.terms.totalPriceMsat <= I64_MAX && r.terms.feeSubsidy <= I64_MAX
  }

  predicate QuoteStorable(q: QuoteRecord) {
    && q.assetAmount <= I64_MAX && q.totalPriceMsat <= I64_MAX
    && q.priceMsatPerAssetUnit <= I64_MAX && q.feeSubsidy <= I64_MAX
  }

  lemma CodecsRoundTrip(d: SwapDirection, s: SwapStatus)
    ensures DirectionFromStr(DirectionToStr(d)) == Ok(d)
    ensures StatusFromStr(StatusToStr(s)) == Ok(s)
  {
    assert DirectionToStr(LnToLiquid)[1] != DirectionToStr(LiquidToLn)[1];
    var strs := ["created", "funded", "paid", "claimed", "refunded", "failed"];
    assert |strs[0]| == 7 && |strs[1]| == 6 && |strs[2]| == 4 && |strs[3]| == 7 && |strs[4]| == 8 && |strs[5]| == 6;
    assert strs[0][1] != strs[3][1] && strs[1][1] != strs[5][1];
  }

  /** A record binds to a row exactly when it is storable, and the row reads back as that record. */
  lemma SwapRowRoundTrip(r: SwapRecord)
    ensures SwapToRow(r).Ok? <==> SwapStorable(r)
    ensures SwapToRow(r).Ok? ==> RowToSwap(SwapToRow(r).value) == Ok(r) && SwapToRow(r).value.swapId == r.terms.swapId
  {
    CodecsRoundTrip(r.terms.direction, r.status);
  }

  lemma QuoteRowRoundTrip(q: QuoteRecord)
    ensures QuoteToRow(q).Ok? <==> QuoteStorable(q)
    ensures QuoteToRow(q).Ok? ==> RowToQuote(QuoteToRow(q).value) == Ok(q) && QuoteToRow(q).value.quoteId == q.quoteId
  {
    CodecsRoundTrip(q.direction, Created);
  }

  // ----- updates, on the map of records

  datatype Update =
    | SetStatus(id: Id, status: SwapStatus)
    | SetPayment(id: Id, paymentId: bytes, preimage: bytes, status: SwapStatus)
    | SetClaim(id: Id, claimTxid: Txid, status: SwapStatus)

  function UpdateRecord(r: SwapRecord, u: Update): SwapRecord {
    match u
    case SetStatus(_, status) => r.(status := status)
    case SetPayment(_, paymentId, preimage, status) =>
      r.(lnPaymentId := Some(paymentId), lnPreimage := Some(preimage), status := status)
    case SetClaim(_, claimTxid, status) => r.(claimTxid := Some(claimTxid), status := status)
  }

  /** The columns an UPDATE statement sets. */
  function UpdateRow(w: SwapRow, u: Update): SwapRow {
    match u
    case SetStatus(_, status) => w.(status := StatusToStr(status))
    case SetPayment(_, paymentId, preimage, status) =>
      w.(lnPaymentId := Some(paymentId), lnPreimage := Some(preimage), status := StatusToStr(status))
    case SetClaim(_, claimTxid, status) => w.(claimTxid := Some(claimTxid), status := StatusToStr(status))
  }

  lemma UpdateRowDecodes(w: SwapRow, u: Update)
    requires RowToSwap(w).Ok?
    ensures RowToSwap(UpdateRow(w, u)) == Ok(UpdateRecord(RowToSwap(w).value, u))
  {
    CodecsRoundTrip(LnToLiquid, u.status);
  }

  /** An update of a missing row changes nothing (and is reported). */
  function ApplyUpdate(swaps: map<Id, SwapRecord>, u: Update): map<Id, SwapRecord> {
    if u.id in swaps then swaps[u.id := UpdateRecord(swaps[u.id], u)] else swaps
  }

  function ApplyUpdates(swaps: map<Id, SwapRecord>, us: seq<Update>): map<Id, SwapRecord> {
    if us == [] then swaps else ApplyUpdate(ApplyUpdates(swaps, us[..|us| - 1]), us[|us| - 1])
  }

  /** The last update of `id` for which `wanted` holds. */
  function LastUpdate(us: seq<Update>, id: Id, wanted: Update -> bool): (r: Option<Update>)
    ensures r.Some? ==> r.value in us && r.value.id == id && wanted(r.value)
    ensures r.None? ==> forall u :: u in us && u.id == id ==> !wanted(u)
  {
    if us == [] then None
    else
      var last := us[|us| - 1];
      if last.id == id && wanted(last) then Some(last) else LastUpdate(us[..|us| - 1], id, wanted)
  }

  /** What a row inserted as `r` must read back as, told from the update history alone. */
  function ReadBack(r: SwapRecord, us: seq<Update>, id: Id): SwapRecord {
    var payment := LastUpdate(us, id, (u: Update) => u.SetPayment?);
    var claim := LastUpdate(us, id, (u: Update) => u.SetClaim?);
    var any := LastUpdate(us, id, (u: Update) => true);
    SwapRecord(r.terms,
               if payment.Some? then Some(payment.value.paymentId) else r.lnPaymentId,
               if payment.Some? then Some(payment.value.preimage) else r.lnPreimage,
               if claim.Some? then Some(claim.value.claimTxid) else r.claimTxid,
               if any.Some? then any.value.status else r.status)
  }

  lemma ReadBackOfLast(r: SwapRecord, us: seq<Update>, u: Update, id: Id)
    ensures ReadBack(r, us + [u], id) ==
            if u.id == id then UpdateRecord(ReadBack(r, us, id), u) else ReadBack(r, us, id)
  {
    assert (us + [u])[..|us|] == us;
  }

  /** After any updates: the same rows, each with its terms and the latest value of each updated column. */
  lemma {:induction false} UpdatesReadBack(swaps: map<Id, SwapRecord>, us: seq<Update>, id: Id)
    requires id in swaps
    ensures ApplyUpdates(swaps, us).Keys == swaps.Keys
    ensures ApplyUpdates(swaps, us)[id] == ReadBack(swaps[id], us, id)
  {
    if us != [] {
      UpdatesReadBack(swaps, us[..|us| - 1], id);
      ReadBackOfLast(swaps[id], us[..|us| - 1], us[|us| - 1], id);
      assert us == us[..|us| - 1] + [us[|us| - 1]];
    }
  }

  // ----- the store

  predicate SwapRowsReadable(rows: map<Id, SwapRow>) {
    forall id :: id in rows ==> rows[id].swapId == id && RowToSwap(rows[id]).Ok?
  }

  predicate QuoteRowsReadable(rows: map<Id, QuoteRow>) {
    forall id :: id in rows ==> rows[id].quoteId == id && RowToQuote(rows[id]).Ok?
  }

  ghost function SwapsOf(rows: map<Id, SwapRow>): map<Id, SwapRecord>
    requires SwapRowsReadable(rows)
  {
    map id | id in rows :: RowToSwap(rows[id]).value
  }

  ghost function QuotesOf(rows: map<Id, QuoteRow>): map<Id, QuoteRecord>
    requires QuoteRowsReadable(rows)
  {
    map id | id in rows :: RowToQuote(rows[id]).value
  }

  lemma PutSwapRow(rows: map<Id, SwapRow>, w: SwapRow, r: SwapRecord)
    requires SwapRowsReadable(rows) && RowToSwap(w) == Ok(r)
    ensures SwapRowsReadable(rows[w.swapId := w])
    ensures SwapsOf(rows[w.swapId := w]) == SwapsOf(rows)[w.swapId := r]
  {
  }

  lemma PutQuoteRow(rows: map<Id, QuoteRow>, w: QuoteRow, q: QuoteRecord)
    requires QuoteRowsReadable(rows) && RowToQuote(w) == Ok(q)
    ensures QuoteRowsReadable(rows[w.quoteId := w])
    ensures QuotesOf(rows[w.quoteId := w]) == QuotesOf(rows)[w.quoteId := q]
  {
  }

  /** What is listed so far, with `rest` still to come. */
  ghost predicate PartialListing(swaps: map<Id, SwapRecord>, out: seq<SwapRecord>, rest: set<Id>) {
    && rest <= swaps.Keys
    && (forall i :: 0 <= i < |out| ==> out[i].terms.swapId in swaps && swaps[out[i].terms.swapId] == out[i])
    && (forall i, j :: 0 <= i < j < |out| ==> IdLess(out[i].terms.swapId, out[j].terms.swapId))
    && (forall i, id :: 0 <= i < |out| && id in rest ==> IdLess(out[i].terms.swapId, id))
    && (forall id :: id in swaps && id !in rest ==> exists i :: 0 <= i < |out| && out[i].terms.swapId == id)
  }

  lemma ListingFinds(out: seq<SwapRecord>, r: SwapRecord, x: Id)
    requires x == r.terms.swapId || exists i :: 0 <= i < |out| && out[i].terms.swapId == x
    ensures exists i :: 0 <= i < |out + [r]| && (out + [r])[i].terms.swapId == x
  {
    if x == r.terms.swapId {
      assert (out + [r])[|out|].terms.swapId == x;
    } else {
      var i :| 0 <= i < |out| && out[i].terms.swapId == x;
      assert (out + [r])[i].terms.swapId == x;
    }
  }

  lemma ListedInOrder(swaps: map<Id, SwapRecord>, out: seq<SwapRecord>, rest: set<Id>, id: Id)
    requires PartialListing(swaps, out, rest) && id in rest && swaps[id].terms.swapId == id
    ensures var longer := out + [swaps[id]];
            forall i, j :: 0 <= i < j < |longer| ==> IdLess(longer[i].terms.swapId, longer[j].terms.swapId)
  {
  }

  lemma ListingGrows(swaps: map<Id, SwapRecord>, out: seq<SwapRecord>, rest: set<Id>, id: Id)
    requires PartialListing(swaps, out, rest)
    requires id in rest && swaps[id].terms.swapId == id
    requires forall other :: other in rest && other != id ==> IdLess(id, other)
    ensures PartialListing(swaps, out + [swaps[id]], rest - {id})
  {
    ListedInOrder(swaps, out, rest, id);
    forall x | x in swaps && x !in rest - {id}
      ensures exists i :: 0 <= i < |out + [swaps[id]]| && (out + [swaps[id]])[i].terms.swapId == x
    {
      ListingFinds(out, swaps[id], x);
    }
  }

  class SqliteStore {
    var quoteRows: map<Id, QuoteRow>
    var swapRows: map<Id, SwapRow>

    ghost predicate Valid()
      reads this
    {
      SwapRowsReadable(swapRows) && QuoteRowsReadable(quoteRows)
    }

    ghost function Swaps(): map<Id, SwapRecord>
      reads this
      requires Valid()
    {
      SwapsOf(swapRows)
    }

    ghost function Quotes(): map<Id, QuoteRecord>
      reads this
      requires Valid()
    {
      QuotesOf(quoteRows)
    }

    constructor ()
      ensures Valid() && Swaps() == map[] && Quotes() == map[]
    {
      quoteRows := map[];
      swapRows := map[];
    }

    method InsertQuote(q: QuoteRecord) returns (ok: bool)
      requires Valid()
      modifies this`quoteRows
      ensures Valid() && Swaps() == old(Swaps())
      ensures ok <==> QuoteStorable(q) && q.quoteId !in old(Quotes())
      ensures Quotes() == if ok then old(Quotes())[q.quoteId := q] else old(Quotes())
    {
      QuoteRowRoundTrip(q);
      var row := QuoteToRow(q);
      if row.Err? || row.value.quoteId in quoteRows { return false; }
      PutQuoteRow(quoteRows, row.value, q);
      quoteRows := quoteRows[row.value.quoteId := row.value];
      return true;
    }

    method GetQuote(quoteId: Id) returns (r: Result<Option<QuoteRecord>>)
      requires Valid()
      ensures r == Ok(if quoteId in Quotes() then Some(Quotes()[quoteId]) else None)
    {
      if quoteId !in quoteRows { return Ok(None); }
      var q := RowToQuote(quoteRows[quoteId]);
      if q.Err? { return Err; }
      return Ok(Some(q.value));
    }

    method SetQuoteSwapId(quoteId: Id, swapId: Id) returns (ok: bool)
      requires Valid()
      modifies this`quoteRows
      ensures Valid() && Swaps() == old(Swaps())
      ensures ok <==> quoteId in old(Quotes())
      ensures Quotes() == if ok then old(Quotes())[quoteId := old(Quotes())[quoteId].(swapId := Some(swapId))]
                                else old(Quotes())
    {
      if quoteId !in quoteRows { return false; }
      var row := quoteRows[quoteId].(swapId := Some(swapId));
      PutQuoteRow(quoteRows, row, RowToQuote(quoteRows[quoteId]).value.(swapId := Some(swapId)));
      quoteRows := quoteRows[quoteId := row];
      return true;
    }

    method InsertSwap(r: SwapRecord) returns (ok: bool)
      requires Valid()
      modifies this`swapRows
      ensures Valid() && Quotes() == old(Quotes())
      ensures ok <==> SwapStorable(r) && r.terms.swapId !in old(Swaps())
      ensures Swaps() == if ok then old(Swaps())[r.terms.swapId := r] else old(Swaps())
    {
      SwapRowRoundTrip(r);
      var row := SwapToRow(r);
      if row.Err? || row.value.swapId in swapRows { return false; }
      PutSwapRow(swapRows, row.value, r);
      swapRows := swapRows[row.value.swapId := row.value];
      return true;
    }

    method GetSwap(swapId: Id) returns (r: Result<Option<SwapRecord>>)
      requires Valid()
      ensures r == Ok(if swapId in Swaps() then Some(Swaps()[swapId]) else None)
    {
      if swapId !in swapRows { return Ok(None); }
      var s := RowToSwap(swapRows[swapId]);
      if s.Err? { return Err; }
      return Ok(Some(s.value));
    }

    /** The UPDATE statements: one row, found by its key. */
    method Execute(u: Update) returns (rows: nat)
      requires Valid()
      modifies this`swapRows
      ensures Valid() && Quotes() == old(Quotes())
      ensures rows == if u.id in old(Swaps()) then 1 else 0
      ensures Swaps() == ApplyUpdate(old(Swaps()), u)
    {
      if u.id !in swapRows { return 0; }
      var row := UpdateRow(swapRows[u.id], u);
      UpdateRowDecodes(swapRows[u.id], u);
      PutSwapRow(swapRows, row, UpdateRecord(RowToSwap(swapRows[u.id]).value, u));
      swapRows := swapRows[u.id := row];
      return 1;
    }

    method UpdateSwapStatus(swapId: Id, status: SwapStatus) returns (ok: bool)
      requires Valid()
      modifies this`swapRows
      ensures Valid() && Quotes() == old(Quotes())
      ensures ok <==> swapId in old(Swaps())
      ensures Swaps() == ApplyUpdate(old(Swaps()), SetStatus(swapId, status))
    {
      var rows := Execute(SetStatus(swapId, status));
      return rows == 1;
    }

    method UpsertSwapPayment(swapId: Id, paymentId: bytes, preimage: bytes, status: SwapStatus) returns (ok: bool)
      requires Valid()
      modifies this`swapRows
      ensures Valid() && Quotes() == old(Quotes())
      ensures ok <==> swapId in old(Swaps())
      ensures Swaps() == ApplyUpdate(old(Swaps()), SetPayment(swapId, paymentId, preimage, status))
    {
      var rows := Execute(SetPayment(swapId, paymentId, preimage, status));
      return rows == 1;
    }

    method UpsertSwapClaim(swapId: Id, claimTxid: Txid, status: SwapStatus) returns (ok: bool)
      requires Valid()
      modifies this`swapRows
      ensures Valid() && Quotes() == old(Quotes())
      ensures ok <==> swapId in old(Swaps())
      ensures Swaps() == ApplyUpdate(old(Swaps()), SetClaim(swapId, claimTxid, status))
    {
      var rows := Execute(SetClaim(swapId, claimTxid, status));
      return rows == 1;
    }

    /** The cursor of `ORDER BY swap_id` yields the rows least id first; each is decoded and pushed. */
    method ListSwaps() returns (r: Result<seq<SwapRecord>>)
      requires Valid()
      ensures r.Ok? && IsListing(Swaps(), r.value)
    {
      var out: seq<SwapRecord> := [];
      var cursor := swapRows.Keys;
      ghost var swaps := Swaps();
      while cursor != {}
        invariant PartialListing(swaps, out, cursor)
        decreases |cursor|
      {
        var id := LeastId(cursor);
        var row := ReadSwapRow(id);
        if row.Err? { return Err; }
        ListingGrows(swaps, out, cursor, id);
        out := out + [row.value];
        cursor := cursor - {id};
      }
      ListingComplete(swaps, out);
      return Ok(out);
    }

    method ReadSwapRow(id: Id) returns (r: Result<SwapRecord>)
      requires Valid() && id in Swaps()
      ensures r == Ok(Swaps()[id]) && r.value.terms.swapId == id
    {
      r := RowToSwap(swapRows[id]);
    }
  }

  lemma ListingComplete(swaps: map<Id, SwapRecord>, out: seq<SwapRecord>)
    requires PartialListing(swaps, out, {})
    ensures IsListing(swaps, out)
  {
  }

  predicate IsLeast(ids: set<Id>, id: Id) {
    id in ids && forall other :: other in ids && other != id ==> IdLess(id, other)
  }

  method LeastId(ids: set<Id>) returns (id: Id)
    requires ids != {}
    ensures IsLeast(ids, id)
  {
    LeastIdExists(ids);
    id :| id in ids && IsLeast(ids, id);
  }

  lemma {:induction false} LeastIdExists(ids: set<Id>)
    requires ids != {}
    ensures exists id :: id in ids && IsLeast(ids, id)
    decreases |ids|
  {
    var x :| x in ids;
    if ids == {x} {
      assert IsLeast(ids, x);
    } else {
      LeastIdExists(ids - {x});
      var y :| y in ids - {x} && IsLeast(ids - {x}, y);
      LeastOfTwo(ids, x, y);
    }
  }

  lemma LeastOfTwo(ids: set<Id>, x: Id, y: Id)
    requires x in ids && IsLeast(ids - {x}, y)
    ensures IsLeast(ids, x) || IsLeast(ids, y)
  {
    IdOrderTotal(x, y);
    if IdLess(x, y) {
      forall other | other in ids && other != x && other != y
        ensures IdLess(x, other)
      {
        IdOrderTransitive(x, y, other);
      }
    }
  }
}
