/**
 The offer and its id: the hash of the offer's protobuf encoding.

 Fields are written in order, defaults are skipped, and the repeated enum is packed
 (Protocol Buffers Encoding, sections "Base 128 Varints" and "Packed Repeated Fields").
 The id is compared as a digest; its hex text is not modelled.
 */
module Offer {
  import opened Types
  import opened Transaction
  import opened Records

  datatype Offer = Offer(
    assetId: bytes,
    supportedDirections: seq<u64>,
    priceMsatPerAssetUnit: u64,
    feeSubsidy: u64,
    refundDeltaBlocks: u32,
    invoiceExpirySecs: u32,
    maxMinFundingConfs: u32)

  datatype Config = Config(
    sellAssetId: Asset,
    priceMsatPerAssetUnit: u64,
    feeSubsidy: u64,
    refundDeltaBlocks: u32,
    invoiceExpirySecs: u32,
    sellerKeyIndex: u32,
    buyerKeyIndex: u32)

  /** Enum numbers 1 and 2: both directions, always. */
  const SUPPORTED_DIRECTIONS: seq<u64> := [1, 2]

  function CurrentOffer(cfg: Config): Offer {
    Offer(cfg.sellAssetId, SUPPORTED_DIRECTIONS, cfg.priceMsatPerAssetUnit, cfg.feeSubsidy,
          cfg.refundDeltaBlocks, cfg.invoiceExpirySecs, MAX_MIN_FUNDING_CONFS)
  }

  /** The offer `quote_record_to_proto` shows for a stored quote. */
  function QuoteOffer(q: QuoteRecord): Offer {
    Offer(q.assetId, SUPPORTED_DIRECTIONS, q.priceMsatPerAssetUnit, q.feeSubsidy,
          q.refundDeltaBlocks, q.invoiceExpirySecs, q.maxMinFundingConfs)
  }

  // ----- encoding

  function VarInt(n: nat): (r: bytes)
    ensures r != []
  {
    if n < 128 then [n] else [n % 128 + 128] + VarInt(n / 128)
  }

  function NumberField(tag: byte, n: nat): bytes {
    if n == 0 then [] else [tag] + VarInt(n)
  }

  function PayloadField(tag: byte, payload: bytes): bytes {
    if payload == [] then [] else [tag] + (VarInt(|payload|) + payload)
  }

  function Packed(ns: seq<u64>): bytes {
    if ns == [] then [] else VarInt(ns[0]) + Packed(ns[1..])
  }

  /** Number fields under the given tags, in order. */
  function NumberFields(tags: seq<byte>, ns: seq<nat>): bytes
    requires |tags| == |ns|
  {
    if tags == [] then [] else NumberField(tags[0], ns[0]) + NumberFields(tags[1..], ns[1..])
  }

  function FieldsUnder(tags: seq<byte>, assetId: bytes, ds: seq<u64>, ns: seq<nat>): bytes
    requires |tags| == |ns|
  {
    PayloadField(0x0a, assetId) + (PayloadField(0x12, Packed(ds)) + NumberFields(tags, ns))
  }

  const NUMBER_TAGS: seq<byte> := [0x18, 0x20, 0x28, 0x30, 0x38]

  function OfferNumbers(o: Offer): seq<nat> {
    [o.priceMsatPerAssetUnit, o.feeSubsidy, o.refundDeltaBlocks, o.invoiceExpirySecs, o.maxMinFundingConfs]
  }

  function Encode(o: Offer): bytes {
    FieldsUnder(NUMBER_TAGS, o.assetId, o.supportedDirections, OfferNumbers(o))
  }

  function OfferId(c: Crypto, o: Offer): bytes {
    c.sha256(Encode(o))
  }

  // ----- the encoding is injective

  lemma Reassociate(a: bytes, b: bytes, c: bytes)
    ensures (a + b) + c == a + (b + c)
  {
  }

  lemma DropTag(tag: byte, s: bytes)
    ensures ([tag] + s)[0] == tag && ([tag] + s)[1..] == s
  {
  }

  lemma VarIntHead(n: nat, x: bytes)
    ensures var s := VarInt(n) + x;
            if n < 128 then s[0] == n && s[1..] == x
            else s[0] == n % 128 + 128 && s[1..] == VarInt(n / 128) + x
  {
    if n < 128 {
      DropTag(n, x);
    } else {
      Reassociate([n % 128 + 128], VarInt(n / 128), x);
      DropTag(n % 128 + 128, VarInt(n / 128) + x);
    }
  }

  /** A varint marks its own end. */
  lemma {:induction false} VarIntPrefixFree(a: nat, x: bytes, b: nat, y: bytes)
    requires VarInt(a) + x == VarInt(b) + y
    ensures a == b && x == y
  {
    VarIntHead(a, x);
    VarIntHead(b, y);
    if a >= 128 {
      VarIntPrefixFree(a / 128, x, b / 128, y);
    }
  }

  /** What follows a field starts with a higher tag, if anything follows. */
  predicate StartsAbove(tag: byte, s: bytes) {
    s == [] || s[0] > tag
  }

  lemma NumberFieldHead(tag: byte, n: nat, x: bytes)
    requires StartsAbove(tag, x)
    ensures var s := NumberField(tag, n) + x;
            if n == 0 then s == x else s != [] && s[0] == tag && s[1..] == VarInt(n) + x
  {
    if n == 0 {
      assert NumberField(tag, n) + x == x;
    } else {
      Reassociate([tag], VarInt(n), x);
      DropTag(tag, VarInt(n) + x);
    }
  }

  lemma NumberFieldPeels(tag: byte, a: nat, x: bytes, b: nat, y: bytes)
    requires StartsAbove(tag, x) && StartsAbove(tag, y)
    requires NumberField(tag, a) + x == NumberField(tag, b) + y
    ensures a == b && x == y
  {
    NumberFieldHead(tag, a, x);
    NumberFieldHead(tag, b, y);
    if a != 0 {
      VarIntPrefixFree(a, x, b, y);
    }
  }

  lemma PayloadFieldHead(tag: byte, p: bytes, x: bytes)
    requires StartsAbove(tag, x)
    ensures var s := PayloadField(tag, p) + x;
            if p == [] then s == x else s != [] && s[0] == tag && s[1..] == VarInt(|p|) + (p + x)
  {
    if p == [] {
      assert PayloadField(tag, p) + x == x;
    } else {
      Reassociate([tag], VarInt(|p|) + p, x);
      Reassociate(VarInt(|p|), p, x);
      DropTag(tag, VarInt(|p|) + (p + x));
    }
  }

  lemma PayloadFieldPeels(tag: byte, p: bytes, x: bytes, q: bytes, y: bytes)
    requires StartsAbove(tag, x) && StartsAbove(tag, y)
    requires PayloadField(tag, p) + x == PayloadField(tag, q) + y
    ensures p == q && x == y
  {
    PayloadFieldHead(tag, p, x);
    PayloadFieldHead(tag, q, y);
    if p != [] {
      VarIntPrefixFree(|p|, p + x, |q|, q + y);
      assert p == (p + x)[..|p|] && x == (p + x)[|p|..];
      assert q == (q + y)[..|q|] && y == (q + y)[|q|..];
    }
  }

  lemma {:induction false} PackedInjective(ms: seq<u64>, ns: seq<u64>)
    requires Packed(ms) == Packed(ns)
    ensures ms == ns
  {
    if ms != [] && ns != [] {
      VarIntPrefixFree(ms[0], Packed(ms[1..]), ns[0], Packed(ns[1..]));
      PackedInjective(ms[1..], ns[1..]);
      assert ms == [ms[0]] + ms[1..] && ns == [ns[0]] + ns[1..];
    }
  }

  predicate Increasing(tags: seq<byte>) {
    forall i, j :: 0 <= i < j < |tags| ==> tags[i] < tags[j]
  }

  lemma {:induction false} NumberFieldsStartAbove(tag: byte, tags: seq<byte>, ns: seq<nat>)
    requires |tags| == |ns|
    requires forall i :: 0 <= i < |tags| ==> tag < tags[i]
    ensures StartsAbove(tag, NumberFields(tags, ns))
  {
    if tags != [] {
      NumberFieldsStartAbove(tag, tags[1..], ns[1..]);
    }
  }

  lemma {:induction false} NumberFieldsInjective(tags: seq<byte>, ms: seq<nat>, ns: seq<nat>)
    requires |tags| == |ms| == |ns| && Increasing(tags)
    requires NumberFields(tags, ms) == NumberFields(tags, ns)
    ensures ms == ns
  {
    if tags != [] {
      NumberFieldsStartAbove(tags[0], tags[1..], ms[1..]);
      NumberFieldsStartAbove(tags[0], tags[1..], ns[1..]);
      NumberFieldPeels(tags[0], ms[0], NumberFields(tags[1..], ms[1..]), ns[0], NumberFields(tags[1..], ns[1..]));
      NumberFieldsInjective(tags[1..], ms[1..], ns[1..]);
      assert ms == [ms[0]] + ms[1..] && ns == [ns[0]] + ns[1..];
    }
  }

  /** The directions and the numbers, under any tags above the directions' own. */
  lemma TailInjective(tags: seq<byte>, ds: seq<u64>, ms: seq<nat>, es: seq<u64>, ns: seq<nat>)
    requires |tags| == |ms| == |ns| && Increasing(tags)
    requires forall i :: 0 <= i < |tags| ==> 0x12 < tags[i]
    requires PayloadField(0x12, Packed(ds)) + NumberFields(tags, ms)
          == PayloadField(0x12, Packed(es)) + NumberFields(tags, ns)
    ensures ds == es && ms == ns
  {
    NumberFieldsStartAbove(0x12, tags, ms);
    NumberFieldsStartAbove(0x12, tags, ns);
    PayloadFieldPeels(0x12, Packed(ds), NumberFields(tags, ms), Packed(es), NumberFields(tags, ns));
    PackedInjective(ds, es);
    NumberFieldsInjective(tags, ms, ns);
  }

  lemma TailStartsAbove(tags: seq<byte>, ds: seq<u64>, ms: seq<nat>)
    requires |tags| == |ms|
    requires forall i :: 0 <= i < |tags| ==> 0x12 < tags[i]
    ensures StartsAbove(0x0a, PayloadField(0x12, Packed(ds)) + NumberFields(tags, ms))
  {
    NumberFieldsStartAbove(0x12, tags, ms);
    PayloadFieldHead(0x12, Packed(ds), NumberFields(tags, ms));
  }

  lemma FieldsInjective(tags: seq<byte>, x: bytes, ds: seq<u64>, ms: seq<nat>, y: bytes, es: seq<u64>, ns: seq<nat>)
    requires |tags| == |ms| == |ns| && Increasing(tags)
    requires forall i :: 0 <= i < |tags| ==> 0x12 < tags[i]
    requires FieldsUnder(tags, x, ds, ms) == FieldsUnder(tags, y, es, ns)
    ensures x == y && ds == es && ms == ns
  {
    TailStartsAbove(tags, ds, ms);
    TailStartsAbove(tags, es, ns);
    PayloadFieldPeels(0x0a, x, PayloadField(0x12, Packed(ds)) + NumberFields(tags, ms),
                      y, PayloadField(0x12, Packed(es)) + NumberFields(tags, ns));
    TailInjective(tags, ds, ms, es, ns);
  }

  /** Two offers with the same bytes are the same offer. */
  lemma EncodeInjective(o: Offer, p: Offer)
    requires Encode(o) == Encode(p)
    ensures o == p
  {
    var ms, ns := OfferNumbers(o), OfferNumbers(p);
    FieldsInjective(NUMBER_TAGS, o.assetId, o.supportedDirections, ms, p.assetId, p.supportedDirections, ns);
    assert ms[0] == ns[0] && ms[1] == ns[1] && ms[2] == ns[2] && ms[3] == ns[3] && ms[4] == ns[4];
  }

  /** The id check passes exactly when the current configuration offers what was quoted. */
  lemma OfferIdMatchesIff(c: Crypto, cfg: Config, q: QuoteRecord)
    requires Ideal(c) && q.offerId == OfferId(c, QuoteOffer(q))
    ensures OfferId(c, CurrentOffer(cfg)) == q.offerId <==>
            && q.assetId == cfg.sellAssetId
            && q.priceMsatPerAssetUnit == cfg.priceMsatPerAssetUnit
            && q.feeSubsidy == cfg.feeSubsidy
            && q.refundDeltaBlocks == cfg.refundDeltaBlocks
            && q.invoiceExpirySecs == cfg.invoiceExpirySecs
            && q.maxMinFundingConfs == MAX_MIN_FUNDING_CONFS
  {
    if OfferId(c, CurrentOffer(cfg)) == q.offerId {
      EncodeInjective(CurrentOffer(cfg), QuoteOffer(q));
    }
  }
}
