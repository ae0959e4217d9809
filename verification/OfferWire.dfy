/**
 The offer's bytes, read back by the wire format alone (Protocol Buffers Encoding,
 sections "Message Structure", "Base 128 Varints" and "Packed Repeated Fields"): each
 field is found under its number in the message definition.
 */
module OfferWire {
  import opened Types
  import opened Transaction
  import opened Offer

  datatype Field = Number(value: nat) | Payload(content: bytes)

  /** A key is the field number times eight plus the wire type: 0 for a varint, 2 for a length and so many bytes. */
  datatype Entry = Entry(number: nat, field: Field)

  function ReadVarInt(b: bytes): (r: Result<(nat, bytes)>)
    ensures r.Ok? ==> |r.value.1| < |b|
  {
    if b == [] then Err
    else if b[0] < 128 then Ok((b[0], b[1..]))
    else
      var (high, rest) :- ReadVarInt(b[1..]);
      Ok((b[0] - 128 + 128 * high, rest))
  }

  function ReadEntry(b: bytes): (r: Result<(Entry, bytes)>)
    ensures r.Ok? ==> |r.value.1| < |b|
  {
    var (key, rest) :- ReadVarInt(b);
    var (n, rest) :- ReadVarInt(rest);
    if key % 8 == 0 then Ok((Entry(key / 8, Number(n)), rest))
    else if key % 8 == 2 && n <= |rest| then Ok((Entry(key / 8, Payload(rest[..n])), rest[n..]))
    else Err
  }

  function ReadEntries(b: bytes): Result<seq<Entry>>
    decreases |b|
  {
    if b == [] then Ok([])
    else
      var (first, rest) :- ReadEntry(b);
      var more :- ReadEntries(rest);
      Ok([first] + more)
  }

  function ReadPacked(b: bytes): Result<seq<nat>>
    decreases |b|
  {
    if b == [] then Ok([])
    else
      var (n, rest) :- ReadVarInt(b);
      var more :- ReadPacked(rest);
      Ok([n] + more)
  }

  /** A field that is not there is zero. */
  function NumberUnder(es: seq<Entry>, number: nat): nat {
    if es == [] then 0
    else if es[0].number == number && es[0].field.Number? then es[0].field.value
    else NumberUnder(es[1..], number)
  }

  /** Or empty. */
  function PayloadUnder(es: seq<Entry>, number: nat): bytes {
    if es == [] then []
    else if es[0].number == number && es[0].field.Payload? then es[0].field.content
    else PayloadUnder(es[1..], number)
  }

  // ----- reading undoes writing

  lemma {:induction false} ReadVarIntOf(n: nat, x: bytes)
    ensures ReadVarInt(VarInt(n) + x) == Ok((n, x))
  {
    VarIntHead(n, x);
    if n >= 128 {
      ReadVarIntOf(n / 128, x);
    }
  }

  lemma ReadKey(tag: byte, x: bytes)
    requires tag < 128
    ensures ReadVarInt([tag] + x) == Ok((tag, x))
  {
    DropTag(tag, x);
  }

  /** The entry a number field is written as, if it is written. */
  function NumberEntry(tag: byte, n: nat): seq<Entry> {
    if n == 0 then [] else [Entry(tag / 8, Number(n))]
  }

  function PayloadEntry(tag: byte, p: bytes): seq<Entry> {
    if p == [] then [] else [Entry(tag / 8, Payload(p))]
  }

  lemma ReadNumberField(tag: byte, n: nat, x: bytes, es: seq<Entry>)
    requires tag < 128 && tag % 8 == 0 && ReadEntries(x) == Ok(es)
    ensures ReadEntries(NumberField(tag, n) + x) == Ok(NumberEntry(tag, n) + es)
  {
    if n == 0 {
      assert NumberField(tag, n) + x == x && NumberEntry(tag, n) + es == es;
    } else {
      Reassociate([tag], VarInt(n), x);
      ReadKey(tag, VarInt(n) + x);
      ReadVarIntOf(n, x);
    }
  }

  lemma ReadPayloadField(tag: byte, p: bytes, x: bytes, es: seq<Entry>)
    requires tag < 128 && tag % 8 == 2 && ReadEntries(x) == Ok(es)
    ensures ReadEntries(PayloadField(tag, p) + x) == Ok(PayloadEntry(tag, p) + es)
  {
    if p == [] {
      assert PayloadField(tag, p) + x == x && PayloadEntry(tag, p) + es == es;
    } else {
      Reassociate([tag], VarInt(|p|) + p, x);
      Reassociate(VarInt(|p|), p, x);
      ReadKey(tag, VarInt(|p|) + (p + x));
      ReadVarIntOf(|p|, p + x);
      assert (p + x)[..|p|] == p && (p + x)[|p|..] == x;
    }
  }

  function NumberEntries(tags: seq<byte>, ns: seq<nat>): seq<Entry>
    requires |tags| == |ns|
  {
    if tags == [] then [] else NumberEntry(tags[0], ns[0]) + NumberEntries(tags[1..], ns[1..])
  }

  predicate NumberTags(tags: seq<byte>) {
    forall i :: 0 <= i < |tags| ==> tags[i] < 128 && tags[i] % 8 == 0
  }

  lemma {:induction false} ReadNumberFields(tags: seq<byte>, ns: seq<nat>)
    requires |tags| == |ns| && NumberTags(tags)
    ensures ReadEntries(NumberFields(tags, ns)) == Ok(NumberEntries(tags, ns))
  {
    if tags != [] {
      ReadNumberFields(tags[1..], ns[1..]);
      ReadNumberField(tags[0], ns[0], NumberFields(tags[1..], ns[1..]), NumberEntries(tags[1..], ns[1..]));
    }
  }

  lemma {:induction false} ReadPackedOf(ns: seq<u64>)
    ensures ReadPacked(Packed(ns)) == Ok(ns)
  {
    if ns != [] {
      ReadPackedOf(ns[1..]);
      ReadVarIntOf(ns[0], Packed(ns[1..]));
      assert ns == [ns[0]] + ns[1..];
    }
  }

  /** All entries of an offer. */
  function OfferEntries(o: Offer): seq<Entry> {
    PayloadEntry(0x0a, o.assetId) +
    (PayloadEntry(0x12, Packed(o.supportedDirections)) + NumberEntries(NUMBER_TAGS, OfferNumbers(o)))
  }

  lemma ReadOffer(o: Offer)
    ensures ReadEntries(Encode(o)) == Ok(OfferEntries(o))
  {
    var ns := OfferNumbers(o);
    var es := NumberEntries(NUMBER_TAGS, ns);
    ReadNumberFields(NUMBER_TAGS, ns);
    ReadPayloadField(0x12, Packed(o.supportedDirections), NumberFields(NUMBER_TAGS, ns), es);
    ReadPayloadField(0x0a, o.assetId, PayloadField(0x12, Packed(o.supportedDirections)) + NumberFields(NUMBER_TAGS, ns),
                     PayloadEntry(0x12, Packed(o.supportedDirections)) + es);
  }

  // ----- what is found under each number

  predicate OnlyAt(tags: seq<byte>, i: nat, number: nat)
    requires i < |tags|
  {
    tags[i] / 8 == number && forall j :: 0 <= j < |tags| && j != i ==> tags[j] / 8 != number
  }

  lemma {:induction false} NotUnder(tags: seq<byte>, ns: seq<nat>, number: nat)
    requires |tags| == |ns| && forall i :: 0 <= i < |tags| ==> tags[i] / 8 != number
    ensures NumberUnder(NumberEntries(tags, ns), number) == 0
  {
    if tags != [] {
      NotUnder(tags[1..], ns[1..], number);
      assert NumberEntry(tags[0], ns[0]) == [] ==> NumberEntries(tags, ns) == NumberEntries(tags[1..], ns[1..]);
      assert NumberEntry(tags[0], ns[0]) != [] ==> NumberEntries(tags, ns)[1..] == NumberEntries(tags[1..], ns[1..]);
    }
  }

  lemma {:induction false} NumberAt(tags: seq<byte>, ns: seq<nat>, i: nat, number: nat)
    requires |tags| == |ns| && i < |tags| && OnlyAt(tags, i, number)
    ensures NumberUnder(NumberEntries(tags, ns), number) == ns[i]
  {
    var rest := NumberEntries(tags[1..], ns[1..]);
    if i == 0 {
      NotUnder(tags[1..], ns[1..], number);
    } else {
      assert tags[0] / 8 != number;
      NumberAt(tags[1..], ns[1..], i - 1, number);
    }
    assert NumberEntry(tags[0], ns[0]) == [] ==> NumberEntries(tags, ns) == rest;
    assert NumberEntry(tags[0], ns[0]) != [] ==> NumberEntries(tags, ns)[1..] == rest;
  }

  lemma PastPayload(tag: byte, p: bytes, rest: seq<Entry>, number: nat)
    ensures NumberUnder(PayloadEntry(tag, p) + rest, number) == NumberUnder(rest, number)
    ensures tag / 8 != number ==> PayloadUnder(PayloadEntry(tag, p) + rest, number) == PayloadUnder(rest, number)
  {
    assert p == [] ==> PayloadEntry(tag, p) + rest == rest;
    assert p != [] ==> (PayloadEntry(tag, p) + rest)[1..] == rest;
  }

  lemma {:induction false} NoPayload(tags: seq<byte>, ns: seq<nat>, number: nat)
    requires |tags| == |ns|
    ensures PayloadUnder(NumberEntries(tags, ns), number) == []
  {
    if tags != [] {
      NoPayload(tags[1..], ns[1..], number);
      assert NumberEntry(tags[0], ns[0]) == [] ==> NumberEntries(tags, ns) == NumberEntries(tags[1..], ns[1..]);
      assert NumberEntry(tags[0], ns[0]) != [] ==> NumberEntries(tags, ns)[1..] == NumberEntries(tags[1..], ns[1..]);
    }
  }

  lemma PayloadFirst(tag: byte, p: bytes, rest: seq<Entry>)
    requires PayloadUnder(rest, tag / 8) == []
    ensures PayloadUnder(PayloadEntry(tag, p) + rest, tag / 8) == p
  {
    assert p == [] ==> PayloadEntry(tag, p) + rest == rest;
  }

  lemma OfferNumberAt(o: Offer, i: nat, number: nat)
    requires i < 5 && OnlyAt([0x18, 0x20, 0x28, 0x30, 0x38], i, number)
    ensures NumberUnder(OfferEntries(o), number) == OfferNumbers(o)[i]
  {
    var es := NumberEntries(NUMBER_TAGS, OfferNumbers(o));
    NumberAt(NUMBER_TAGS, OfferNumbers(o), i, number);
    PastPayload(0x12, Packed(o.supportedDirections), es, number);
    PastPayload(0x0a, o.assetId, PayloadEntry(0x12, Packed(o.supportedDirections)) + es, number);
  }

  lemma PayloadsOf(o: Offer)
    ensures PayloadUnder(OfferEntries(o), 1) == o.assetId
    ensures PayloadUnder(OfferEntries(o), 2) == Packed(o.supportedDirections)
  {
    var es := NumberEntries(NUMBER_TAGS, OfferNumbers(o));
    var packed := Packed(o.supportedDirections);
    NoPayload(NUMBER_TAGS, OfferNumbers(o), 1);
    NoPayload(NUMBER_TAGS, OfferNumbers(o), 2);
    PayloadFirst(0x12, packed, es);
    PastPayload(0x12, packed, es, 1);
    PayloadFirst(0x0a, o.assetId, PayloadEntry(0x12, packed) + es);
    PastPayload(0x0a, o.assetId, PayloadEntry(0x12, packed) + es, 2);
  }

  /** Each field of the offer under its own number, as the message definition has it. */
  predicate Holds(es: seq<Entry>, o: Offer) {
    && PayloadUnder(es, 1) == o.assetId
    && ReadPacked(PayloadUnder(es, 2)) == Ok(o.supportedDirections)
    && NumbersHeld(es, o.priceMsatPerAssetUnit, o.feeSubsidy, o.refundDeltaBlocks, o.invoiceExpirySecs,
                   o.maxMinFundingConfs)
  }

  predicate NumbersHeld(es: seq<Entry>, price: nat, subsidy: nat, delta: nat, expiry: nat, maxConfs: nat) {
    && NumberUnder(es, 3) == price && NumberUnder(es, 4) == subsidy && NumberUnder(es, 5) == delta
    && NumberUnder(es, 6) == expiry && NumberUnder(es, 7) == maxConfs
  }

  lemma PriceAndSubsidy(o: Offer, es: seq<Entry>)
    requires es == OfferEntries(o)
    ensures NumberUnder(es, 3) == o.priceMsatPerAssetUnit && NumberUnder(es, 4) == o.feeSubsidy
  {
    OfferNumberAt(o, 0, 3);
    OfferNumberAt(o, 1, 4);
  }

  lemma DeltaExpiryAndConfs(o: Offer, es: seq<Entry>)
    requires es == OfferEntries(o)
    ensures NumberUnder(es, 5) == o.refundDeltaBlocks && NumberUnder(es, 6) == o.invoiceExpirySecs
    ensures NumberUnder(es, 7) == o.maxMinFundingConfs
  {
    OfferNumberAt(o, 2, 5);
    OfferNumberAt(o, 3, 6);
    OfferNumberAt(o, 4, 7);
  }

  lemma EntriesHold(o: Offer, es: seq<Entry>)
    requires es == OfferEntries(o)
    ensures Holds(es, o)
  {
    PayloadsOf(o);
    ReadPackedOf(o.supportedDirections);
    PriceAndSubsidy(o, es);
    DeltaExpiryAndConfs(o, es);
  }

  /** Whoever reads the bytes by the message definition gets the offer. */
  lemma OfferReadsBack(o: Offer)
    ensures ReadEntries(Encode(o)).Ok? && Holds(ReadEntries(Encode(o)).value, o)
  {
    ReadOffer(o);
    EntriesHold(o, OfferEntries(o));
  }

  /** The offer in force is the configuration's, in both directions, for up to six confirmations. */
  lemma CurrentOfferReads(cfg: Config)
    ensures ReadEntries(Encode(CurrentOffer(cfg))).Ok?
    ensures var es := ReadEntries(Encode(CurrentOffer(cfg))).value;
            && PayloadUnder(es, 1) == cfg.sellAssetId && ReadPacked(PayloadUnder(es, 2)) == Ok([1, 2])
            && NumbersHeld(es, cfg.priceMsatPerAssetUnit, cfg.feeSubsidy, cfg.refundDeltaBlocks,
                           cfg.invoiceExpirySecs, 6)
  {
    OfferReadsBack(CurrentOffer(cfg));
  }

  /** The offer id is the SHA-256 of bytes that hold the offer. */
  lemma OfferIdCovers(c: Crypto, o: Offer)
    ensures exists b :: OfferId(c, o) == c.sha256(b) && ReadEntries(b).Ok? && Holds(ReadEntries(b).value, o)
  {
    OfferReadsBack(o);
  }
}
