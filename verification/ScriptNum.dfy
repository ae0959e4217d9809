/**
 Script numbers: little-endian magnitude, sign in the top bit of the last byte.

 `Encode` is the minimal form the script builder emits, `Value` the number a byte
 string denotes, and `Decode` the parser's loop over i64 words.
 */
module ScriptNum {
  import opened Types

  const MAX_PARSED_LENGTH := 8

  function Pow256(n: nat): (r: nat)
    ensures r >= 1
  {
    if n == 0 then 1 else 256 * Pow256(n - 1)
  }

  /** Unsigned little-endian value. */
  function LittleEndian(b: bytes): nat {
    if b == [] then 0 else b[0] + 256 * LittleEndian(b[1..])
  }

  /** The bytes with the sign bit of the last one cleared. */
  function Magnitude(b: bytes): bytes
    requires b != []
  {
    b[..|b| - 1] + [b[|b| - 1] % 128]
  }

  predicate Negative(b: bytes)
    requires b != []
  {
    b[|b| - 1] >= 128
  }

  /** The number a byte string denotes, whatever its length. */
  function Value(b: bytes): int {
    if b == [] then 0
    else if Negative(b) then 0 - LittleEndian(Magnitude(b))
    else LittleEndian(Magnitude(b))
  }

  function EncodeMagnitude(m: nat, negative: bool): (r: bytes)
    requires m > 0
    ensures r != []
  {
    if m > 0xFF then [m % 256] + EncodeMagnitude(m / 256, negative)
    else if m >= 0x80 then [m, if negative then 0x80 else 0]
    else [m + if negative then 0x80 else 0]
  }

  function Encode(n: int): bytes {
    if n == 0 then [] else if n < 0 then EncodeMagnitude(-n, true) else EncodeMagnitude(n, false)
  }

  /** No shorter byte string denotes the same number, and zero is not written as minus zero. */
  predicate Minimal(b: bytes) {
    b == [] || b[|b| - 1] % 128 != 0 || (|b| >= 2 && b[|b| - 2] >= 128)
  }

  // ----- the minimal form and the value are inverse to each other

  lemma ValueOfCons(x: byte, b: bytes)
    requires b != []
    ensures Negative([x] + b) == Negative(b)
    ensures LittleEndian(Magnitude([x] + b)) == x + 256 * LittleEndian(Magnitude(b))
  {
    assert Magnitude([x] + b) == [x] + Magnitude(b);
  }

  lemma {:induction false} EncodeMagnitudeValue(m: nat, negative: bool)
    requires m > 0
    ensures var e := EncodeMagnitude(m, negative);
            Negative(e) == negative && LittleEndian(Magnitude(e)) == m && Minimal(e)
  {
    if m > 0xFF {
      EncodeMagnitudeValue(m / 256, negative);
      ValueOfCons(m % 256, EncodeMagnitude(m / 256, negative));
      var e := EncodeMagnitude(m / 256, negative);
      assert |e| >= 2 ==> ([m % 256] + e)[|e| - 1] == e[|e| - 2];
      if |e| == 1 {
        assert Magnitude(e) == [e[0] % 128];
        assert LittleEndian(Magnitude(e)) == e[0] % 128;
      }
    } else if m >= 0x80 {
      var e := EncodeMagnitude(m, negative);
      assert Magnitude(e) == [m, 0];
      assert LittleEndian([m, 0]) == m + 256 * LittleEndian([m, 0][1..]);
    } else {
      var e := EncodeMagnitude(m, negative);
      assert Magnitude(e) == [m];
    }
  }

  /** Decoding undoes the minimal encoding on every integer. */
  lemma {:induction false} ValueEncode(n: int)
    ensures Value(Encode(n)) == n
    ensures Minimal(Encode(n))
  {
    if n > 0 {
      EncodeMagnitudeValue(n, false);
    } else if n < 0 {
      EncodeMagnitudeValue(-n, true);
    }
  }

  lemma EncodeInjective(m: int, n: int)
    requires Encode(m) == Encode(n)
    ensures m == n
  {
    ValueEncode(m);
    ValueEncode(n);
  }

  lemma EncodeMagnitudeOfCons(x: byte, m: nat, negative: bool)
    requires m > 0
    ensures EncodeMagnitude(x + 256 * m, negative) == [x] + EncodeMagnitude(m, negative)
  {
  }

  lemma EncodeOneByte(b: bytes)
    requires |b| == 1 && Minimal(b)
    ensures LittleEndian(Magnitude(b)) > 0
    ensures EncodeMagnitude(LittleEndian(Magnitude(b)), Negative(b)) == b
  {
    assert Magnitude(b) == [b[0] % 128];
    assert LittleEndian([b[0] % 128]) == b[0] % 128;
  }

  /** The top byte only carries the sign. */
  lemma EncodeSignByte(b: bytes)
    requires |b| == 2 && b[1] % 128 == 0 && Minimal(b)
    ensures LittleEndian(Magnitude(b)) > 0
    ensures EncodeMagnitude(LittleEndian(Magnitude(b)), Negative(b)) == b
  {
    assert Magnitude(b) == [b[0], 0];
    assert LittleEndian([b[0], 0]) == b[0] + 256 * LittleEndian([b[0], 0][1..]);
  }

  lemma {:induction false} EncodeMagnitudeOfMinimal(b: bytes)
    requires b != [] && Minimal(b)
    ensures LittleEndian(Magnitude(b)) > 0
    ensures EncodeMagnitude(LittleEndian(Magnitude(b)), Negative(b)) == b
  {
    if |b| == 1 {
      EncodeOneByte(b);
    } else if |b| == 2 && b[1] % 128 == 0 {
      EncodeSignByte(b);
    } else {
      assert b == [b[0]] + b[1..];
      EncodeMagnitudeOfMinimal(b[1..]);
      ValueOfCons(b[0], b[1..]);
      EncodeMagnitudeOfCons(b[0], LittleEndian(Magnitude(b[1..])), Negative(b));
    }
  }

  /** Encoding undoes decoding exactly on the minimal byte strings. */
  lemma {:induction false} EncodeValue(b: bytes)
    ensures Encode(Value(b)) == b <==> Minimal(b)
  {
    if Minimal(b) && b != [] {
      EncodeMagnitudeOfMinimal(b);
    }
    ValueEncode(Value(b));
  }

  lemma {:induction false} EncodedLength(m: nat, negative: bool, k: nat)
    requires m > 0 && k >= 1
    ensures |EncodeMagnitude(m, negative)| <= k <==> 2 * m < Pow256(k)
  {
    assert Pow256(k) == 256 * Pow256(k - 1);
    if m > 0xFF {
      if k > 1 {
        EncodedLength(m / 256, negative, k - 1);
        assert Pow256(k - 1) == 256 * Pow256(k - 2);
      }
    } else if k > 1 {
      assert Pow256(k - 1) == 256 * Pow256(k - 2);
    }
  }

  /** An integer's minimal form fits the parser's eight bytes iff its magnitude is below 2^63. */
  lemma {:induction false} FitsParserIffBelow63Bits(n: int)
    ensures |Encode(n)| <= MAX_PARSED_LENGTH <==> -I64_MAX <= n <= I64_MAX
  {
    assert Pow256(8) == 0x1_0000_0000_0000_0000 by {
      assert Pow256(4) == 0x1_0000_0000;
      assert Pow256(8) == 0x1_0000_0000 * Pow256(4);
    }
    if n != 0 {
      EncodedLength(if n < 0 then -n else n, n < 0, 8);
    }
  }

  /** A u32 lock height takes at most five bytes, the length CLTV reads. */
  lemma {:induction false} LockHeightFitsFiveBytes(n: u32)
    ensures |Encode(n)| <= 5
  {
    assert Pow256(5) == 0x100_0000_0000;
    if n != 0 {
      EncodedLength(n, false, 5);
    }
  }

  // ----- the decode loop

  /** Bitwise or of two non-negative words. */
  function BitOr(a: nat, b: nat): (r: nat)
    ensures a == 0 ==> r == b
    ensures b == 0 ==> r == a
  {
    if a == 0 then b
    else if b == 0 then a
    else (if a % 2 == 1 || b % 2 == 1 then 1 else 0) + 2 * BitOr(a / 2, b / 2)
  }

  lemma BitOrEven(a: nat, h: nat)
    requires BitOr(a / 2, h) == a / 2 + h
    ensures BitOr(a, 2 * h) == a + 2 * h
  {
  }

  /** `x << n`. */
  function ShiftLeft(x: nat, n: nat): nat {
    if n == 0 then x else 2 * ShiftLeft(x, n - 1)
  }

  /** Words without a common bit: or is addition. */
  lemma {:induction false} BitOrDisjoint(a: nat, b: nat, k: nat)
    requires a < ShiftLeft(1, k)
    ensures BitOr(a, ShiftLeft(b, k)) == a + ShiftLeft(b, k)
  {
    if a != 0 {
      BitOrDisjoint(a / 2, b, k - 1);
      BitOrEven(a, ShiftLeft(b, k - 1));
    }
  }

  lemma {:induction false} ShiftByBytes(x: nat, n: nat)
    ensures ShiftLeft(x, 8 * n) == x * Pow256(n)
  {
    if n > 0 {
      ShiftByBytes(x, n - 1);
      var k := 8 * (n - 1);
      assert ShiftLeft(x, k + 2) == 4 * ShiftLeft(x, k);
      assert ShiftLeft(x, k + 4) == 4 * ShiftLeft(x, k + 2);
      assert ShiftLeft(x, k + 6) == 4 * ShiftLeft(x, k + 4);
      assert ShiftLeft(x, k + 8) == 4 * ShiftLeft(x, k + 6);
      assert x * Pow256(n) == 256 * (x * Pow256(n - 1));
    }
  }

  lemma {:induction false} LittleEndianSnoc(b: bytes, x: byte)
    ensures LittleEndian(b + [x]) == LittleEndian(b) + x * Pow256(|b|)
    ensures LittleEndian(b) < Pow256(|b|)
  {
    if b == [] {
      assert b + [x] == [x];
      assert LittleEndian([x]) == x;
    } else {
      LittleEndianSnoc(b[1..], x);
      assert (b + [x])[1..] == b[1..] + [x];
      assert Pow256(|b|) == 256 * Pow256(|b| - 1);
    }
  }

  /** One round of the decode loop: the shifted byte and the or-ed value are i64 words. */
  lemma {:induction false} DecodeRound(m: bytes, i: nat)
    requires i < |m| <= MAX_PARSED_LENGTH
    requires m[|m| - 1] <= 0x7F
    ensures 0 <= ShiftLeft(m[i], 8 * i) <= I64_MAX
    ensures BitOr(LittleEndian(m[..i]), ShiftLeft(m[i], 8 * i)) == LittleEndian(m[..i + 1]) <= I64_MAX
  {
    LittleEndianSnoc(m[..i], m[i]);
    assert m[..i + 1] == m[..i] + [m[i]];
    ShiftByBytes(m[i], i);
    ShiftByBytes(1, i);
    BitOrDisjoint(LittleEndian(m[..i]), m[i], 8 * i);
    ShiftedByteFits(m[i], i);
  }

  /** Every string the parser accepts denotes an i64, and never the least one. */
  lemma ParsedValueInRange(b: bytes)
    requires |b| <= MAX_PARSED_LENGTH
    ensures -I64_MAX <= Value(b) <= I64_MAX
  {
    if b != [] {
      var last := b[|b| - 1] % 128;
      LittleEndianSnoc(b[..|b| - 1], last);
      ShiftedByteFits(last, |b| - 1);
    }
  }

  lemma ShiftedByteFits(x: byte, i: nat)
    requires i <= 7 && (i == 7 ==> x <= 0x7F)
    ensures 0 <= x * Pow256(i) <= I64_MAX - (Pow256(i) - 1)
  {
    assert Pow256(3) == 0x100_0000;
    assert Pow256(6) == 0x100_0000 * Pow256(3);
    assert Pow256(7) == 256 * Pow256(6);
    assert Pow256(5) == 0x1_0000 * Pow256(3);
    assert Pow256(4) == 0x100 * Pow256(3);
    assert Pow256(2) == 0x1_0000;
  }

  /**
   The parser's decode loop. Every shifted byte and every partial value is an i64,
   and the result is the signed value; only strings longer than eight bytes fail.
   */
  method Decode(b: bytes) returns (r: Result<i64>)
    ensures |b| > MAX_PARSED_LENGTH <==> r.Err?
    ensures r.Ok? ==> r.value == Value(b) && -I64_MAX <= r.value
  {
    if b == [] {
      return Ok(0);
    }
    if |b| > MAX_PARSED_LENGTH {
      return Err;
    }
    var magnitude := b;
    var negative := magnitude[|magnitude| - 1] >= 0x80;
    magnitude := magnitude[|magnitude| - 1 := magnitude[|magnitude| - 1] % 0x80];
    assert magnitude == Magnitude(b);

    var value: i64 := 0;
    for i := 0 to |magnitude|
      invariant value == LittleEndian(magnitude[..i])
    {
      DecodeRound(magnitude, i);
      var shifted: i64 := ShiftLeft(magnitude[i], 8 * i);
      value := BitOr(value, shifted);
    }
    assert magnitude[..|magnitude|] == magnitude;
    return Ok(if negative then -value else value);
  }
}
