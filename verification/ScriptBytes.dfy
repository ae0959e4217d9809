/**
 The bytes of the HTLC witness script.
 */
module ScriptBytes {
  import opened Types
  import opened Script
  import opened HtlcScript
  import ScriptNum

  /** A height as the script pushes it: a small-number opcode, or its little-endian bytes, the sign bit clear. */
  function HeightPush(n: u32): bytes {
    if n == 0 then [0x00]
    else if n <= 16 then [0x50 + n]
    else if n <= 0x7F then [0x01, n]
    else if n <= 0x7FFF then [0x02, n % 0x100, n / 0x100]
    else if n <= 0x7F_FFFF then [0x03, n % 0x100, n / 0x100 % 0x100, n / 0x1_0000]
    else if n <= 0x7FFF_FFFF then [0x04, n % 0x100, n / 0x100 % 0x100, n / 0x1_0000 % 0x100, n / 0x100_0000]
    else [0x05, n % 0x100, n / 0x100 % 0x100, n / 0x1_0000 % 0x100, n / 0x100_0000, 0x00]
  }

  lemma EncodeStep(m: nat)
    requires m > 0xFF
    ensures ScriptNum.EncodeMagnitude(m, false) == [m % 256] + ScriptNum.EncodeMagnitude(m / 256, false)
  {
  }

  lemma EncodeLast(m: nat)
    requires 0 < m <= 0xFF
    ensures ScriptNum.EncodeMagnitude(m, false) == if m >= 0x80 then [m, 0] else [m]
  {
  }

  lemma EncodeTwo(m: nat)
    requires 0xFF < m <= 0xFFFF
    ensures ScriptNum.EncodeMagnitude(m, false) ==
            if m >= 0x8000 then [m % 0x100, m / 0x100, 0] else [m % 0x100, m / 0x100]
  {
    EncodeStep(m);
    EncodeLast(m / 256);
  }

  lemma EncodeThree(m: nat)
    requires 0xFFFF < m <= 0xFF_FFFF
    ensures ScriptNum.EncodeMagnitude(m, false) ==
            [m % 0x100, m / 0x100 % 0x100, m / 0x1_0000] + if m >= 0x80_0000 then [0] else []
  {
    EncodeStep(m);
    EncodeTwo(m / 256);
  }

  lemma EncodeFour(m: nat)
    requires 0xFF_FFFF < m <= 0xFFFF_FFFF
    ensures ScriptNum.EncodeMagnitude(m, false) ==
            [m % 0x100, m / 0x100 % 0x100, m / 0x1_0000 % 0x100, m / 0x100_0000] + if m >= 0x8000_0000 then [0] else []
  {
    EncodeStep(m);
    EncodeThree(m / 256);
  }

  lemma EmitsHeight(n: u32)
    ensures PushInt(n).Push? ==> |PushInt(n).data| < 0x4c
    ensures Emit(PushInt(n)) == HeightPush(n)
  {
    if 16 < n <= 0xFF {
      EncodeLast(n);
    } else if 0xFF < n <= 0xFFFF {
      EncodeTwo(n);
    } else if 0xFFFF < n <= 0xFF_FFFF {
      EncodeThree(n);
    } else if n > 0xFF_FFFF {
      EncodeFour(n);
    }
  }

  lemma Associate(a: bytes, b: bytes, c: bytes)
    ensures a + (b + c) == (a + b) + c
  {
  }

  lemma {:induction false} SerializeAppend(p: seq<Instruction>, q: seq<Instruction>)
    requires AllCanonical(p) && AllCanonical(q)
    ensures AllCanonical(p + q) && Serialize(p + q) == Serialize(p) + Serialize(q)
  {
    if p == [] {
      assert p + q == q;
    } else {
      SerializeAppend(p[1..], q);
      assert (p + q)[0] == p[0] && (p + q)[1..] == p[1..] + q;
      Associate(Emit(p[0]), Serialize(p[1..]), Serialize(q));
    }
  }

  lemma SerializeCons(i: Instruction, p: seq<Instruction>)
    requires Canonical(i) && AllCanonical(p)
    ensures AllCanonical([i] + p) && Serialize([i] + p) == Emit(i) + Serialize(p)
  {
    assert ([i] + p)[0] == i && ([i] + p)[1..] == p;
  }

  lemma SerializeOne(i: Instruction)
    requires Canonical(i)
    ensures AllCanonical([i]) && Serialize([i]) == Emit(i)
  {
    SerializeCons(i, []);
    assert [i] + [] == [i] && Serialize([]) == [] && Emit(i) + [] == Emit(i);
  }

  lemma KeyCheckBytes(h: Hash20)
    ensures AllCanonical(KeyCheck(h)) && Serialize(KeyCheck(h)) == [0x76, 0xa9, 0x14] + h + [0x88, 0xac]
  {
    var last := [Op(OP_CHECKSIG)];
    SerializeOne(Op(OP_CHECKSIG));
    SerializeCons(Op(OP_EQUALVERIFY), last);
    SerializeCons(Push(h), [Op(OP_EQUALVERIFY)] + last);
    SerializeCons(Op(OP_HASH160), [Push(h)] + ([Op(OP_EQUALVERIFY)] + last));
    SerializeCons(Op(OP_DUP), [Op(OP_HASH160)] + ([Push(h)] + ([Op(OP_EQUALVERIFY)] + last)));
    assert KeyCheck(h) == [Op(OP_DUP)] + ([Op(OP_HASH160)] + ([Push(h)] + ([Op(OP_EQUALVERIFY)] + last)));
    assert Emit(Push(h)) == [0x14] + h;
  }

  lemma SizeCheckBytes()
    ensures AllCanonical(SizeCheck(PushInt(32))) && Serialize(SizeCheck(PushInt(32))) == [0x63, 0x82, 0x01, 0x20, 0x88]
  {
    var size := PushInt(32);
    PushIntCanonical(32);
    EmitsHeight(32);
    SerializeOne(Op(OP_EQUALVERIFY));
    SerializeCons(size, [Op(OP_EQUALVERIFY)]);
    SerializeCons(Op(OP_SIZE), [size] + [Op(OP_EQUALVERIFY)]);
    SerializeCons(Op(OP_IF), [Op(OP_SIZE)] + ([size] + [Op(OP_EQUALVERIFY)]));
    assert SizeCheck(size) == [Op(OP_IF)] + ([Op(OP_SIZE)] + ([size] + [Op(OP_EQUALVERIFY)]));
  }

  lemma HashCheckBytes(h: Hash32)
    ensures AllCanonical(HashCheck(h)) && Serialize(HashCheck(h)) == [0xa8, 0x20] + h + [0x88]
  {
    SerializeOne(Op(OP_EQUALVERIFY));
    SerializeCons(Push(h), [Op(OP_EQUALVERIFY)]);
    SerializeCons(Op(OP_SHA256), [Push(h)] + [Op(OP_EQUALVERIFY)]);
    assert HashCheck(h) == [Op(OP_SHA256)] + ([Push(h)] + [Op(OP_EQUALVERIFY)]);
  }

  lemma LockCheckBytes(n: u32)
    ensures AllCanonical(LockCheck(PushInt(n)))
    ensures Serialize(LockCheck(PushInt(n))) == [0x67] + HeightPush(n) + [0xb1, 0x75]
  {
    var lock := PushInt(n);
    PushIntCanonical(n);
    EmitsHeight(n);
    SerializeOne(Op(OP_DROP));
    SerializeCons(Op(OP_CLTV), [Op(OP_DROP)]);
    SerializeCons(lock, [Op(OP_CLTV)] + [Op(OP_DROP)]);
    SerializeCons(Op(OP_ELSE), [lock] + ([Op(OP_CLTV)] + [Op(OP_DROP)]));
    assert LockCheck(lock) == [Op(OP_ELSE)] + ([lock] + ([Op(OP_CLTV)] + [Op(OP_DROP)]));
  }

  lemma ClaimBranchBytes(hash: Hash32, claimer: Hash20)
    ensures var branch := ClaimBranch(PushInt(32), hash, claimer);
            && AllCanonical(branch)
            && Serialize(branch) == [0x63, 0x82, 0x01, 0x20, 0x88] + ([0xa8, 0x20] + hash + [0x88])
                                    + ([0x76, 0xa9, 0x14] + claimer + [0x88, 0xac])
  {
    SizeCheckBytes();
    HashCheckBytes(hash);
    KeyCheckBytes(claimer);
    SerializeAppend(SizeCheck(PushInt(32)), HashCheck(hash));
    SerializeAppend(SizeCheck(PushInt(32)) + HashCheck(hash), KeyCheck(claimer));
  }

  lemma RefundBranchBytes(n: u32, refunder: Hash20)
    ensures var branch := RefundBranch(PushInt(n), refunder);
            && AllCanonical(branch)
            && Serialize(branch) == ([0x67] + HeightPush(n) + [0xb1, 0x75])
                                    + ([0x76, 0xa9, 0x14] + refunder + [0x88, 0xac]) + [0x68]
  {
    LockCheckBytes(n);
    KeyCheckBytes(refunder);
    SerializeOne(Op(OP_ENDIF));
    SerializeAppend(LockCheck(PushInt(n)), KeyCheck(refunder));
    SerializeAppend(LockCheck(PushInt(n)) + KeyCheck(refunder), [Op(OP_ENDIF)]);
  }

  /** The script, byte by byte, around the hashes and the height. */
  lemma WitnessScriptBytes(spec: HtlcSpec)
    ensures WitnessScript(spec) ==
            [0x63, 0x82, 0x01, 0x20, 0x88]
            + ([0xa8, 0x20] + spec.paymentHash + [0x88])
            + ([0x76, 0xa9, 0x14] + spec.claimerHash + [0x88, 0xac])
            + (([0x67] + HeightPush(spec.refundLockHeight) + [0xb1, 0x75])
               + ([0x76, 0xa9, 0x14] + spec.refunderHash + [0x88, 0xac]) + [0x68])
  {
    ClaimBranchBytes(spec.paymentHash, spec.claimerHash);
    RefundBranchBytes(spec.refundLockHeight, spec.refunderHash);
    SerializeAppend(ClaimBranch(PushInt(32), spec.paymentHash, spec.claimerHash),
                    RefundBranch(PushInt(spec.refundLockHeight), spec.refunderHash));
  }
}
