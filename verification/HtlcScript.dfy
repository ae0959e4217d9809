/**
 The HTLC witness script: printed by `WitnessScript`, read back by `ParseWitnessScript`.
 */
module HtlcScript {
  import opened Types
  import opened Script
  import ScriptNum

  datatype HtlcSpec = HtlcSpec(
    paymentHash: Hash32,
    claimerHash: Hash20,
    refunderHash: Hash20,
    refundLockHeight: u32)

  function KeyCheck(keyHash: Hash20): seq<Instruction> {
    [Op(OP_DUP), Op(OP_HASH160), Push(keyHash), Op(OP_EQUALVERIFY), Op(OP_CHECKSIG)]
  }

  /** OP_IF and the preimage length test, with `size` pushing the length. */
  function SizeCheck(size: Instruction): seq<Instruction> {
    [Op(OP_IF), Op(OP_SIZE), size, Op(OP_EQUALVERIFY)]
  }

  function HashCheck(paymentHash: Hash32): seq<Instruction> {
    [Op(OP_SHA256), Push(paymentHash), Op(OP_EQUALVERIFY)]
  }

  function ClaimBranch(size: Instruction, paymentHash: Hash32, claimerHash: Hash20): seq<Instruction> {
    SizeCheck(size) + HashCheck(paymentHash) + KeyCheck(claimerHash)
  }

  /** OP_ELSE and the lock time test, with `lock` pushing the refund height. */
  function LockCheck(lock: Instruction): seq<Instruction> {
    [Op(OP_ELSE), lock, Op(OP_CLTV), Op(OP_DROP)]
  }

  function RefundBranch(lock: Instruction, refunderHash: Hash20): seq<Instruction> {
    LockCheck(lock) + KeyCheck(refunderHash) + [Op(OP_ENDIF)]
  }

  /** The HTLC program with its two numbers pushed by the given instructions. */
  function Template(spec: HtlcSpec, size: Instruction, lock: Instruction): seq<Instruction> {
    ClaimBranch(size, spec.paymentHash, spec.claimerHash) + RefundBranch(lock, spec.refunderHash)
  }

  function Program(spec: HtlcSpec): seq<Instruction> {
    Template(spec, PushInt(32), PushInt(spec.refundLockHeight))
  }

  lemma ProgramCanonical(spec: HtlcSpec)
    ensures AllCanonical(Program(spec))
  {
    PushIntCanonical(32);
    PushIntCanonical(spec.refundLockHeight);
  }

  function WitnessScript(spec: HtlcSpec): bytes {
    ProgramCanonical(spec);
    Serialize(Program(spec))
  }

  // ----- the parser, as a function of the bytes still to be read

  /** `parse_script_num`: the number an instruction stands for. */
  function NumberOf(i: Instruction): Result<i64> {
    match i
    case Push(data) =>
      if |data| > ScriptNum.MAX_PARSED_LENGTH then Err
      else
        ScriptNum.ParsedValueInRange(data);
        Ok(ScriptNum.Value(data))
    case Op(code) =>
      if code == OP_PUSHNUM_NEG1 then Ok(-1)
      else if OP_PUSHNUM_1 <= code <= OP_PUSHNUM_16 then Ok(code - OP_PUSHNUM_1 + 1)
      else Err
  }

  function TakeInstruction(d: bytes): Result<(Instruction, bytes)> {
    match Next(d, true)
    case Item(i, rest) => Ok((i, rest))
    case _ => Err
  }

  function TakeOp(d: bytes, code: byte): Result<bytes> {
    var (i, rest) :- TakeInstruction(d);
    if i == Op(code) then Ok(rest) else Err
  }

  function TakeOps(d: bytes, codes: seq<byte>): Result<bytes> {
    if codes == [] then Ok(d)
    else
      var rest :- TakeOp(d, codes[0]);
      TakeOps(rest, codes[1..])
  }

  function TakeNumber(d: bytes): Result<(i64, bytes)> {
    var (i, rest) :- TakeInstruction(d);
    var n :- NumberOf(i);
    Ok((n, rest))
  }

  function TakePushOf(d: bytes, length: nat): (r: Result<(bytes, bytes)>)
    ensures r.Ok? ==> |r.value.0| == length
  {
    var (i, rest) :- TakeInstruction(d);
    if i.Push? && |i.data| == length then Ok((i.data, rest)) else Err
  }

  function TakeKeyCheck(d: bytes): (r: Result<(Hash20, bytes)>) {
    var d :- TakeOps(d, [OP_DUP, OP_HASH160]);
    var (keyHash, d) :- TakePushOf(d, 20);
    var d :- TakeOps(d, [OP_EQUALVERIFY, OP_CHECKSIG]);
    Ok((keyHash, d))
  }

  function TakeSizeCheck(d: bytes): Result<bytes> {
    var d :- TakeOps(d, [OP_IF, OP_SIZE]);
    var (size, d) :- TakeNumber(d);
    if size != 32 then Err else TakeOp(d, OP_EQUALVERIFY)
  }

  function TakeHashCheck(d: bytes): Result<(Hash32, bytes)> {
    var d :- TakeOp(d, OP_SHA256);
    var (paymentHash, d) :- TakePushOf(d, 32);
    var d :- TakeOp(d, OP_EQUALVERIFY);
    Ok((paymentHash, d))
  }

  function TakeClaimBranch(d: bytes): Result<(Hash32, Hash20, bytes)> {
    var d :- TakeSizeCheck(d);
    var (paymentHash, d) :- TakeHashCheck(d);
    var (claimerHash, d) :- TakeKeyCheck(d);
    Ok((paymentHash, claimerHash, d))
  }

  function TakeLockCheck(d: bytes): Result<(u32, bytes)> {
    var d :- TakeOp(d, OP_ELSE);
    var (lock, d) :- TakeNumber(d);
    if !(0 <= lock <= U32_MAX) then Err else
    var d :- TakeOps(d, [OP_CLTV, OP_DROP]);
    Ok((lock, d))
  }

  function TakeRefundBranch(d: bytes): Result<(u32, Hash20, bytes)> {
    var (lock, d) :- TakeLockCheck(d);
    var (refunderHash, d) :- TakeKeyCheck(d);
    var d :- TakeOp(d, OP_ENDIF);
    Ok((lock, refunderHash, d))
  }

  function Parse(script: bytes): Result<HtlcSpec> {
    var (paymentHash, claimerHash, d) :- TakeClaimBranch(script);
    var (lock, refunderHash, d) :- TakeRefundBranch(d);
    if Next(d, true) == End then Ok(HtlcSpec(paymentHash, claimerHash, refunderHash, lock)) else Err
  }

  // ----- the parser, as the code runs it

  method ExpectOp(iter: InstructionIter, code: byte) returns (ok: bool)
    modifies iter
    ensures ok == TakeOp(old(iter.data), code).Ok?
    ensures ok ==> iter.data == TakeOp(old(iter.data), code).value
  {
    var item := iter.NextItem();
    ok := item.Item? && item.ins == Op(code);
  }

  method ExpectOps(iter: InstructionIter, codes: seq<byte>) returns (ok: bool)
    modifies iter
    ensures ok == TakeOps(old(iter.data), codes).Ok?
    ensures ok ==> iter.data == TakeOps(old(iter.data), codes).value
  {
    ok := true;
    for k := 0 to |codes|
      invariant ok && TakeOps(old(iter.data), codes) == TakeOps(iter.data, codes[k..])
    {
      ok := ExpectOp(iter, codes[k]);
      if !ok { return; }
    }
  }

  method ParseScriptNum(iter: InstructionIter) returns (r: Result<i64>)
    modifies iter
    ensures r.Ok? == TakeNumber(old(iter.data)).Ok?
    ensures r.Ok? ==> TakeNumber(old(iter.data)).value == (r.value, iter.data)
  {
    var item := iter.NextItem();
    if !item.Item? { return Err; }
    match item.ins
    case Push(data) => r := ScriptNum.Decode(data);
    case Op(code) => r := NumberOf(item.ins);
  }

  method ExpectPush(iter: InstructionIter, length: nat) returns (r: Result<bytes>)
    modifies iter
    ensures r.Ok? == TakePushOf(old(iter.data), length).Ok?
    ensures r.Ok? ==> TakePushOf(old(iter.data), length).value == (r.value, iter.data)
  {
    var item := iter.NextItem();
    if item.Item? && item.ins.Push? && |item.ins.data| == length {
      return Ok(item.ins.data);
    }
    return Err;
  }

  method ExpectKeyCheck(iter: InstructionIter) returns (r: Result<Hash20>)
    modifies iter
    ensures r.Ok? == TakeKeyCheck(old(iter.data)).Ok?
    ensures r.Ok? ==> TakeKeyCheck(old(iter.data)).value == (r.value, iter.data)
  {
    var ok := ExpectOps(iter, [OP_DUP, OP_HASH160]);
    if !ok { return Err; }
    var keyHash := ExpectPush(iter, 20);
    if keyHash.Err? { return Err; }
    ok := ExpectOps(iter, [OP_EQUALVERIFY, OP_CHECKSIG]);
    if !ok { return Err; }
    return Ok(keyHash.value);
  }

  method ExpectSizeCheck(iter: InstructionIter) returns (ok: bool)
    modifies iter
    ensures ok == TakeSizeCheck(old(iter.data)).Ok?
    ensures ok ==> iter.data == TakeSizeCheck(old(iter.data)).value
  {
    ok := ExpectOps(iter, [OP_IF, OP_SIZE]);
    if !ok { return false; }
    var size := ParseScriptNum(iter);
    if size.Err? || size.value != 32 { return false; }
    ok := ExpectOp(iter, OP_EQUALVERIFY);
  }

  method ExpectHashCheck(iter: InstructionIter) returns (r: Result<Hash32>)
    modifies iter
    ensures r.Ok? == TakeHashCheck(old(iter.data)).Ok?
    ensures r.Ok? ==> TakeHashCheck(old(iter.data)).value == (r.value, iter.data)
  {
    var ok := ExpectOp(iter, OP_SHA256);
    if !ok { return Err; }
    var paymentHash := ExpectPush(iter, 32);
    if paymentHash.Err? { return Err; }
    ok := ExpectOp(iter, OP_EQUALVERIFY);
    if !ok { return Err; }
    return Ok(paymentHash.value);
  }

  method ExpectLockCheck(iter: InstructionIter) returns (r: Result<u32>)
    modifies iter
    ensures r.Ok? == TakeLockCheck(old(iter.data)).Ok?
    ensures r.Ok? ==> TakeLockCheck(old(iter.data)).value == (r.value, iter.data)
  {
    var ok := ExpectOp(iter, OP_ELSE);
    if !ok { return Err; }
    var lock := ParseScriptNum(iter);
    if lock.Err? || !(0 <= lock.value <= U32_MAX) { return Err; }
    ok := ExpectOps(iter, [OP_CLTV, OP_DROP]);
    if !ok { return Err; }
    return Ok(lock.value);
  }

  /** `HtlcSpec::parse_witness_script`, advancing one iterator over the script. */
  method ParseWitnessScript(script: bytes) returns (r: Result<HtlcSpec>)
    ensures r == Parse(script)
  {
    var iter := new InstructionIter(script);
    var ok := ExpectSizeCheck(iter);
    if !ok { return Err; }
    var paymentHash := ExpectHashCheck(iter);
    if paymentHash.Err? { return Err; }
    var claimerHash := ExpectKeyCheck(iter);
    if claimerHash.Err? { return Err; }
    var lock := ExpectLockCheck(iter);
    if lock.Err? { return Err; }
    var refunderHash := ExpectKeyCheck(iter);
    if refunderHash.Err? { return Err; }
    ok := ExpectOp(iter, OP_ENDIF);
    if !ok { return Err; }
    var trailing := iter.NextItem();
    if trailing != End { return Err; }
    return Ok(HtlcSpec(paymentHash.value, claimerHash.value, refunderHash.value, lock.value));
  }

  // ----- printing, then parsing

  /** A canonical instruction the parser reads as the number `n`. */
  predicate IsNumber(i: Instruction, n: int) {
    Canonical(i) && NumberOf(i) == Ok(n)
  }

  lemma PushIntIsNumber(n: u32)
    ensures IsNumber(PushInt(n), n)
  {
    PushIntCanonical(n);
    ScriptNum.ValueEncode(n);
  }

  lemma {:induction false} TakeOpsOfSerialize(p: seq<Instruction>, codes: seq<byte>)
    requires AllCanonical(p) && |codes| <= |p|
    requires forall k :: 0 <= k < |codes| ==> p[k] == Op(codes[k])
    ensures AllCanonical(p[|codes|..])
    ensures TakeOps(Serialize(p), codes) == Ok(Serialize(p[|codes|..]))
  {
    if codes == [] {
      assert p[|codes|..] == p;
    } else {
      NextOfEmit(p[0], Serialize(p[1..]), true);
      TakeOpsOfSerialize(p[1..], codes[1..]);
      assert p[1..][|codes| - 1..] == p[|codes|..];
    }
  }

  lemma TakeOneOfSerialize(p: seq<Instruction>)
    requires AllCanonical(p) && p != []
    ensures AllCanonical(p[1..])
    ensures TakeInstruction(Serialize(p)) == Ok((p[0], Serialize(p[1..])))
  {
    NextOfEmit(p[0], Serialize(p[1..]), true);
  }

  lemma TakeKeyCheckOfSerialize(p: seq<Instruction>, keyHash: Hash20)
    requires AllCanonical(p) && |p| >= 5 && p[..5] == KeyCheck(keyHash)
    ensures AllCanonical(p[5..])
    ensures TakeKeyCheck(Serialize(p)) == Ok((keyHash, Serialize(p[5..])))
  {
    assert forall k :: 0 <= k < 5 ==> p[k] == p[..5][k];
    TakeOpsOfSerialize(p, [OP_DUP, OP_HASH160]);
    TakeOneOfSerialize(p[2..]);
    assert p[2..][1..] == p[3..];
    TakeOpsOfSerialize(p[3..], [OP_EQUALVERIFY, OP_CHECKSIG]);
    assert p[3..][2..] == p[5..];
  }

  lemma TakeSizeCheckOfSerialize(p: seq<Instruction>, size: Instruction)
    requires AllCanonical(p) && IsNumber(size, 32)
    requires |p| >= 4 && p[..4] == SizeCheck(size)
    ensures AllCanonical(p[4..])
    ensures TakeSizeCheck(Serialize(p)) == Ok(Serialize(p[4..]))
  {
    assert forall k :: 0 <= k < 4 ==> p[k] == p[..4][k];
    TakeOpsOfSerialize(p, [OP_IF, OP_SIZE]);
    TakeOneOfSerialize(p[2..]);
    TakeOneOfSerialize(p[3..]);
    assert p[2..][1..] == p[3..];
    assert p[3..][1..] == p[4..];
  }

  lemma TakeHashCheckOfSerialize(p: seq<Instruction>, paymentHash: Hash32)
    requires AllCanonical(p)
    requires |p| >= 3 && p[..3] == HashCheck(paymentHash)
    ensures AllCanonical(p[3..])
    ensures TakeHashCheck(Serialize(p)) == Ok((paymentHash, Serialize(p[3..])))
  {
    assert forall k :: 0 <= k < 3 ==> p[k] == p[..3][k];
    TakeOneOfSerialize(p);
    TakeOneOfSerialize(p[1..]);
    TakeOneOfSerialize(p[2..]);
    assert p[1..][1..] == p[2..];
    assert p[2..][1..] == p[3..];
  }

  lemma TakeLockCheckOfSerialize(p: seq<Instruction>, lock: Instruction, height: u32)
    requires AllCanonical(p) && IsNumber(lock, height)
    requires |p| >= 4 && p[..4] == LockCheck(lock)
    ensures AllCanonical(p[4..])
    ensures TakeLockCheck(Serialize(p)) == Ok((height, Serialize(p[4..])))
  {
    assert forall k :: 0 <= k < 4 ==> p[k] == p[..4][k];
    TakeOneOfSerialize(p);
    TakeOneOfSerialize(p[1..]);
    assert p[1..][1..] == p[2..];
    TakeOpsOfSerialize(p[2..], [OP_CLTV, OP_DROP]);
    assert p[2..][2..] == p[4..];
  }

  lemma TakeRefundBranchOfSerialize(p: seq<Instruction>, lock: Instruction, height: u32, refunderHash: Hash20)
    requires AllCanonical(p) && IsNumber(lock, height)
    requires p == RefundBranch(lock, refunderHash)
    ensures TakeRefundBranch(Serialize(p)) == Ok((height, refunderHash, []))
  {
    TakeLockCheckOfSerialize(p, lock, height);
    TakeKeyCheckOfSerialize(p[4..], refunderHash);
    assert p[4..][5..] == [Op(OP_ENDIF)];
    TakeOneOfSerialize([Op(OP_ENDIF)]);
  }

  lemma TemplateCanonical(spec: HtlcSpec, size: Instruction, lock: Instruction)
    requires Canonical(size) && Canonical(lock)
    ensures AllCanonical(Template(spec, size, lock))
  {
  }

  /** Whichever numbers it pushes, a serialized template parses to its specification. */
  lemma ParseTemplate(spec: HtlcSpec, size: Instruction, lock: Instruction)
    requires IsNumber(size, 32) && IsNumber(lock, spec.refundLockHeight)
    ensures AllCanonical(Template(spec, size, lock))
    ensures Parse(Serialize(Template(spec, size, lock))) == Ok(spec)
  {
    TemplateCanonical(spec, size, lock);
    var p := Template(spec, size, lock);
    TakeSizeCheckOfSerialize(p, size);
    TakeHashCheckOfSerialize(p[4..], spec.paymentHash);
    assert p[4..][3..] == p[7..];
    TakeKeyCheckOfSerialize(p[7..], spec.claimerHash);
    assert p[7..][5..] == p[12..] == RefundBranch(lock, spec.refunderHash);
    TakeRefundBranchOfSerialize(p[12..], lock, spec.refundLockHeight, spec.refunderHash);
  }

  /** The parser undoes the printer, for every hash and every u32 lock height. */
  lemma ParseUndoesPrint(spec: HtlcSpec)
    ensures Parse(WitnessScript(spec)) == Ok(spec)
  {
    PushIntIsNumber(32);
    PushIntIsNumber(spec.refundLockHeight);
    ParseTemplate(spec, PushInt(32), PushInt(spec.refundLockHeight));
  }

  lemma WitnessScriptInjective(a: HtlcSpec, b: HtlcSpec)
    requires WitnessScript(a) == WitnessScript(b)
    ensures a == b
  {
    ParseUndoesPrint(a);
    ParseUndoesPrint(b);
  }

  // ----- parsing, then printing

  function Ops(codes: seq<byte>): (p: seq<Instruction>)
    ensures |p| == |codes|
    ensures forall k :: 0 <= k < |codes| ==> p[k] == Op(codes[k])
  {
    if codes == [] then [] else [Op(codes[0])] + Ops(codes[1..])
  }

  /** `d` is the serialized program `p` followed by `rest`. */
  predicate Splits(d: bytes, p: seq<Instruction>, rest: bytes) {
    AllCanonical(p) && d == Serialize(p) + rest
  }

  lemma {:induction false} SplitsAppend(d: bytes, p: seq<Instruction>, mid: bytes, q: seq<Instruction>, rest: bytes)
    requires Splits(d, p, mid) && Splits(mid, q, rest)
    ensures Splits(d, p + q, rest)
    decreases |p|
  {
    if p == [] {
      assert p + q == q;
    } else {
      var d' := Serialize(p[1..]) + mid;
      SplitsAppend(d', p[1..], mid, q, rest);
      assert (p + q)[1..] == p[1..] + q;
      assert d == Emit(p[0]) + d';
    }
  }

  lemma SplitsOne(d: bytes, i: Instruction, rest: bytes)
    requires TakeInstruction(d) == Ok((i, rest))
    requires i.Push? ==> |i.data| < 0x4c
    ensures Splits(d, [i], rest)
  {
    EmitOfNext(d, i, rest);
    assert Serialize([i]) == Emit(i) + Serialize([i][1..]);
  }

  lemma {:induction false} SplitsOps(d: bytes, codes: seq<byte>, rest: bytes)
    requires TakeOps(d, codes) == Ok(rest)
    ensures Splits(d, Ops(codes), rest)
  {
    if codes != [] {
      var mid := TakeOp(d, codes[0]).value;
      SplitsOne(d, Op(codes[0]), mid);
      SplitsOps(mid, codes[1..], rest);
      SplitsAppend(d, [Op(codes[0])], mid, Ops(codes[1..]), rest);
    }
  }

  lemma SplitsNumber(d: bytes, n: i64, rest: bytes) returns (i: Instruction)
    requires TakeNumber(d) == Ok((n, rest))
    ensures IsNumber(i, n) && Splits(d, [i], rest)
  {
    i := TakeInstruction(d).value.0;
    SplitsOne(d, i, rest);
    assert Canonical([i][0]);
  }

  lemma SplitsKeyCheck(d: bytes, keyHash: Hash20, rest: bytes)
    requires TakeKeyCheck(d) == Ok((keyHash, rest))
    ensures Splits(d, KeyCheck(keyHash), rest)
  {
    var d1 := TakeOps(d, [OP_DUP, OP_HASH160]).value;
    var d2 := TakePushOf(d1, 20).value.1;
    SplitsOps(d, [OP_DUP, OP_HASH160], d1);
    SplitsOne(d1, Push(keyHash), d2);
    SplitsOps(d2, [OP_EQUALVERIFY, OP_CHECKSIG], rest);
    SplitsAppend(d, Ops([OP_DUP, OP_HASH160]), d1, [Push(keyHash)], d2);
    SplitsAppend(d, Ops([OP_DUP, OP_HASH160]) + [Push(keyHash)], d2, Ops([OP_EQUALVERIFY, OP_CHECKSIG]), rest);
    assert KeyCheck(keyHash) == Ops([OP_DUP, OP_HASH160]) + [Push(keyHash)] + Ops([OP_EQUALVERIFY, OP_CHECKSIG]);
  }

  lemma SplitsSizeCheck(d: bytes, rest: bytes) returns (size: Instruction)
    requires TakeSizeCheck(d) == Ok(rest)
    ensures IsNumber(size, 32) && Splits(d, SizeCheck(size), rest)
  {
    var d1 := TakeOps(d, [OP_IF, OP_SIZE]).value;
    var d2 := TakeNumber(d1).value.1;
    SplitsOps(d, [OP_IF, OP_SIZE], d1);
    size := SplitsNumber(d1, 32, d2);
    SplitsAppend(d, Ops([OP_IF, OP_SIZE]), d1, [size], d2);
    SplitsOne(d2, Op(OP_EQUALVERIFY), rest);
    SplitsAppend(d, Ops([OP_IF, OP_SIZE]) + [size], d2, [Op(OP_EQUALVERIFY)], rest);
    assert Ops([OP_IF, OP_SIZE]) + [size] + [Op(OP_EQUALVERIFY)] == SizeCheck(size);
  }

  lemma SplitsHashCheck(d: bytes, paymentHash: Hash32, rest: bytes)
    requires TakeHashCheck(d) == Ok((paymentHash, rest))
    ensures Splits(d, HashCheck(paymentHash), rest)
  {
    var d1 := TakeOp(d, OP_SHA256).value;
    var d2 := TakePushOf(d1, 32).value.1;
    SplitsOne(d, Op(OP_SHA256), d1);
    SplitsOne(d1, Push(paymentHash), d2);
    SplitsOne(d2, Op(OP_EQUALVERIFY), rest);
    SplitsAppend(d1, [Push(paymentHash)], d2, [Op(OP_EQUALVERIFY)], rest);
    SplitsAppend(d, [Op(OP_SHA256)], d1, [Push(paymentHash)] + [Op(OP_EQUALVERIFY)], rest);
    assert [Op(OP_SHA256)] + ([Push(paymentHash)] + [Op(OP_EQUALVERIFY)]) == HashCheck(paymentHash);
  }

  lemma SplitsLockCheck(d: bytes, height: u32, rest: bytes) returns (lock: Instruction)
    requires TakeLockCheck(d) == Ok((height, rest))
    ensures IsNumber(lock, height) && Splits(d, LockCheck(lock), rest)
  {
    var d1 := TakeOp(d, OP_ELSE).value;
    var d2 := TakeNumber(d1).value.1;
    SplitsOne(d, Op(OP_ELSE), d1);
    lock := SplitsNumber(d1, height, d2);
    SplitsAppend(d, [Op(OP_ELSE)], d1, [lock], d2);
    SplitsOps(d2, [OP_CLTV, OP_DROP], rest);
    SplitsAppend(d, [Op(OP_ELSE)] + [lock], d2, Ops([OP_CLTV, OP_DROP]), rest);
    assert [Op(OP_ELSE)] + [lock] + Ops([OP_CLTV, OP_DROP]) == LockCheck(lock);
  }

  lemma SplitsClaimBranch(d: bytes, paymentHash: Hash32, claimerHash: Hash20, rest: bytes) returns (size: Instruction)
    requires TakeClaimBranch(d) == Ok((paymentHash, claimerHash, rest))
    ensures IsNumber(size, 32) && Splits(d, ClaimBranch(size, paymentHash, claimerHash), rest)
  {
    var d1 := TakeSizeCheck(d).value;
    var d2 := TakeHashCheck(d1).value.1;
    size := SplitsSizeCheck(d, d1);
    SplitsHashCheck(d1, paymentHash, d2);
    SplitsAppend(d, SizeCheck(size), d1, HashCheck(paymentHash), d2);
    SplitsKeyCheck(d2, claimerHash, rest);
    SplitsAppend(d, SizeCheck(size) + HashCheck(paymentHash), d2, KeyCheck(claimerHash), rest);
  }

  lemma SplitsRefundBranch(d: bytes, height: u32, refunderHash: Hash20, rest: bytes) returns (lock: Instruction)
    requires TakeRefundBranch(d) == Ok((height, refunderHash, rest))
    ensures IsNumber(lock, height) && Splits(d, RefundBranch(lock, refunderHash), rest)
  {
    var d1 := TakeLockCheck(d).value.1;
    var d2 := TakeKeyCheck(d1).value.1;
    lock := SplitsLockCheck(d, height, d1);
    SplitsKeyCheck(d1, refunderHash, d2);
    SplitsAppend(d, LockCheck(lock), d1, KeyCheck(refunderHash), d2);
    SplitsOne(d2, Op(OP_ENDIF), rest);
    SplitsAppend(d, LockCheck(lock) + KeyCheck(refunderHash), d2, [Op(OP_ENDIF)], rest);
  }

  lemma ParsedIsTemplate(script: bytes, spec: HtlcSpec) returns (size: Instruction, lock: Instruction)
    requires Parse(script) == Ok(spec)
    ensures IsNumber(size, 32) && IsNumber(lock, spec.refundLockHeight)
    ensures Splits(script, Template(spec, size, lock), [])
  {
    var d1 := TakeClaimBranch(script).value.2;
    var d2 := TakeRefundBranch(d1).value.2;
    size := SplitsClaimBranch(script, spec.paymentHash, spec.claimerHash, d1);
    lock := SplitsRefundBranch(d1, spec.refundLockHeight, spec.refunderHash, d2);
    SplitsAppend(script, ClaimBranch(size, spec.paymentHash, spec.claimerHash), d1,
                 RefundBranch(lock, spec.refunderHash), d2);
  }

  /** Exactly which byte strings parse: the template with any two canonical pushes of its numbers. */
  lemma ParseAccepts(script: bytes, spec: HtlcSpec)
    ensures Parse(script) == Ok(spec) <==>
            exists size, lock ::
              IsNumber(size, 32) && IsNumber(lock, spec.refundLockHeight)
              && Splits(script, Template(spec, size, lock), [])
  {
    if Parse(script) == Ok(spec) {
      var size, lock := ParsedIsTemplate(script, spec);
    }
    forall size, lock | IsNumber(size, 32) && IsNumber(lock, spec.refundLockHeight)
                        && Splits(script, Template(spec, size, lock), [])
      ensures Parse(script) == Ok(spec)
    {
      ParseTemplate(spec, size, lock);
      assert script == Serialize(Template(spec, size, lock));
    }
  }

  /** Every push short enough to be read as a number is minimally encoded. */
  predicate NumbersMinimal(script: bytes) {
    match Instructions(script, true)
    case Ok(p) => forall k :: 0 <= k < |p| && p[k].Push? && |p[k].data| <= 8 ==> ScriptNum.Minimal(p[k].data)
    case Err => false
  }

  lemma SmallNumberEncoding(n: int)
    ensures n == -1 ==> ScriptNum.Encode(n) == [0x81]
    ensures 1 <= n <= 16 ==> ScriptNum.Encode(n) == [n]
  {
  }

  /** A canonical push of a number is the builder's own push iff its bytes are minimal. */
  lemma MinimalNumberIsPushInt(i: Instruction, n: int)
    requires IsNumber(i, n)
    ensures i == PushInt(n) <==> (i.Push? ==> ScriptNum.Minimal(i.data))
  {
    ScriptNum.ValueEncode(n);
    SmallNumberEncoding(n);
    if i.Push? {
      ScriptNum.EncodeValue(i.data);
    }
  }

  lemma TemplateNumbersMinimal(spec: HtlcSpec, size: Instruction, lock: Instruction)
    requires IsNumber(size, 32) && IsNumber(lock, spec.refundLockHeight)
    requires AllCanonical(Template(spec, size, lock))
    ensures NumbersMinimal(Serialize(Template(spec, size, lock)))
            <==> size == PushInt(32) && lock == PushInt(spec.refundLockHeight)
  {
    var p := Template(spec, size, lock);
    InstructionsOfSerialize(p, true);
    MinimalNumberIsPushInt(size, 32);
    MinimalNumberIsPushInt(lock, spec.refundLockHeight);
    assert p[2] == size && p[13] == lock;
    forall k | 0 <= k < |p| && p[k].Push? && |p[k].data| <= 8
      ensures k == 2 || k == 13
    {
      assert |p| == 22;
    }
  }

  lemma TemplateIsProgram(spec: HtlcSpec, size: Instruction, lock: Instruction)
    requires AllCanonical(Template(spec, size, lock))
    ensures Serialize(Template(spec, size, lock)) == WitnessScript(spec)
            <==> size == PushInt(32) && lock == PushInt(spec.refundLockHeight)
  {
    var p, q := Template(spec, size, lock), Program(spec);
    ProgramCanonical(spec);
    InstructionsOfSerialize(p, true);
    InstructionsOfSerialize(q, true);
    assert p[2] == size && p[13] == lock;
    assert q[2] == PushInt(32) && q[13] == PushInt(spec.refundLockHeight);
  }

  /** The converse round trip holds for exactly the accepted scripts with minimal numbers. */
  lemma PrintUndoesParseIffMinimal(script: bytes, spec: HtlcSpec)
    requires Parse(script) == Ok(spec)
    ensures script == WitnessScript(spec) <==> NumbersMinimal(script)
  {
    var size, lock := ParsedIsTemplate(script, spec);
    assert script == Serialize(Template(spec, size, lock));
    TemplateNumbersMinimal(spec, size, lock);
    TemplateIsProgram(spec, size, lock);
  }

  /** Minus zero, pushed as 0x80, parses as lock height zero: two scripts, one specification. */
  lemma MinusZeroParses(spec: HtlcSpec)
    requires spec.refundLockHeight == 0
    ensures AllCanonical(Template(spec, PushInt(32), Push([0x80])))
    ensures var script := Serialize(Template(spec, PushInt(32), Push([0x80])));
            Parse(script) == Ok(spec) && script != WitnessScript(spec)
  {
    var lock := Push([0x80]);
    PushIntIsNumber(32);
    assert ScriptNum.Magnitude([0x80]) == [0];
    assert ScriptNum.LittleEndian([0]) == 0;
    ParseTemplate(spec, PushInt(32), lock);
    TemplateIsProgram(spec, PushInt(32), lock);
  }
}
