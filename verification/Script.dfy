/**
 Script bytes: opcodes, pushes, the builder's encoders and the instruction iterator.

 The iterator follows the script crate: `minimal` turns on its check that a push
 uses the shortest push opcode. A push of one zero byte is not rejected by it.
 */
module Script {
  import opened Types
  import ScriptNum

  const OP_PUSHDATA1: byte := 0x4c
  const OP_PUSHDATA2: byte := 0x4d
  const OP_PUSHDATA4: byte := 0x4e
  const OP_PUSHNUM_NEG1: byte := 0x4f
  const OP_PUSHNUM_1: byte := 0x51
  const OP_PUSHNUM_16: byte := 0x60
  const OP_IF: byte := 0x63
  const OP_ELSE: byte := 0x67
  const OP_ENDIF: byte := 0x68
  const OP_DROP: byte := 0x75
  const OP_DUP: byte := 0x76
  const OP_SIZE: byte := 0x82
  const OP_EQUALVERIFY: byte := 0x88
  const OP_SHA256: byte := 0xa8
  const OP_HASH160: byte := 0xa9
  const OP_CHECKSIG: byte := 0xac
  const OP_CLTV: byte := 0xb1

  datatype Instruction = Push(data: bytes) | Op(code: byte)

  datatype NextResult = End | Bad | Item(ins: Instruction, rest: bytes)

  // ----- the builder

  /** `push_slice` for the lengths one length byte can carry, `push_opcode` otherwise. */
  function Emit(i: Instruction): bytes
    requires i.Push? ==> |i.data| < 0x4c
  {
    match i
    case Push(data) => [|data|] + data
    case Op(code) => [code]
  }

  /** `push_int`: -1 and 1..16 have opcodes, zero is the empty push. */
  function PushInt(n: int): Instruction {
    if n == -1 || 1 <= n <= 16 then Op(0x50 + n) else Push(ScriptNum.Encode(n))
  }

  /** What the builder emits and the minimal iterator gives back unchanged. */
  predicate Canonical(i: Instruction) {
    match i
    case Push(data) => |data| < 0x4c && !HasShorterPush(data)
    case Op(code) => code > OP_PUSHDATA4
  }

  /** One-byte data that has an opcode of its own. */
  predicate HasShorterPush(data: bytes) {
    |data| == 1 && (data[0] == 0x81 || 1 <= data[0] <= 16)
  }

  predicate AllCanonical(p: seq<Instruction>) {
    forall k :: 0 <= k < |p| ==> Canonical(p[k])
  }

  function Serialize(p: seq<Instruction>): bytes
    requires AllCanonical(p)
  {
    if p == [] then [] else Emit(p[0]) + Serialize(p[1..])
  }

  // ----- the iterator

  /** A push whose payload starts after `header` bytes, and is refused under `minimal` when `n < least`. */
  function TakePush(d: bytes, header: nat, n: nat, least: nat, minimal: bool): NextResult {
    if |d| < header + n then Bad
    else if minimal && n < least then Bad
    else Item(Push(d[header..header + n]), d[header + n..])
  }

  function Next(d: bytes, minimal: bool): (r: NextResult)
    ensures r.Item? ==> |r.rest| < |d|
  {
    if d == [] then End
    else if d[0] < OP_PUSHDATA1 then
      var n := d[0];
      if |d| < 1 + n then Bad
      else if minimal && HasShorterPush(d[1..1 + n]) then Bad
      else Item(Push(d[1..1 + n]), d[1 + n..])
    else if d[0] == OP_PUSHDATA1 then
      if |d| < 2 then Bad else TakePush(d, 2, d[1], 0x4c, minimal)
    else if d[0] == OP_PUSHDATA2 then
      if |d| < 3 then Bad else TakePush(d, 3, ScriptNum.LittleEndian(d[1..3]), 0x100, minimal)
    else if d[0] == OP_PUSHDATA4 then
      if |d| < 5 then Bad else TakePush(d, 5, ScriptNum.LittleEndian(d[1..5]), 0x1_0000, minimal)
    else Item(Op(d[0]), d[1..])
  }

  /** The whole script as instructions; `Err` when some push is cut short. */
  function Instructions(d: bytes, minimal: bool): Result<seq<Instruction>>
    decreases |d|
  {
    match Next(d, minimal)
    case End => Ok([])
    case Bad => Err
    case Item(ins, rest) =>
      var tail :- Instructions(rest, minimal);
      Ok([ins] + tail)
  }

  /** The iterator reads back one emitted instruction. */
  lemma NextOfEmit(i: Instruction, rest: bytes, minimal: bool)
    requires Canonical(i)
    ensures Next(Emit(i) + rest, minimal) == Item(i, rest)
  {
    var d := Emit(i) + rest;
    if i.Push? {
      assert d[1..1 + |i.data|] == i.data;
      assert d[1 + |i.data|..] == rest;
    } else {
      assert d[1..] == rest;
    }
  }

  /** The minimal iterator yields a short instruction only from that instruction's own bytes. */
  lemma EmitOfNext(d: bytes, i: Instruction, rest: bytes)
    requires Next(d, true) == Item(i, rest)
    requires i.Push? ==> |i.data| < 0x4c
    ensures Canonical(i) && d == Emit(i) + rest
  {
  }

  /** Reading a serialized program gives the program, whether or not minimal pushes are demanded. */
  lemma {:induction false} InstructionsOfSerialize(p: seq<Instruction>, minimal: bool)
    requires AllCanonical(p)
    ensures Instructions(Serialize(p), minimal) == Ok(p)
  {
    if p != [] {
      NextOfEmit(p[0], Serialize(p[1..]), minimal);
      InstructionsOfSerialize(p[1..], minimal);
      assert p == [p[0]] + p[1..];
    }
  }

  /** Every u32 is pushed canonically: 0 as the empty push, 1..16 as opcodes, others in at most five bytes. */
  lemma PushIntCanonical(n: u32)
    ensures Canonical(PushInt(n))
    ensures PushInt(n).Push? ==> |PushInt(n).data| <= 5
  {
    ScriptNum.LockHeightFitsFiveBytes(n);
    ScriptNum.ValueEncode(n);
    var e := ScriptNum.Encode(n);
    if |e| == 1 {
      assert ScriptNum.Magnitude(e) == [e[0] % 128];
      assert ScriptNum.LittleEndian([e[0] % 128]) == e[0] % 128;
    }
  }

  /** The iterator as the parser holds it: `data` is what is still to be read. */
  class InstructionIter {
    var data: bytes

    constructor (script: bytes)
      ensures data == script
    {
      data := script;
    }

    /** A bad push also empties the iterator, so it is reported once. */
    method NextItem() returns (r: NextResult)
      modifies this
      ensures r == Next(old(data), true)
      ensures data == if r.Item? then r.rest else []
    {
      r := Next(data, true);
      data := if r.Item? then r.rest else [];
    }
  }
}
