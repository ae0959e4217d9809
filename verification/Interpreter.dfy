/**
 A stack interpreter for the opcodes of the HTLC script, with the consensus rules of
 BIP141 (section "Witness program") and BIP65 (section "Summary").

 Any other opcode fails. The two hash functions and the signature check are parameters.
 */
module Interpreter {
  import opened Types
  import opened Script
  import ScriptNum

  const LOCKTIME_THRESHOLD := 500_000_000
  const SEQUENCE_MAX: u32 := 0xFFFF_FFFF
  const MAX_ELEMENT_SIZE := 520
  const MAX_SCRIPT_SIZE := 10_000

  /** What a script can observe: the hashes, the signature check and two fields of the spending transaction. */
  datatype ScriptEnv = ScriptEnv(
    sha256: bytes -> bytes,
    hash160: bytes -> bytes,
    checkSig: (bytes, bytes) -> bool,
    lockTime: u32,
    sequence: u32)

  datatype Stack = Nil | Cons(top: bytes, below: Stack)

  /** `cond` holds one flag for each open OP_IF, the innermost last. */
  datatype Machine = Machine(stack: Stack, cond: seq<bool>)

  /** The stack a witness starts from: its last item on top. */
  function FromWitness(w: seq<bytes>): Stack {
    if w == [] then Nil else Cons(w[|w| - 1], FromWitness(w[..|w| - 1]))
  }

  /** Zero of any length, and minus zero, are false. */
  predicate Truthy(b: bytes) {
    exists i :: 0 <= i < |b| && b[i] != 0 && !(i == |b| - 1 && b[i] == 0x80)
  }

  function BoolBytes(v: bool): bytes {
    if v then [1] else []
  }

  predicate Executing(m: Machine) {
    false !in m.cond
  }

  /** OP_CHECKLOCKTIMEVERIFY lets the spender pass. */
  predicate LockTimeReached(env: ScriptEnv, n: int) {
    && 0 <= n <= env.lockTime
    && (n < LOCKTIME_THRESHOLD <==> env.lockTime < LOCKTIME_THRESHOLD)
    && env.sequence != SEQUENCE_MAX
  }

  function StepOp(env: ScriptEnv, code: byte, m: Machine): Option<Machine> {
    var s := m.stack;
    if OP_PUSHNUM_1 <= code <= OP_PUSHNUM_16 then
      Some(m.(stack := Cons(ScriptNum.Encode(code - OP_PUSHNUM_1 + 1), s)))
    else if code == OP_PUSHNUM_NEG1 then
      Some(m.(stack := Cons(ScriptNum.Encode(-1), s)))
    else if s.Nil? then None
    else if code == OP_DUP then
      Some(m.(stack := Cons(s.top, s)))
    else if code == OP_DROP then
      Some(m.(stack := s.below))
    else if code == OP_SIZE then
      Some(m.(stack := Cons(ScriptNum.Encode(|s.top|), s)))
    else if code == OP_SHA256 then
      Some(m.(stack := Cons(env.sha256(s.top), s.below)))
    else if code == OP_HASH160 then
      Some(m.(stack := Cons(env.hash160(s.top), s.below)))
    else if code == OP_CLTV then
      if |s.top| <= 5 && LockTimeReached(env, ScriptNum.Value(s.top)) then Some(m) else None
    else if s.below.Nil? then None
    else if code == OP_EQUALVERIFY then
      if s.top == s.below.top then Some(m.(stack := s.below.below)) else None
    else if code == OP_CHECKSIG then
      Some(m.(stack := Cons(BoolBytes(env.checkSig(s.below.top, s.top)), s.below.below)))
    else None
  }

  predicate IsConditional(i: Instruction) {
    i == Op(OP_IF) || i == Op(OP_ELSE) || i == Op(OP_ENDIF)
  }

  function StepConditional(code: byte, m: Machine): Option<Machine> {
    if code == OP_IF then
      if !Executing(m) then Some(m.(cond := m.cond + [false]))
      else if m.stack.Nil? then None
      else Some(Machine(m.stack.below, m.cond + [Truthy(m.stack.top)]))
    else if m.cond == [] then None
    else if code == OP_ELSE then
      Some(m.(cond := m.cond[..|m.cond| - 1] + [!m.cond[|m.cond| - 1]]))
    else
      Some(m.(cond := m.cond[..|m.cond| - 1]))
  }

  function Step(env: ScriptEnv, i: Instruction, m: Machine): Option<Machine> {
    if IsConditional(i) then StepConditional(i.code, m)
    else if !Executing(m) then Some(m)
    else
      match i
      case Push(data) => if |data| <= MAX_ELEMENT_SIZE then Some(m.(stack := Cons(data, m.stack))) else None
      case Op(code) => StepOp(env, code, m)
  }

  /** `None` when the script fails. */
  function Run(env: ScriptEnv, p: seq<Instruction>, m: Machine): Option<Machine> {
    if p == [] then Some(m)
    else
      match Step(env, p[0], m)
      case None => None
      case Some(next) => Run(env, p[1..], next)
  }

  /** The run ends outside every OP_IF with exactly one true element. */
  predicate EndsTrue(r: Option<Machine>) {
    r.Some? && r.value.cond == [] && r.value.stack.Cons? && r.value.stack.below.Nil? && Truthy(r.value.stack.top)
  }

  /** A version 0 script-hash witness program: `w` is the witness without the script. */
  predicate Accepts(env: ScriptEnv, script: bytes, w: seq<bytes>) {
    && |script| <= MAX_SCRIPT_SIZE
    && (forall k :: 0 <= k < |w| ==> |w[k]| <= MAX_ELEMENT_SIZE)
    && match Instructions(script, false)
       case Err => false
       case Ok(p) => EndsTrue(Run(env, p, Machine(FromWitness(w), [])))
  }

  // ----- how runs compose

  lemma RunCons(env: ScriptEnv, i: Instruction, p: seq<Instruction>, m: Machine)
    ensures Run(env, [i] + p, m) ==
            match Step(env, i, m) case None => None case Some(next) => Run(env, p, next)
  {
    assert ([i] + p)[1..] == p;
  }

  lemma {:induction false} RunAppend(env: ScriptEnv, p: seq<Instruction>, q: seq<Instruction>, m: Machine)
    ensures Run(env, p + q, m) ==
            match Run(env, p, m) case None => None case Some(next) => Run(env, q, next)
    decreases |p|
  {
    if p == [] {
      assert p + q == q;
    } else {
      assert (p + q)[1..] == p[1..] + q;
      var next := Step(env, p[0], m);
      if next.Some? {
        RunAppend(env, p[1..], q, next.value);
      }
    }
  }

  /** Outside the taken branch nothing happens until the next conditional. */
  lemma {:induction false} RunSkipped(env: ScriptEnv, p: seq<Instruction>, m: Machine)
    requires !Executing(m)
    requires forall k :: 0 <= k < |p| ==> !IsConditional(p[k])
    ensures Run(env, p, m) == Some(m)
  {
    if p != [] {
      RunSkipped(env, p[1..], m);
    }
  }

}
