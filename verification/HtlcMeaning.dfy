/**
 What the HTLC witness script means: exactly which witness stacks it accepts.
 */
module HtlcMeaning {
  import opened Types
  import opened Script
  import opened Interpreter
  import opened HtlcScript
  import ScriptNum

  /** [signature, public key, preimage, true]. */
  predicate ClaimStack(env: ScriptEnv, spec: HtlcSpec, w: seq<bytes>) {
    && |w| == 4
    && Truthy(w[3])
    && |w[2]| == 32 && env.sha256(w[2]) == spec.paymentHash
    && env.hash160(w[1]) == spec.claimerHash
    && env.checkSig(w[0], w[1])
  }

  /** [signature, public key, false], once the lock height is reached. */
  predicate RefundStack(env: ScriptEnv, spec: HtlcSpec, w: seq<bytes>) {
    && |w| == 3
    && !Truthy(w[2])
    && env.hash160(w[1]) == spec.refunderHash
    && env.checkSig(w[0], w[1])
    && LockTimeReached(env, spec.refundLockHeight)
  }

  /** The run of a key check, from an executing machine. */
  function AfterKeyCheck(env: ScriptEnv, keyHash: Hash20, m: Machine): Option<Machine> {
    match m.stack
    case Cons(key, Cons(sig, below)) =>
      if env.hash160(key) == keyHash
      then Some(m.(stack := Cons(BoolBytes(env.checkSig(sig, key)), below)))
      else None
    case _ => None
  }

  lemma RunKeyCheck(env: ScriptEnv, keyHash: Hash20, m: Machine)
    requires Executing(m)
    ensures Run(env, KeyCheck(keyHash), m) == AfterKeyCheck(env, keyHash, m)
  {
    var p5: seq<Instruction> := [];
    var p4 := [Op(OP_CHECKSIG)] + p5;
    var p3 := [Op(OP_EQUALVERIFY)] + p4;
    var p2 := [Push(keyHash)] + p3;
    var p1 := [Op(OP_HASH160)] + p2;
    assert KeyCheck(keyHash) == [Op(OP_DUP)] + p1;
    RunCons(env, Op(OP_DUP), p1, m);
    if m.stack.Cons? {
      var key := m.stack.top;
      var m1 := m.(stack := Cons(key, m.stack));
      RunCons(env, Op(OP_HASH160), p2, m1);
      var m2 := m.(stack := Cons(env.hash160(key), m.stack));
      RunCons(env, Push(keyHash), p3, m2);
      var m3 := m.(stack := Cons(keyHash, m2.stack));
      RunCons(env, Op(OP_EQUALVERIFY), p4, m3);
      RunCons(env, Op(OP_CHECKSIG), p5, m);
    }
  }

  /** The preimage test leaves the stack below the preimage. */
  function AfterPreimage(env: ScriptEnv, paymentHash: Hash32, m: Machine): Option<Machine> {
    match m.stack
    case Cons(preimage, below) =>
      if |preimage| == 32 && env.sha256(preimage) == paymentHash then Some(m.(stack := below)) else None
    case Nil => None
  }

  /** OP_SIZE to the second OP_EQUALVERIFY. */
  function PreimageTest(paymentHash: Hash32): seq<Instruction> {
    [Op(OP_SIZE), PushInt(32), Op(OP_EQUALVERIFY)] + HashCheck(paymentHash)
  }

  lemma RunSizeTest(env: ScriptEnv, m: Machine)
    requires Executing(m)
    ensures Run(env, [Op(OP_SIZE), PushInt(32), Op(OP_EQUALVERIFY)], m) ==
            if m.stack.Cons? && |m.stack.top| == 32 then Some(m) else None
  {
    var p3: seq<Instruction> := [];
    var p2 := [Op(OP_EQUALVERIFY)] + p3;
    var p1 := [PushInt(32)] + p2;
    assert [Op(OP_SIZE), PushInt(32), Op(OP_EQUALVERIFY)] == [Op(OP_SIZE)] + p1;
    RunCons(env, Op(OP_SIZE), p1, m);
    if m.stack.Cons? {
      var size := ScriptNum.Encode(|m.stack.top|);
      var m1 := m.(stack := Cons(size, m.stack));
      assert PushInt(32) == Push(ScriptNum.Encode(32));
      RunCons(env, PushInt(32), p2, m1);
      PushIntCanonical(32);
      var m2 := m.(stack := Cons(ScriptNum.Encode(32), m1.stack));
      RunCons(env, Op(OP_EQUALVERIFY), p3, m2);
      if size == ScriptNum.Encode(32) {
        ScriptNum.EncodeInjective(|m.stack.top|, 32);
      }
    }
  }

  lemma RunHashTest(env: ScriptEnv, paymentHash: Hash32, m: Machine)
    requires Executing(m)
    ensures Run(env, HashCheck(paymentHash), m) ==
            if m.stack.Cons? && env.sha256(m.stack.top) == paymentHash then Some(m.(stack := m.stack.below)) else None
  {
    var p3: seq<Instruction> := [];
    var p2 := [Op(OP_EQUALVERIFY)] + p3;
    var p1 := [Push(paymentHash)] + p2;
    assert HashCheck(paymentHash) == [Op(OP_SHA256)] + p1;
    RunCons(env, Op(OP_SHA256), p1, m);
    if m.stack.Cons? {
      var m1 := m.(stack := Cons(env.sha256(m.stack.top), m.stack.below));
      RunCons(env, Push(paymentHash), p2, m1);
      RunCons(env, Op(OP_EQUALVERIFY), p3, m.(stack := Cons(paymentHash, m1.stack)));
    }
  }

  lemma RunPreimageTest(env: ScriptEnv, paymentHash: Hash32, m: Machine)
    requires Executing(m)
    ensures Run(env, PreimageTest(paymentHash), m) == AfterPreimage(env, paymentHash, m)
  {
    RunAppend(env, [Op(OP_SIZE), PushInt(32), Op(OP_EQUALVERIFY)], HashCheck(paymentHash), m);
    RunSizeTest(env, m);
    if m.stack.Cons? {
      RunHashTest(env, paymentHash, m);
    }
  }

  lemma RunLockTest(env: ScriptEnv, height: u32, m: Machine)
    requires Executing(m)
    ensures Run(env, [PushInt(height), Op(OP_CLTV), Op(OP_DROP)], m) ==
            if LockTimeReached(env, height) then Some(m) else None
  {
    var p3: seq<Instruction> := [];
    var p2 := [Op(OP_DROP)] + p3;
    var p1 := [Op(OP_CLTV)] + p2;
    assert [PushInt(height), Op(OP_CLTV), Op(OP_DROP)] == [PushInt(height)] + p1;
    PushIntCanonical(height);
    ScriptNum.LockHeightFitsFiveBytes(height);
    ScriptNum.ValueEncode(height);
    var m1 := m.(stack := Cons(ScriptNum.Encode(height), m.stack));
    RunCons(env, PushInt(height), p1, m);
    assert Step(env, PushInt(height), m) == Some(m1);
    RunCons(env, Op(OP_CLTV), p2, m1);
    RunCons(env, Op(OP_DROP), p3, m1);
  }

  /** Everything between OP_IF and OP_ELSE. */
  function ClaimCode(spec: HtlcSpec): seq<Instruction> {
    PreimageTest(spec.paymentHash) + KeyCheck(spec.claimerHash)
  }

  /** Everything between OP_ELSE and OP_ENDIF. */
  function RefundCode(spec: HtlcSpec): seq<Instruction> {
    [PushInt(spec.refundLockHeight), Op(OP_CLTV), Op(OP_DROP)] + KeyCheck(spec.refunderHash)
  }

  lemma ProgramShape(spec: HtlcSpec)
    ensures Program(spec) ==
            [Op(OP_IF)] + (ClaimCode(spec) + ([Op(OP_ELSE)] + (RefundCode(spec) + [Op(OP_ENDIF)])))
    ensures forall k :: 0 <= k < |ClaimCode(spec)| ==> !IsConditional(ClaimCode(spec)[k])
    ensures forall k :: 0 <= k < |RefundCode(spec)| ==> !IsConditional(RefundCode(spec)[k])
  {
    PushIntCanonical(32);
  }

  lemma RunClaimCode(env: ScriptEnv, spec: HtlcSpec, m: Machine)
    requires Executing(m)
    ensures Run(env, ClaimCode(spec), m) ==
            match AfterPreimage(env, spec.paymentHash, m)
            case None => None
            case Some(next) => AfterKeyCheck(env, spec.claimerHash, next)
  {
    RunAppend(env, PreimageTest(spec.paymentHash), KeyCheck(spec.claimerHash), m);
    RunPreimageTest(env, spec.paymentHash, m);
    var next := AfterPreimage(env, spec.paymentHash, m);
    if next.Some? {
      RunKeyCheck(env, spec.claimerHash, next.value);
    }
  }

  lemma RunRefundCode(env: ScriptEnv, spec: HtlcSpec, m: Machine)
    requires Executing(m)
    ensures Run(env, RefundCode(spec), m) ==
            if LockTimeReached(env, spec.refundLockHeight) then AfterKeyCheck(env, spec.refunderHash, m) else None
  {
    RunAppend(env, [PushInt(spec.refundLockHeight), Op(OP_CLTV), Op(OP_DROP)], KeyCheck(spec.refunderHash), m);
    RunLockTest(env, spec.refundLockHeight, m);
    RunKeyCheck(env, spec.refunderHash, m);
  }

  lemma ElseAndEndif(s: Stack, v: bool)
    ensures StepConditional(OP_ELSE, Machine(s, [v])) == Some(Machine(s, [!v]))
    ensures StepConditional(OP_ENDIF, Machine(s, [v])) == Some(Machine(s, []))
  {
    assert [v][..0] + [!v] == [!v];
  }

  /** OP_ELSE to OP_ENDIF after the claim branch ran: the refund code is skipped. */
  lemma RunTailSkipped(env: ScriptEnv, spec: HtlcSpec, s: Stack)
    ensures Run(env, [Op(OP_ELSE)] + (RefundCode(spec) + [Op(OP_ENDIF)]), Machine(s, [true])) == Some(Machine(s, []))
  {
    ProgramShape(spec);
    ElseAndEndif(s, true);
    ElseAndEndif(s, false);
    RunCons(env, Op(OP_ELSE), RefundCode(spec) + [Op(OP_ENDIF)], Machine(s, [true]));
    RunAppend(env, RefundCode(spec), [Op(OP_ENDIF)], Machine(s, [false]));
    RunSkipped(env, RefundCode(spec), Machine(s, [false]));
    RunCons(env, Op(OP_ENDIF), [], Machine(s, [false]));
    assert [Op(OP_ENDIF)] + [] == [Op(OP_ENDIF)];
  }

  /** A branch's outcome once OP_ENDIF has closed it. */
  function Closed(r: Option<Machine>): Option<Machine> {
    match r case None => None case Some(next) => Some(next.(cond := []))
  }

  /** OP_ELSE to OP_ENDIF after the claim code was skipped. */
  lemma RunTailTaken(env: ScriptEnv, spec: HtlcSpec, s: Stack)
    ensures Run(env, [Op(OP_ELSE)] + (RefundCode(spec) + [Op(OP_ENDIF)]), Machine(s, [false])) ==
            Closed(Run(env, RefundCode(spec), Machine(s, [true])))
  {
    ElseAndEndif(s, false);
    RunCons(env, Op(OP_ELSE), RefundCode(spec) + [Op(OP_ENDIF)], Machine(s, [false]));
    RunAppend(env, RefundCode(spec), [Op(OP_ENDIF)], Machine(s, [true]));
    RunRefundCode(env, spec, Machine(s, [true]));
    var next := Run(env, RefundCode(spec), Machine(s, [true]));
    if next.Some? {
      ElseAndEndif(next.value.stack, true);
      RunCons(env, Op(OP_ENDIF), [], next.value);
      assert [Op(OP_ENDIF)] + [] == [Op(OP_ENDIF)];
    }
  }

  lemma RunProgramOnNothing(env: ScriptEnv, spec: HtlcSpec)
    ensures Run(env, Program(spec), Machine(Nil, [])).None?
  {
    ProgramShape(spec);
    RunCons(env, Op(OP_IF), ClaimCode(spec) + ([Op(OP_ELSE)] + (RefundCode(spec) + [Op(OP_ENDIF)])), Machine(Nil, []));
  }

  /** OP_IF opens a branch with the selector's truth value. */
  lemma RunIf(env: ScriptEnv, p: seq<Instruction>, top: bytes, below: Stack)
    ensures Run(env, [Op(OP_IF)] + p, Machine(Cons(top, below), [])) == Run(env, p, Machine(below, [Truthy(top)]))
  {
    RunCons(env, Op(OP_IF), p, Machine(Cons(top, below), []));
    assert [] + [Truthy(top)] == [Truthy(top)];
  }

  /** A true selector runs the claim code. */
  lemma RunProgramClaim(env: ScriptEnv, spec: HtlcSpec, top: bytes, below: Stack)
    requires Truthy(top)
    ensures Run(env, Program(spec), Machine(Cons(top, below), [])) ==
            Closed(Run(env, ClaimCode(spec), Machine(below, [true])))
  {
    ProgramShape(spec);
    var tail := [Op(OP_ELSE)] + (RefundCode(spec) + [Op(OP_ENDIF)]);
    RunIf(env, ClaimCode(spec) + tail, top, below);
    var m := Machine(below, [true]);
    RunAppend(env, ClaimCode(spec), tail, m);
    RunClaimCode(env, spec, m);
    var next := Run(env, ClaimCode(spec), m);
    if next.Some? {
      assert next.value.cond == [true];
      RunTailSkipped(env, spec, next.value.stack);
    }
  }

  /** A false selector skips it and runs the refund code. */
  lemma RunProgramRefund(env: ScriptEnv, spec: HtlcSpec, top: bytes, below: Stack)
    requires !Truthy(top)
    ensures Run(env, Program(spec), Machine(Cons(top, below), [])) ==
            Closed(Run(env, RefundCode(spec), Machine(below, [true])))
  {
    ProgramShape(spec);
    var tail := [Op(OP_ELSE)] + (RefundCode(spec) + [Op(OP_ENDIF)]);
    RunIf(env, ClaimCode(spec) + tail, top, below);
    var m := Machine(below, [false]);
    RunAppend(env, ClaimCode(spec), tail, m);
    RunSkipped(env, ClaimCode(spec), m);
    RunTailTaken(env, spec, below);
  }

  lemma TruthyBool(v: bool)
    ensures Truthy(BoolBytes(v)) == v
  {
    if v {
      assert BoolBytes(v)[0] == 1;
    }
  }

  /** The stack shape behind a witness of known length. */
  lemma WitnessShape(w: seq<bytes>)
    ensures FromWitness(w).Nil? <==> w == []
    ensures |w| >= 1 ==> FromWitness(w) == Cons(w[|w| - 1], FromWitness(w[..|w| - 1]))
    ensures |w| >= 2 ==> FromWitness(w).below == Cons(w[|w| - 2], FromWitness(w[..|w| - 2]))
    ensures |w| >= 3 ==> FromWitness(w).below.below == Cons(w[|w| - 3], FromWitness(w[..|w| - 3]))
    ensures |w| >= 4 ==> FromWitness(w).below.below.below == Cons(w[|w| - 4], FromWitness(w[..|w| - 4]))
  {
    if |w| >= 2 { assert w[..|w| - 1][..|w| - 2] == w[..|w| - 2]; }
    if |w| >= 3 { assert w[..|w| - 2][..|w| - 3] == w[..|w| - 3]; }
    if |w| >= 4 { assert w[..|w| - 3][..|w| - 4] == w[..|w| - 4]; }
  }

  lemma ClaimStackRun(env: ScriptEnv, spec: HtlcSpec, w: seq<bytes>)
    requires w != [] && Truthy(w[|w| - 1])
    ensures EndsTrue(Run(env, Program(spec), Machine(FromWitness(w), []))) <==> ClaimStack(env, spec, w)
  {
    WitnessShape(w);
    var s := FromWitness(w);
    RunProgramClaim(env, spec, s.top, s.below);
    RunClaimCode(env, spec, Machine(s.below, [true]));
    if |w| >= 4 {
      TruthyBool(env.checkSig(w[|w| - 4], w[|w| - 3]));
      WitnessShape(w[..|w| - 4]);
    }
  }

  lemma RefundStackRun(env: ScriptEnv, spec: HtlcSpec, w: seq<bytes>)
    requires w != [] && !Truthy(w[|w| - 1])
    ensures EndsTrue(Run(env, Program(spec), Machine(FromWitness(w), []))) <==> RefundStack(env, spec, w)
  {
    WitnessShape(w);
    var s := FromWitness(w);
    RunProgramRefund(env, spec, s.top, s.below);
    RunRefundCode(env, spec, Machine(s.below, [true]));
    if |w| >= 3 {
      TruthyBool(env.checkSig(w[|w| - 3], w[|w| - 2]));
      WitnessShape(w[..|w| - 3]);
    }
  }

  lemma {:induction false} SerializedLength(p: seq<Instruction>)
    requires AllCanonical(p)
    ensures |Serialize(p)| <= 0x4c * |p|
  {
    if p != [] {
      SerializedLength(p[1..]);
    }
  }

  /**
   The exact meaning of the script, for witness stacks of every shape: the claimer
   with the preimage, or the refunder once the lock height is reached, and no one else.
   */
  lemma HtlcAcceptsIff(env: ScriptEnv, spec: HtlcSpec, w: seq<bytes>)
    ensures Accepts(env, WitnessScript(spec), w) <==>
            && (forall k :: 0 <= k < |w| ==> |w[k]| <= MAX_ELEMENT_SIZE)
            && (ClaimStack(env, spec, w) || RefundStack(env, spec, w))
  {
    ProgramCanonical(spec);
    InstructionsOfSerialize(Program(spec), false);
    SerializedLength(Program(spec));
    if w == [] {
      RunProgramOnNothing(env, spec);
    } else if Truthy(w[|w| - 1]) {
      ClaimStackRun(env, spec, w);
    } else {
      RefundStackRun(env, spec, w);
    }
  }
}
