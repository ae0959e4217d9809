/**
 The two mutexes. Every code path is a sequence of lock operations; any number of tasks
 run such paths at once, and none of them can deadlock.
 */
module Locks {

  datatype Mutex = Wallet | Store

  datatype LockOp = Acquire(m: Mutex) | Release(m: Mutex)

  type TaskId = nat

  /** The wallet comes before the store. */
  predicate Before(a: Mutex, b: Mutex) {
    a.Wallet? && b.Store?
  }

  // ----- the code paths, without error exits

  const STORE_CALL := [Acquire(Store), Release(Store)]
  const WALLET_CALL := [Acquire(Wallet), Release(Wallet)]
  const STORE_UNDER_WALLET := [Acquire(Wallet), Acquire(Store), Release(Store), Release(Wallet)]

  function Repeat(ops: seq<LockOp>, n: nat): seq<LockOp> {
    if n == 0 then [] else ops + Repeat(ops, n - 1)
  }

  /** A request handler or a refund pass, with the number of its polls or of its refunds. */
  datatype CodePath =
    | Read
    | CreateLinked
    | CreateSwap(polls: nat)
    | Pay
    | Claim
    | RefundPass(refunds: nat)

  function Ops(p: CodePath): seq<LockOp> {
    match p
    case Read => STORE_CALL
    case CreateLinked => STORE_CALL + STORE_CALL
    case CreateSwap(polls) =>
      STORE_CALL + (WALLET_CALL + (STORE_UNDER_WALLET + (Repeat(WALLET_CALL, polls) + STORE_CALL)))
    case Pay => STORE_CALL + STORE_CALL
    case Claim => STORE_CALL + STORE_UNDER_WALLET
    case RefundPass(refunds) => [Acquire(Wallet)] + (STORE_CALL + (Repeat(STORE_CALL, refunds) + [Release(Wallet)]))
  }

  /** The guards alive after one more operation, the newest last. */
  function GuardsAfter(g: seq<Mutex>, op: LockOp): seq<Mutex> {
    if op.Acquire? then g + [op.m]
    else if g != [] then g[..|g| - 1]
    else []
  }

  function Guards(ops: seq<LockOp>): seq<Mutex> {
    if ops == [] then [] else GuardsAfter(Guards(ops[..|ops| - 1]), ops[|ops| - 1])
  }

  /** Leaving a scope drops its guards, the newest first. */
  function Unwind(g: seq<Mutex>): seq<LockOp> {
    if g == [] then [] else [Release(g[|g| - 1])] + Unwind(g[..|g| - 1])
  }

  /** A path that returns early, with an error, after `k` operations. */
  function ExitAfter(ops: seq<LockOp>, k: nat): seq<LockOp>
    requires k <= |ops|
  {
    ops[..k] + Unwind(Guards(ops[..k]))
  }

  // ----- the discipline

  predicate AllBefore(g: seq<Mutex>, m: Mutex) {
    forall h :: h in g ==> Before(h, m)
  }

  /** From the guards `g` on: locks are taken in order, none twice, and released in reverse. */
  predicate Disciplined(ops: seq<LockOp>, g: seq<Mutex>) {
    if ops == [] then g == []
    else if ops[0].Acquire? then AllBefore(g, ops[0].m) && Disciplined(ops[1..], g + [ops[0].m])
    else g != [] && g[|g| - 1] == ops[0].m && Disciplined(ops[1..], g[..|g| - 1])
  }

  lemma TakeThen(m: Mutex, rest: seq<LockOp>, g: seq<Mutex>)
    requires AllBefore(g, m) && Disciplined(rest, g + [m])
    ensures Disciplined([Acquire(m)] + rest, g)
  {
    assert ([Acquire(m)] + rest)[1..] == rest;
  }

  lemma GiveThen(m: Mutex, rest: seq<LockOp>, g: seq<Mutex>)
    requires Disciplined(rest, g)
    ensures Disciplined([Release(m)] + rest, g + [m])
  {
    assert ([Release(m)] + rest)[1..] == rest && (g + [m])[..|g|] == g;
  }

  lemma CallThen(m: Mutex, rest: seq<LockOp>, g: seq<Mutex>)
    requires AllBefore(g, m) && Disciplined(rest, g)
    ensures Disciplined([Acquire(m), Release(m)] + rest, g)
  {
    GiveThen(m, rest, g);
    TakeThen(m, [Release(m)] + rest, g);
    assert [Acquire(m), Release(m)] + rest == [Acquire(m)] + ([Release(m)] + rest);
  }

  lemma NestedThen(rest: seq<LockOp>)
    requires Disciplined(rest, [])
    ensures Disciplined(STORE_UNDER_WALLET + rest, [])
  {
    GiveThen(Wallet, rest, []);
    assert [] + [Wallet] == [Wallet];
    CallThen(Store, [Release(Wallet)] + rest, [Wallet]);
    TakeThen(Wallet, [Acquire(Store), Release(Store)] + ([Release(Wallet)] + rest), []);
    assert STORE_UNDER_WALLET + rest ==
           [Acquire(Wallet)] + ([Acquire(Store), Release(Store)] + ([Release(Wallet)] + rest));
  }

  lemma Associate<T>(xs: seq<T>, ys: seq<T>, zs: seq<T>)
    ensures (xs + ys) + zs == xs + (ys + zs)
  {
  }

  lemma TakeSplit<T>(xs: seq<T>, k: nat)
    requires 0 < k <= |xs|
    ensures xs[..k] == [xs[0]] + xs[1..][..k - 1]
  {
  }

  lemma {:induction false} RepeatThen(m: Mutex, n: nat, rest: seq<LockOp>, g: seq<Mutex>)
    requires AllBefore(g, m) && Disciplined(rest, g)
    ensures Disciplined(Repeat([Acquire(m), Release(m)], n) + rest, g)
  {
    var call := [Acquire(m), Release(m)];
    if n == 0 {
      assert Repeat(call, n) + rest == rest;
    } else {
      RepeatThen(m, n - 1, rest, g);
      CallThen(m, Repeat(call, n - 1) + rest, g);
      Associate(call, Repeat(call, n - 1), rest);
    }
  }

  lemma StoreCallDisciplined()
    ensures Disciplined(STORE_CALL, [])
  {
    CallThen(Store, [], []);
    assert STORE_CALL + [] == STORE_CALL;
  }

  lemma CreateDisciplined(polls: nat)
    ensures Disciplined(Ops(CreateSwap(polls)), [])
  {
    var tail := Repeat(WALLET_CALL, polls) + STORE_CALL;
    StoreCallDisciplined();
    RepeatThen(Wallet, polls, STORE_CALL, []);
    NestedThen(tail);
    CallThen(Wallet, STORE_UNDER_WALLET + tail, []);
    CallThen(Store, WALLET_CALL + (STORE_UNDER_WALLET + tail), []);
  }

  lemma RefundPassDisciplined(refunds: nat)
    ensures Disciplined(Ops(RefundPass(refunds)), [])
  {
    var last := [Release(Wallet)];
    GiveThen(Wallet, [], []);
    assert last + [] == last && [] + [Wallet] == [Wallet];
    RepeatThen(Store, refunds, last, [Wallet]);
    CallThen(Store, Repeat(STORE_CALL, refunds) + last, [Wallet]);
    TakeThen(Wallet, STORE_CALL + (Repeat(STORE_CALL, refunds) + last), []);
  }

  /** Every code path takes the wallet before the store and never a lock it holds. */
  lemma PathDisciplined(p: CodePath)
    ensures Disciplined(Ops(p), [])
  {
    StoreCallDisciplined();
    match p
    case Read =>
    case CreateLinked => CallThen(Store, STORE_CALL, []);
    case CreateSwap(polls) => CreateDisciplined(polls);
    case Pay => CallThen(Store, STORE_CALL, []);
    case Claim =>
      NestedThen([]);
      assert STORE_UNDER_WALLET + [] == STORE_UNDER_WALLET;
      CallThen(Store, STORE_UNDER_WALLET, []);
    case RefundPass(refunds) => RefundPassDisciplined(refunds);
  }

  lemma {:induction false} UnwindDisciplined(g: seq<Mutex>)
    ensures Disciplined(Unwind(g), g)
  {
    if g != [] {
      UnwindDisciplined(g[..|g| - 1]);
      assert Unwind(g)[1..] == Unwind(g[..|g| - 1]);
    }
  }

  lemma GuardsSnoc(ops: seq<LockOp>, op: LockOp)
    ensures Guards(ops + [op]) == GuardsAfter(Guards(ops), op)
  {
    assert (ops + [op])[..|ops|] == ops;
  }

  /** Cutting a disciplined path short anywhere and dropping the guards is disciplined. */
  lemma {:induction false} ExitDisciplined(done: seq<LockOp>, ops: seq<LockOp>, k: nat)
    requires Disciplined(ops, Guards(done)) && k <= |ops|
    ensures Disciplined(ops[..k] + Unwind(Guards(done + ops[..k])), Guards(done))
    decreases k
  {
    if k == 0 {
      assert done + ops[..0] == done && ops[..0] + Unwind(Guards(done)) == Unwind(Guards(done));
      UnwindDisciplined(Guards(done));
    } else {
      GuardsSnoc(done, ops[0]);
      ExitDisciplined(done + [ops[0]], ops[1..], k - 1);
      TakeSplit(ops, k);
      Associate(done, [ops[0]], ops[1..][..k - 1]);
      var rest := ops[1..][..k - 1] + Unwind(Guards(done + ops[..k]));
      Associate([ops[0]], ops[1..][..k - 1], Unwind(Guards(done + ops[..k])));
      assert ([ops[0]] + rest)[1..] == rest;
    }
  }

  /** What a task may run: a code path to its end or to an early exit. */
  ghost predicate IsTaskBody(ops: seq<LockOp>) {
    exists p: CodePath, k: nat :: k <= |Ops(p)| && ops == ExitAfter(Ops(p), k)
  }

  lemma TaskBodyDisciplined(ops: seq<LockOp>)
    requires IsTaskBody(ops)
    ensures Disciplined(ops, [])
  {
    var p: CodePath, k: nat :| k <= |Ops(p)| && ops == ExitAfter(Ops(p), k);
    PathDisciplined(p);
    ExitDisciplined([], Ops(p), k);
    assert [] + Ops(p)[..k] == Ops(p)[..k];
  }

  // ----- tasks and locks

  /** `todo` is what each task still has to do, `guards` what it holds. */
  datatype LockState = LockState(
    owner: map<Mutex, TaskId>,
    todo: map<TaskId, seq<LockOp>>,
    guards: map<TaskId, seq<Mutex>>)

  predicate Waiting(s: LockState, t: TaskId) {
    t in s.todo && s.todo[t] != [] && s.todo[t][0].Acquire? && s.todo[t][0].m in s.owner
  }

  predicate CanStep(s: LockState, t: TaskId) {
    t in s.todo && s.todo[t] != [] && t in s.guards && !Waiting(s, t)
  }

  function TaskStep(s: LockState, t: TaskId): LockState
    requires CanStep(s, t)
  {
    var op := s.todo[t][0];
    LockState(if op.Acquire? then s.owner[op.m := t] else s.owner - {op.m},
              s.todo[t := s.todo[t][1..]],
              s.guards[t := GuardsAfter(s.guards[t], op)])
  }

  function Spawn(s: LockState, t: TaskId, ops: seq<LockOp>): LockState {
    LockState(s.owner, s.todo[t := ops], s.guards[t := []])
  }

  datatype LockAction = Go(t: TaskId) | Start(t: TaskId, ops: seq<LockOp>)

  ghost predicate LockEnabled(s: LockState, a: LockAction) {
    match a
    case Go(t) => CanStep(s, t)
    case Start(t, ops) => t !in s.todo && IsTaskBody(ops)
  }

  function LockApply(s: LockState, a: LockAction): LockState
    requires LockEnabled(s, a)
  {
    match a
    case Go(t) => TaskStep(s, t)
    case Start(t, ops) => Spawn(s, t, ops)
  }

  predicate TodoDisciplined(s: LockState) {
    s.guards.Keys == s.todo.Keys && forall t :: t in s.todo ==> t in s.guards && Disciplined(s.todo[t], s.guards[t])
  }

  predicate OwnersHold(s: LockState) {
    forall m :: m in s.owner ==> s.owner[m] in s.todo && s.owner[m] in s.guards && m in s.guards[s.owner[m]]
  }

  predicate GuardsOwned(s: LockState) {
    forall t, i :: t in s.guards && 0 <= i < |s.guards[t]| ==> s.guards[t][i] in s.owner && s.owner[s.guards[t][i]] == t
  }

  predicate GuardsOrdered(s: LockState) {
    forall t, i, j :: t in s.guards && 0 <= i < j < |s.guards[t]| ==> Before(s.guards[t][i], s.guards[t][j])
  }

  /** Owners hold the guard, guards are owned, and what is left to do is disciplined. */
  predicate LockInv(s: LockState) {
    TodoDisciplined(s) && OwnersHold(s) && GuardsOwned(s) && GuardsOrdered(s)
  }

  lemma AcquiresInOrder(s: LockState, t: TaskId)
    requires TodoDisciplined(s) && CanStep(s, t) && s.todo[t][0].Acquire?
    ensures AllBefore(s.guards[t], s.todo[t][0].m) && s.todo[t][0].m !in s.owner
    ensures TodoDisciplined(TaskStep(s, t))
  {
    assert Disciplined(s.todo[t], s.guards[t]);
  }

  lemma AcquireKeepsOwners(s: LockState, t: TaskId)
    requires TodoDisciplined(s) && OwnersHold(s) && CanStep(s, t) && s.todo[t][0].Acquire?
    ensures OwnersHold(TaskStep(s, t))
  {
    var m, g := s.todo[t][0].m, s.guards[t];
    var n := TaskStep(s, t);
    assert n.guards[t] == g + [m];
    assert (g + [m])[|g|] == m;
    forall x | x in n.owner
      ensures n.owner[x] in n.todo && n.owner[x] in n.guards && x in n.guards[n.owner[x]]
    {
      if x != m && s.owner[x] == t {
        assert x in g;
      }
    }
  }

  lemma AcquireKeepsGuards(s: LockState, t: TaskId)
    requires TodoDisciplined(s) && GuardsOwned(s) && GuardsOrdered(s) && CanStep(s, t) && s.todo[t][0].Acquire?
    ensures GuardsOwned(TaskStep(s, t)) && GuardsOrdered(TaskStep(s, t))
  {
    AcquiresInOrder(s, t);
    var n, g := TaskStep(s, t), s.guards[t];
    forall i, j | 0 <= i < j < |n.guards[t]|
      ensures Before(n.guards[t][i], n.guards[t][j])
    {
      assert g[i] in g;
    }
  }

  lemma AcquireKeepsInv(s: LockState, t: TaskId)
    requires LockInv(s) && CanStep(s, t) && s.todo[t][0].Acquire?
    ensures LockInv(TaskStep(s, t))
  {
    AcquiresInOrder(s, t);
    AcquireKeepsOwners(s, t);
    AcquireKeepsGuards(s, t);
  }

  lemma ReleasesNewest(s: LockState, t: TaskId)
    requires TodoDisciplined(s) && CanStep(s, t) && s.todo[t][0].Release?
    ensures var g := s.guards[t]; g != [] && g[|g| - 1] == s.todo[t][0].m
    ensures TodoDisciplined(TaskStep(s, t))
  {
    assert Disciplined(s.todo[t], s.guards[t]);
  }

  lemma ReleaseKeepsOwners(s: LockState, t: TaskId)
    requires TodoDisciplined(s) && OwnersHold(s) && CanStep(s, t) && s.todo[t][0].Release?
    ensures OwnersHold(TaskStep(s, t))
  {
    ReleasesNewest(s, t);
    var n, g := TaskStep(s, t), s.guards[t];
    forall x | x in n.owner
      ensures n.owner[x] in n.todo && n.owner[x] in n.guards && x in n.guards[n.owner[x]]
    {
      if s.owner[x] == t {
        var i :| 0 <= i < |g| && g[i] == x;
        assert n.guards[t][i] == x;
      }
    }
  }

  lemma ReleaseKeepsGuards(s: LockState, t: TaskId)
    requires TodoDisciplined(s) && GuardsOwned(s) && GuardsOrdered(s) && CanStep(s, t) && s.todo[t][0].Release?
    ensures GuardsOwned(TaskStep(s, t)) && GuardsOrdered(TaskStep(s, t))
  {
    ReleasesNewest(s, t);
    var n, g := TaskStep(s, t), s.guards[t];
    forall u, i | u in n.guards && 0 <= i < |n.guards[u]|
      ensures n.guards[u][i] in n.owner && n.owner[n.guards[u][i]] == u
    {
      if u == t {
        assert Before(g[i], g[|g| - 1]);
      }
    }
  }

  lemma ReleaseKeepsInv(s: LockState, t: TaskId)
    requires LockInv(s) && CanStep(s, t) && s.todo[t][0].Release?
    ensures LockInv(TaskStep(s, t))
  {
    ReleasesNewest(s, t);
    ReleaseKeepsOwners(s, t);
    ReleaseKeepsGuards(s, t);
  }

  lemma SpawnKeepsInv(s: LockState, t: TaskId, ops: seq<LockOp>)
    requires LockInv(s) && t !in s.todo && IsTaskBody(ops)
    ensures LockInv(Spawn(s, t, ops))
  {
    TaskBodyDisciplined(ops);
  }

  lemma LockInvStep(s: LockState, a: LockAction)
    requires LockInv(s) && LockEnabled(s, a)
    ensures LockInv(LockApply(s, a))
  {
    match a
    case Go(t) =>
      if s.todo[t][0].Acquire? {
        AcquireKeepsInv(s, t);
      } else {
        ReleaseKeepsInv(s, t);
      }
    case Start(t, ops) => SpawnKeepsInv(s, t, ops);
  }

  ghost predicate IsLockRun(run: seq<LockState>, acts: seq<LockAction>) {
    && |run| == |acts| + 1 && run[0] == LockState(map[], map[], map[])
    && forall i {:trigger acts[i]} :: 0 <= i < |acts| ==>
         LockEnabled(run[i], acts[i]) && run[i + 1] == LockApply(run[i], acts[i])
  }

  lemma {:induction false} LockRunKeepsInv(run: seq<LockState>, acts: seq<LockAction>, i: nat)
    requires IsLockRun(run, acts) && i < |run|
    ensures LockInv(run[i])
  {
    if i > 0 {
      LockRunKeepsInv(run, acts, i - 1);
      LockInvStep(run[i - 1], acts[i - 1]);
    }
  }

  // ----- no deadlock

  predicate Unfinished(s: LockState, t: TaskId) {
    t in s.todo && s.todo[t] != []
  }

  /** A task that holds the last lock in order never waits. */
  lemma StoreHolderRuns(s: LockState)
    requires LockInv(s) && Store in s.owner
    ensures CanStep(s, s.owner[Store])
  {
    var t := s.owner[Store];
    assert Disciplined(s.todo[t], s.guards[t]) && Store in s.guards[t];
  }

  lemma WalletHolderRuns(s: LockState)
    requires LockInv(s) && Wallet in s.owner && Store !in s.owner
    ensures CanStep(s, s.owner[Wallet])
  {
    var t := s.owner[Wallet];
    assert Disciplined(s.todo[t], s.guards[t]) && Wallet in s.guards[t];
  }

  /** While some task waits, some lock holder does not; while any task is unfinished, some task can step. */
  lemma NeverStuck(s: LockState, waiting: TaskId) returns (t: TaskId)
    requires LockInv(s) && Unfinished(s, waiting)
    ensures CanStep(s, t)
    ensures Waiting(s, waiting) ==> s.guards[t] != []
  {
    if Store in s.owner {
      StoreHolderRuns(s);
      t := s.owner[Store];
    } else if Wallet in s.owner {
      WalletHolderRuns(s);
      t := s.owner[Wallet];
    } else {
      t := waiting;
    }
  }

  /** Deadlock freedom, in every reachable state of any number of tasks. */
  lemma NoDeadlock(run: seq<LockState>, acts: seq<LockAction>, i: nat, waiting: TaskId) returns (t: TaskId)
    requires IsLockRun(run, acts) && i < |run| && Unfinished(run[i], waiting)
    ensures CanStep(run[i], t)
    ensures Waiting(run[i], waiting) ==> run[i].guards[t] != []
  {
    LockRunKeepsInv(run, acts, i);
    t := NeverStuck(run[i], waiting);
  }

  /** The order matters: one task that took the store first could deadlock with a claim. */
  lemma ReverseOrderDeadlocks()
    ensures var reverse := [Acquire(Store), Acquire(Wallet), Release(Wallet), Release(Store)];
            var s := LockState(map[], map[0 := STORE_UNDER_WALLET, 1 := reverse], map[0 := [], 1 := []]);
            && CanStep(s, 0) && CanStep(TaskStep(s, 0), 1)
            && var stuck := TaskStep(TaskStep(s, 0), 1);
               Waiting(stuck, 0) && Waiting(stuck, 1) && forall t :: !CanStep(stuck, t)
  {
    var reverse := [Acquire(Store), Acquire(Wallet), Release(Wallet), Release(Store)];
    assert STORE_UNDER_WALLET[1..][0] == Acquire(Store) && reverse[1..][0] == Acquire(Wallet);
  }
}
