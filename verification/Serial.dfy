/**
 Runs in which handlers and refund passes do not overlap. Blocks, foreign transactions,
 failures and crashes still come at any point.
 */
module Serial {
  import opened Records
  import opened Store
  import opened Protocol
  import opened Invariant
  import opened StatusOrder
  import InvariantRecord
  import Safety

  /** At most one handler or refund pass is under way. */
  predicate OneTask(s: State) {
    forall t, u :: t in s.tasks && u in s.tasks ==> t == u
  }

  ghost predicate IsSerialRun(w: World, run: seq<State>, acts: seq<Action>) {
    IsRun(w, run, acts) && forall i :: 0 <= i < |run| ==> OneTask(run[i])
  }

  /** A preimage is stored just while the swap is Paid or Claimed. */
  predicate Exclusive(r: SwapRecord) {
    && (r.lnPreimage.Some? <==> r.status.Paid? || r.status.Claimed?)
    && (r.claimTxid.Some? <==> r.status.Claimed?)
  }

  predicate StatusOneOf(s: State, id: Id, a: SwapStatus, b: SwapStatus) {
    id in s.swaps && (s.swaps[id].status == a || s.swaps[id].status == b)
  }

  /** The rows a refund pass still has to visit are distinct and up to date. */
  predicate TodoCurrent(s: State, todo: seq<SwapRecord>) {
    && (forall i :: 0 <= i < |todo| ==> todo[i].terms.swapId in s.swaps && s.swaps[todo[i].terms.swapId] == todo[i])
    && (forall i, j :: 0 <= i < j < |todo| ==> todo[i].terms.swapId != todo[j].terms.swapId)
  }

  /** What the task read of the store still holds. */
  predicate TaskCurrent(s: State, k: Task) {
    match k
    case CreateRead(_, _, _, _, _) => true
    case CreateFunded(_) => true
    case CreateInserted(id, _) => StatusOneOf(s, id, Created, Created)
    case CreateWait(terms) => StatusOneOf(s, terms.swapId, Created, Created)
    case PayRead(terms) => StatusOneOf(s, terms.swapId, SwapStatus.Funded, SwapStatus.Funded)
    case ClaimRead(terms, _, _) => StatusOneOf(s, terms.swapId, Paid, Paid)
    case ClaimSent(terms, _) => StatusOneOf(s, terms.swapId, Paid, Paid)
    case RefundPass(_, todo, _) => TodoCurrent(s, todo)
    case RefundSent(terms, _, todo, _) =>
      && StatusOneOf(s, terms.swapId, Created, SwapStatus.Funded)
      && TodoCurrent(s, todo)
      && forall i :: 0 <= i < |todo| ==> todo[i].terms.swapId != terms.swapId
  }

  predicate RecordsExclusive(s: State) {
    forall id :: id in s.swaps ==> Exclusive(s.swaps[id])
  }

  predicate TasksCurrent(s: State) {
    forall t :: t in s.tasks ==> TaskCurrent(s, s.tasks[t])
  }

  // ----- one step

  /** An update a lone task makes: it meets the status the task read. */
  predicate WriteCurrent(s: State, a: Action) {
    UpdateOf(s, a).Some? ==>
      && UpdateOf(s, a).value.id in s.swaps
      && var status := s.swaps[UpdateOf(s, a).value.id].status;
         && (a.MarkFunded? ==> status.Created?)
         && (a.PersistPayment? ==> status.Funded?)
         && (a.PersistClaim? ==> status.Paid?)
         && (a.PersistRefund? ==> status.Created? || status.Funded?)
  }

  lemma EnabledWriteCurrent(w: World, s: State, a: Action)
    requires TasksCurrent(s) && Enabled(w, s, a)
    ensures WriteCurrent(s, a)
  {
    if UpdateOf(s, a).Some? {
      assert TaskCurrent(s, s.tasks[a.t]);
    }
  }

  /** The swap's row is untouched, or its status moves along an edge. */
  predicate RowStep(r: SwapRecord, later: SwapRecord) {
    later == r || (later.terms == r.terms && Edge(r.status, later.status))
  }

  predicate RowSteps(s: State, n: State) {
    forall id :: id in s.swaps ==> id in n.swaps && RowStep(s.swaps[id], n.swaps[id])
  }

  lemma ChangeIsRowStep(s: State, a: Action, n: State)
    requires SwapsChange(s, a, n) && WriteCurrent(s, a)
    ensures RowSteps(s, n)
  {
  }

  lemma ChangeKeepsExclusive(s: State, a: Action, n: State)
    requires SwapsChange(s, a, n) && WriteCurrent(s, a) && RecordsExclusive(s)
    requires a.Insert? ==> Exclusive(s.tasks[a.t].record)
    ensures RecordsExclusive(n)
  {
    forall id | id in n.swaps
      ensures Exclusive(n.swaps[id])
    {
      if id in s.swaps {
        assert Exclusive(s.swaps[id]);
      }
    }
  }

  lemma InsertedExclusive(w: World, s: State, a: Action)
    requires a.Insert? && TasksOk(w, s) && Enabled(w, s, a)
    ensures Exclusive(s.tasks[a.t].record)
  {
    assert TaskOk(w, s, s.tasks[a.t]);
  }

  /** The task acting in `a`, after it, is current. */
  lemma CreateActorCurrent(w: World, s: State, a: Action, n: State)
    requires a.BeginCreate? || a.Fund? || a.Insert? || a.Link? || a.MarkFunded?
    requires TasksOk(w, s) && TasksCurrent(s) && Takes(w, s, a, n)
    ensures a.t in n.tasks ==> TaskCurrent(n, n.tasks[a.t])
  {
    if a.t in s.tasks {
      assert TaskOk(w, s, s.tasks[a.t]) && TaskCurrent(s, s.tasks[a.t]);
    }
  }

  lemma BeginPayCurrent(w: World, s: State, a: Action, n: State)
    requires a.BeginPay? && Takes(w, s, a, n) && s.swaps[a.swapId].terms.swapId == a.swapId
    ensures a.t in n.tasks ==> TaskCurrent(n, n.tasks[a.t])
  {
  }

  lemma BeginClaimCurrent(w: World, s: State, a: Action, n: State)
    requires a.BeginClaim? && RecordsExclusive(s)
    requires Takes(w, s, a, n) && s.swaps[a.swapId].terms.swapId == a.swapId
    ensures a.t in n.tasks ==> TaskCurrent(n, n.tasks[a.t])
  {
    assert Exclusive(s.swaps[a.swapId]);
  }

  lemma BroadcastClaimCurrent(w: World, s: State, a: Action, n: State)
    requires a.BroadcastClaim? && TasksCurrent(s) && Takes(w, s, a, n)
    ensures a.t in n.tasks ==> TaskCurrent(n, n.tasks[a.t])
  {
    assert TaskCurrent(s, s.tasks[a.t]);
  }

  lemma ListingCurrent(s: State, todo: seq<SwapRecord>)
    requires IsListing(s.swaps, todo)
    ensures TodoCurrent(s, todo)
  {
    forall i, j | 0 <= i < j < |todo|
      ensures todo[i].terms.swapId != todo[j].terms.swapId
    {
      IdOrderTotal(todo[i].terms.swapId, todo[i].terms.swapId);
    }
  }

  lemma TodoTail(s: State, todo: seq<SwapRecord>)
    requires TodoCurrent(s, todo) && todo != []
    ensures TodoCurrent(s, todo[1..])
    ensures forall i :: 0 <= i < |todo[1..]| ==> todo[1..][i].terms.swapId != todo[0].terms.swapId
  {
  }

  lemma TodoAfterUpdate(s: State, n: State, todo: seq<SwapRecord>, u: Update)
    requires TodoCurrent(s, todo) && n.swaps == ApplyUpdate(s.swaps, u)
    requires forall i :: 0 <= i < |todo| ==> todo[i].terms.swapId != u.id
    ensures TodoCurrent(n, todo)
  {
  }

  /** The pass goes on with the rest of its list; it may have a refund to record first. */
  lemma RefundNextLeaves(w: World, s: State, a: Action, n: State)
    requires a.RefundNext? && Takes(w, s, a, n)
    ensures a.t in s.tasks && s.tasks[a.t].RefundPass? && s.tasks[a.t].todo != []
    ensures n.swaps == s.swaps && a.t in n.tasks
    ensures var k := s.tasks[a.t];
            || n.tasks[a.t] == RefundPass(k.tip, k.todo[1..], k.fee)
            || (RefundDue(k.todo[0], k.tip) && n.tasks[a.t] == RefundSent(k.todo[0].terms, k.tip, k.todo[1..], k.fee))
  {
  }

  lemma RefundNextCurrent(w: World, s: State, a: Action, n: State)
    requires a.RefundNext? && TasksCurrent(s) && Takes(w, s, a, n)
    ensures a.t in n.tasks ==> TaskCurrent(n, n.tasks[a.t])
  {
    RefundNextLeaves(w, s, a, n);
    assert TaskCurrent(s, s.tasks[a.t]);
    TodoTail(s, s.tasks[a.t].todo);
  }

  lemma RefundActorCurrent(w: World, s: State, a: Action, n: State)
    requires a.BeginRefund? || a.PersistRefund?
    requires TasksCurrent(s) && Takes(w, s, a, n)
    ensures a.t in n.tasks ==> TaskCurrent(n, n.tasks[a.t])
  {
    if a.BeginRefund? {
      ListingCurrent(s, a.todo);
    } else {
      var k := s.tasks[a.t];
      assert TaskCurrent(s, k);
      TodoAfterUpdate(s, n, k.todo, SetStatus(k.terms.swapId, Refunded));
    }
  }

  lemma ActorCurrent(w: World, s: State, a: Action, n: State)
    requires SwapsFunded(s) && HtlcsOk(w, s) && TasksOk(w, s) && RecordsExclusive(s) && TasksCurrent(s)
    requires Actor(a).Some? && Takes(w, s, a, n)
    ensures a.t in n.tasks ==> TaskCurrent(n, n.tasks[a.t])
  {
    if InCreate(a) {
      CreateActorCurrent(w, s, a, n);
    } else if a.BeginPay? {
      InvariantRecord.SwapIdOf(w, s, a.swapId);
      BeginPayCurrent(w, s, a, n);
    } else if a.BeginClaim? {
      InvariantRecord.SwapIdOf(w, s, a.swapId);
      BeginClaimCurrent(w, s, a, n);
    } else if a.BroadcastClaim? {
      BroadcastClaimCurrent(w, s, a, n);
    } else if a.RefundNext? {
      RefundNextCurrent(w, s, a, n);
    } else if a.BeginRefund? || a.PersistRefund? {
      RefundActorCurrent(w, s, a, n);
    } else {
      TasksDelta(w, s, a, n);
    }
  }

  lemma TasksCurrentFrom(s: State, a: Action, n: State)
    requires TasksCurrent(s) && OneTask(s) && SwapsChange(s, a, n)
    requires a.Insert? || UpdateOf(s, a).Some? ==> Actor(a).Some? && a.t in s.tasks
    requires TasksChange(s, a, n)
    requires Actor(a).Some? && a.t in n.tasks ==> TaskCurrent(n, n.tasks[a.t])
    ensures TasksCurrent(n)
  {
  }

  /** What a step has to provide for the next state to be current. */
  ghost predicate StepFacts(s: State, a: Action, n: State) {
    && SwapsChange(s, a, n) && TasksChange(s, a, n) && WriteCurrent(s, a)
    && (a.Insert? ==> Exclusive(s.tasks[a.t].record))
    && (Actor(a).Some? && a.t in n.tasks ==> TaskCurrent(n, n.tasks[a.t]))
  }

  lemma StepProvides(w: World, s: State, a: Action, n: State)
    requires SwapsFunded(s) && HtlcsOk(w, s) && TasksOk(w, s) && RecordsExclusive(s) && TasksCurrent(s)
    requires Takes(w, s, a, n)
    ensures StepFacts(s, a, n)
  {
    SwapsDelta(w, s, a, n);
    TasksDelta(w, s, a, n);
    EnabledWriteCurrent(w, s, a);
    if a.Insert? {
      InsertedExclusive(w, s, a);
    }
    if Actor(a).Some? {
      ActorCurrent(w, s, a, n);
    }
  }

  lemma FactsSuffice(s: State, a: Action, n: State)
    requires OneTask(s) && RecordsExclusive(s) && TasksCurrent(s) && StepFacts(s, a, n)
    ensures RecordsExclusive(n) && TasksCurrent(n) && RowSteps(s, n)
  {
    ChangeKeepsExclusive(s, a, n);
    TasksCurrentFrom(s, a, n);
    ChangeIsRowStep(s, a, n);
  }

  lemma SerialStep(w: World, s: State, a: Action, n: State)
    requires SwapsFunded(s) && HtlcsOk(w, s) && TasksOk(w, s)
    requires OneTask(s) && RecordsExclusive(s) && TasksCurrent(s)
    requires Takes(w, s, a, n)
    ensures RecordsExclusive(n) && TasksCurrent(n) && RowSteps(s, n)
  {
    StepProvides(w, s, a, n);
    FactsSuffice(s, a, n);
  }

  // ----- whole serial runs

  lemma SerialRunStep(w: World, run: seq<State>, acts: seq<Action>, i: nat)
    requires WorldOk(w) && IsSerialRun(w, run, acts) && 0 < i < |run|
    requires RecordsExclusive(run[i - 1]) && TasksCurrent(run[i - 1])
    ensures RecordsExclusive(run[i]) && TasksCurrent(run[i]) && RowSteps(run[i - 1], run[i])
  {
    Safety.RunKeepsInv(w, run, acts, i - 1);
    Safety.RunStep(w, run, acts, i);
    SerialStep(w, run[i - 1], acts[i - 1], run[i]);
  }

  lemma {:induction false} SerialRunCurrent(w: World, run: seq<State>, acts: seq<Action>, i: nat)
    requires WorldOk(w) && IsSerialRun(w, run, acts) && i < |run|
    ensures RecordsExclusive(run[i]) && TasksCurrent(run[i])
  {
    if i > 0 {
      SerialRunCurrent(w, run, acts, i - 1);
      SerialRunStep(w, run, acts, i);
    }
  }

  /** One or more edges. */
  predicate Reaches(a: SwapStatus, b: SwapStatus) {
    || Edge(a, b)
    || (a.Created? && (b.Paid? || b.Claimed?))
    || (a.Funded? && b.Claimed?)
  }

  /**
   Along a serial run a swap's row changes only by moving its status along edges, each
   lowering the rank: it changes at most three times.
   */
  lemma {:induction false} SerialStatusDescends(w: World, run: seq<State>, acts: seq<Action>, i: nat, j: nat, id: Id)
    requires WorldOk(w) && IsSerialRun(w, run, acts) && i <= j < |run| && id in run[i].swaps
    ensures id in run[j].swaps
    ensures var r, later := run[i].swaps[id], run[j].swaps[id];
            later == r || (Reaches(r.status, later.status) && Rank(later.status) < Rank(r.status))
  {
    if i < j {
      SerialStatusDescends(w, run, acts, i, j - 1, id);
      SerialRunCurrent(w, run, acts, j - 1);
      SerialRunStep(w, run, acts, j);
    }
  }

  /** No swap has a persisted preimage in one state of a serial run and is Refunded in another. */
  lemma NeverPaidAndRefunded(w: World, run: seq<State>, acts: seq<Action>, i: nat, j: nat, id: Id)
    requires WorldOk(w) && IsSerialRun(w, run, acts) && i < |run| && j < |run|
    requires id in run[i].swaps && run[i].swaps[id].lnPreimage.Some? && id in run[j].swaps
    ensures !run[j].swaps[id].status.Refunded?
  {
    SerialRunCurrent(w, run, acts, i);
    SerialRunCurrent(w, run, acts, j);
    assert Exclusive(run[i].swaps[id]) && Exclusive(run[j].swaps[id]);
    if i <= j {
      SerialStatusDescends(w, run, acts, i, j, id);
    } else {
      SerialStatusDescends(w, run, acts, j, i, id);
    }
  }
}
