/**
 Which broadcast fundings get a record.
 */
module FundingRecords {
  import opened Types
  import opened Records
  import opened Store
  import opened Protocol
  import opened Invariant
  import InvariantHtlc
  import Safety

  // ----- insertion cannot fail

  lemma FundedStorable(w: World, q: QuoteRecord, f: FundedHtlc)
    requires QuoteOk(w, q) && MadeFrom(q, f)
    ensures SwapStorable(NewRecord(f.terms))
  {
  }

  /** In every reachable state a funded call can insert its record: it fits the store, under a new id. */
  lemma InsertionNeverFails(w: World, run: seq<State>, acts: seq<Action>, i: nat, t: TaskId)
    requires WorldOk(w) && IsRun(w, run, acts) && i < |run| && t in run[i].tasks && run[i].tasks[t].CreateFunded?
    ensures Enabled(w, run[i], Insert(t))
  {
    Safety.RunKeepsInv(w, run, acts, i);
    InsertionNeverFailsAt(w, run[i], t);
  }

  lemma InsertionNeverFailsAt(w: World, s: State, t: TaskId)
    requires TasksOk(w, s) && QuotesOk(w, s) && FreshOk(s) && t in s.tasks && s.tasks[t].CreateFunded?
    ensures Enabled(w, s, Insert(t))
  {
    assert TaskOk(w, s, s.tasks[t]);
    var f := s.funded[s.tasks[t].record.terms.swapId];
    FundedStorable(w, s.quotes[f.terms.quoteId], f);
  }

  // ----- which HTLCs have a record

  predicate PendingIn(k: Task, id: Id) {
    k.CreateFunded? && k.record.terms.swapId == id
  }

  predicate RecordPending(s: State, id: Id) {
    exists t :: t in s.tasks && PendingIn(s.tasks[t], id)
  }

  /** The HTLC has its row, or the call that funded it is about to insert it. */
  predicate Recorded(s: State, id: Id) {
    id in s.swaps || RecordPending(s, id)
  }

  ghost predicate FundsId(w: World, s: State, a: Action, id: Id) {
    FundsNew(w, s, a) && s.tasks[a.t].swapId == id
  }

  /** The call ends between its funding and its insertion: no reply, a failure or a crash. */
  ghost predicate LosesRecord(w: World, s: State, a: Action, id: Id) {
    || (FundsId(w, s, a, id) && !a.reply.reported)
    || (a.Fail? && a.t in s.tasks && PendingIn(s.tasks[a.t], id))
    || (a.Crash? && RecordPending(s, id))
  }

  /** What the next state owes to the step, as far as records go. */
  ghost predicate RecordStep(w: World, s: State, a: Action, n: State) {
    && SwapsChange(s, a, n) && TasksChange(s, a, n)
    && (a.Fund? && a.t in n.tasks ==> FundsNew(w, s, a) && PendingIn(n.tasks[a.t], s.tasks[a.t].swapId))
    && (a.Fund? ==> a.t in s.tasks && s.tasks[a.t].CreateRead?)
    && (FundsNew(w, s, a) ==> (a.t in n.tasks <==> a.reply.reported))
    && (a.Fail? ==> a.t !in n.tasks)
  }

  lemma FundRecordStep(w: World, s: State, a: Action, n: State)
    requires a.Fund? && Takes(w, s, a, n)
    ensures s.tasks[a.t].CreateRead?
    ensures a.t in n.tasks ==> FundsNew(w, s, a)
    ensures FundsNew(w, s, a) ==> (a.t in n.tasks <==> a.reply.reported)
  {
  }

  lemma StepRecords(w: World, s: State, a: Action, n: State)
    requires Takes(w, s, a, n)
    ensures RecordStep(w, s, a, n)
  {
    SwapsDelta(w, s, a, n);
    TasksDelta(w, s, a, n);
    if a.Fund? {
      FundRecordStep(w, s, a, n);
      InvariantHtlc.FundTaskIs(w, s, a, n);
    }
  }

  lemma PendingTaskKept(w: World, s: State, a: Action, n: State, t: TaskId, id: Id)
    requires RecordStep(w, s, a, n) && t in s.tasks && PendingIn(s.tasks[t], id) && Actor(a) != Some(t) && !a.Crash?
    ensures RecordPending(n, id)
  {
    assert t in n.tasks && PendingIn(n.tasks[t], id);
  }

  lemma PendingKept(w: World, s: State, a: Action, n: State, id: Id)
    requires RecordStep(w, s, a, n) && RecordPending(s, id) && !LosesRecord(w, s, a, id)
    ensures Recorded(n, id)
  {
    var t :| t in s.tasks && PendingIn(s.tasks[t], id);
    if Actor(a) != Some(t) {
      PendingTaskKept(w, s, a, n, t, id);
    }
  }

  /** Where a pending record of the next state comes from. */
  lemma PendingBefore(w: World, s: State, a: Action, n: State, u: TaskId, id: Id)
    requires RecordStep(w, s, a, n) && u in n.tasks && PendingIn(n.tasks[u], id)
    ensures !a.Crash?
    ensures (u in s.tasks && PendingIn(s.tasks[u], id) && Actor(a) != Some(u)) || (FundsId(w, s, a, id) && u == a.t)
  {
  }

  lemma LostPending(w: World, s: State, a: Action, n: State, id: Id)
    requires RecordStep(w, s, a, n) && LocksOk(s) && FreshOk(s) && id in s.funded && LosesRecord(w, s, a, id)
    ensures !Recorded(n, id)
  {
    forall u | u in n.tasks
      ensures !PendingIn(n.tasks[u], id)
    {
      NotPendingAfter(w, s, a, n, id, u);
    }
  }

  lemma NotPendingAfter(w: World, s: State, a: Action, n: State, id: Id, u: TaskId)
    requires RecordStep(w, s, a, n) && LocksOk(s) && FreshOk(s) && id in s.funded && LosesRecord(w, s, a, id)
    requires u in n.tasks
    ensures !PendingIn(n.tasks[u], id)
  {
    if PendingIn(n.tasks[u], id) {
      PendingBefore(w, s, a, n, u, id);
      assert false;
    }
  }

  lemma UnrecordedStays(w: World, s: State, a: Action, n: State, id: Id)
    requires RecordStep(w, s, a, n) && FreshOk(s) && id in s.funded && !Recorded(s, id)
    ensures !Recorded(n, id)
  {
    forall u | u in n.tasks
      ensures !PendingIn(n.tasks[u], id)
    {
      if PendingIn(n.tasks[u], id) {
        PendingBefore(w, s, a, n, u, id);
        assert false;
      }
    }
    assert a.Insert? ==> !PendingIn(s.tasks[a.t], id);
  }

  lemma SwapNotLost(w: World, s: State, a: Action, id: Id)
    requires FreshOk(s) && SwapsFunded(s) && id in s.swaps
    ensures !LosesRecord(w, s, a, id)
  {
  }

  /** One step, for an HTLC that was there before it. */
  lemma RecordedStepIff(w: World, s: State, a: Action, n: State, id: Id)
    requires RecordStep(w, s, a, n) && LocksOk(s) && FreshOk(s) && SwapsFunded(s) && id in s.funded
    ensures Recorded(n, id) <==> Recorded(s, id) && !LosesRecord(w, s, a, id)
  {
    if id in s.swaps {
      SwapNotLost(w, s, a, id);
    } else if LosesRecord(w, s, a, id) {
      LostPending(w, s, a, n, id);
    } else if RecordPending(s, id) {
      PendingKept(w, s, a, n, id);
    } else {
      UnrecordedStays(w, s, a, n, id);
    }
  }

  /** And for the one it funds. */
  lemma FundedRecordedIff(w: World, s: State, a: Action, n: State, id: Id)
    requires RecordStep(w, s, a, n) && FundsId(w, s, a, id) && FreshOk(s) && SwapsFunded(s) && TasksOk(w, s)
    ensures Recorded(n, id) <==> !LosesRecord(w, s, a, id)
  {
    forall u | u in s.tasks
      ensures !PendingIn(s.tasks[u], id)
    {
      assert TaskOk(w, s, s.tasks[u]);
    }
    if a.reply.reported {
      assert PendingIn(n.tasks[a.t], id);
    }
  }

  // ----- over a run

  ghost predicate RecordLost(w: World, run: seq<State>, acts: seq<Action>, i: nat, id: Id) {
    exists m {:trigger LosesRecord(w, run[m], acts[m], id)} ::
      0 <= m < i && i < |run| && m < |acts| && LosesRecord(w, run[m], acts[m], id)
  }

  lemma RunLossIsOfFunded(w: World, run: seq<State>, acts: seq<Action>, m: nat, id: Id)
    requires WorldOk(w) && IsRun(w, run, acts) && m < |acts| && LosesRecord(w, run[m], acts[m], id)
    ensures id in run[m + 1].funded
  {
    Safety.RunKeepsInv(w, run, acts, m);
    Safety.RunStep(w, run, acts, m + 1);
    LossIsOfFunded(w, run[m], acts[m], run[m + 1], id);
  }

  lemma NotLostEarlier(w: World, run: seq<State>, acts: seq<Action>, m: nat, i: nat, id: Id)
    requires WorldOk(w) && IsRun(w, run, acts) && m < i < |run| && id !in run[i].funded
    ensures !LosesRecord(w, run[m], acts[m], id)
  {
    if id in run[m + 1].funded {
      Safety.FundedStays(w, run, acts, m + 1, i, id);
      assert false;
    } else if LosesRecord(w, run[m], acts[m], id) {
      RunLossIsOfFunded(w, run, acts, m, id);
      assert false;
    }
  }

  /** No record is lost before its HTLC is funded. */
  lemma NothingLostYet(w: World, run: seq<State>, acts: seq<Action>, i: nat, id: Id)
    requires WorldOk(w) && IsRun(w, run, acts) && i < |run| && id !in run[i].funded
    ensures !RecordLost(w, run, acts, i, id)
  {
    forall m: nat | m < i
      ensures !LosesRecord(w, run[m], acts[m], id)
    {
      NotLostEarlier(w, run, acts, m, i, id);
    }
  }

  lemma LossIsOfFunded(w: World, s: State, a: Action, n: State, id: Id)
    requires TasksOk(w, s) && FreshOk(s) && Takes(w, s, a, n) && LosesRecord(w, s, a, id)
    ensures id in n.funded
  {
    FundedDelta(w, s, a, n);
    forall t | t in s.tasks && PendingIn(s.tasks[t], id)
      ensures id in s.funded
    {
      assert TaskOk(w, s, s.tasks[t]);
    }
  }

  /** An HTLC is recorded after the step iff it was, unless funded only now, and the step does not lose the record. */
  ghost predicate RecordChange(w: World, s: State, a: Action, n: State, id: Id) {
    Recorded(n, id) <==> (id in s.funded ==> Recorded(s, id)) && !LosesRecord(w, s, a, id)
  }

  /** A run step, for an HTLC that it or an earlier step funds. */
  lemma RunRecordedStep(w: World, run: seq<State>, acts: seq<Action>, i: nat, id: Id)
    requires WorldOk(w) && IsRun(w, run, acts) && 0 < i < |run| && id in run[i].funded
    ensures RecordChange(w, run[i - 1], acts[i - 1], run[i], id)
  {
    Safety.RunKeepsInv(w, run, acts, i - 1);
    Safety.RunStep(w, run, acts, i);
    RecordedAfterIff(w, run[i - 1], acts[i - 1], run[i], id);
  }

  lemma RecordedAfterIff(w: World, s: State, a: Action, n: State, id: Id)
    requires LocksOk(s) && FreshOk(s) && SwapsFunded(s) && TasksOk(w, s)
    requires Takes(w, s, a, n) && id in n.funded
    ensures RecordChange(w, s, a, n, id)
  {
    StepRecords(w, s, a, n);
    FundedDelta(w, s, a, n);
    if id in s.funded {
      RecordedStepIff(w, s, a, n, id);
    } else {
      FundedRecordedIff(w, s, a, n, id);
    }
  }

  /**
   In every reachable state a broadcast funding has its record, or is about to get it,
   exactly when its call did not end between the broadcast and the insertion.
   */
  lemma {:induction false} FundedHasRecordIff(w: World, run: seq<State>, acts: seq<Action>, i: nat, id: Id)
    requires WorldOk(w) && IsRun(w, run, acts) && i < |run| && id in run[i].funded
    ensures Recorded(run[i], id) <==> !RecordLost(w, run, acts, i, id)
  {
    if i == 0 {
      assert false;
    } else {
      if id in run[i - 1].funded {
        FundedHasRecordIff(w, run, acts, i - 1, id);
      } else {
        NothingLostYet(w, run, acts, i - 1, id);
      }
      RunRecordedStep(w, run, acts, i, id);
      LostBySteps(w, run, acts, i, id);
    }
  }

  lemma LostBySteps(w: World, run: seq<State>, acts: seq<Action>, i: nat, id: Id)
    requires 0 < i < |run| && |run| == |acts| + 1 && RecordChange(w, run[i - 1], acts[i - 1], run[i], id)
    requires (id in run[i - 1].funded ==> Recorded(run[i - 1], id)) <==> !RecordLost(w, run, acts, i - 1, id)
    ensures Recorded(run[i], id) <==> !RecordLost(w, run, acts, i, id)
  {
  }
}
