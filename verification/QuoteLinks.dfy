/**
 The link from a quote to its swap when create_swap calls on that quote do not overlap.
 Everything else, calls on other quotes included, interleaves freely.
 */
module QuoteLinks {
  import opened Types
  import opened Records
  import opened Protocol
  import opened Invariant
  import Safety

  /** The quote a create_swap call is working on and has not linked yet. */
  function Linking(k: Task): Option<Id> {
    match k
    case CreateRead(q, _, _, _, _) => Some(q.quoteId)
    case CreateFunded(r) => Some(r.terms.quoteId)
    case CreateInserted(_, quoteId) => Some(quoteId)
    case _ => None
  }

  predicate LinkingOn(k: Task, qid: Id) {
    Linking(k) == Some(qid)
  }

  /** At most one create_swap call is working on the quote. */
  predicate OneLinking(s: State, qid: Id) {
    forall t, u :: t in s.tasks && u in s.tasks && LinkingOn(s.tasks[t], qid) && LinkingOn(s.tasks[u], qid) ==> t == u
  }

  predicate Unlinked(s: State, qid: Id) {
    qid in s.quotes && s.quotes[qid].swapId.None?
  }

  /** A call that still has to link the quote finds it unlinked. */
  predicate LinkingUnlinked(s: State, qid: Id) {
    forall t :: t in s.tasks && LinkingOn(s.tasks[t], qid) ==> Unlinked(s, qid)
  }

  predicate LinkKept(s: State, n: State, qid: Id) {
    qid in s.quotes ==> qid in n.quotes && (s.quotes[qid].swapId.Some? ==> n.quotes[qid].swapId == s.quotes[qid].swapId)
  }

  lemma ChangeKeepsLink(s: State, a: Action, n: State, qid: Id)
    requires QuotesChange(s, a, n) && LinkingUnlinked(s, qid)
    ensures LinkKept(s, n, qid)
  {
    if a.Link? && s.tasks[a.t].quoteId == qid {
      assert LinkingOn(s.tasks[a.t], qid);
    }
  }

  /** What the acting task still has to link, it already had to, or it just found unlinked. */
  predicate ActorLinking(s: State, a: Action, n: State)
    requires Actor(a).Some?
  {
    a.t in n.tasks && Linking(n.tasks[a.t]).Some? ==>
      && !a.Link?
      && (|| (a.t in s.tasks && Linking(s.tasks[a.t]) == Linking(n.tasks[a.t]))
          || (a.t !in s.tasks && Unlinked(s, Linking(n.tasks[a.t]).value)))
  }

  lemma BeginLinking(w: World, s: State, a: Action, n: State)
    requires Begins(a) && QuotesOk(w, s) && Takes(w, s, a, n)
    ensures ActorLinking(s, a, n)
  {
  }

  lemma FundLinking(w: World, s: State, a: Action, n: State)
    requires a.Fund? && Takes(w, s, a, n)
    ensures ActorLinking(s, a, n)
  {
  }

  lemma InsertLinking(w: World, s: State, a: Action, n: State)
    requires a.Insert? && Takes(w, s, a, n)
    ensures ActorLinking(s, a, n)
  {
  }

  /** Any other action leaves its task with nothing to link. */
  lemma OtherLinking(s: State, a: Action, n: State)
    requires Actor(a).Some? && !Begins(a) && !a.Fund? && !a.Insert? && ActorMoves(s, a, n)
    ensures ActorLinking(s, a, n)
  {
  }

  lemma ActorLinkingStep(w: World, s: State, a: Action, n: State)
    requires QuotesOk(w, s) && Actor(a).Some? && Takes(w, s, a, n)
    ensures ActorLinking(s, a, n)
  {
    if Begins(a) {
      BeginLinking(w, s, a, n);
    } else if a.Fund? {
      FundLinking(w, s, a, n);
    } else if a.Insert? {
      InsertLinking(w, s, a, n);
    } else {
      TasksDelta(w, s, a, n);
      OtherLinking(s, a, n);
    }
  }

  /** The call that links the quote was the only one working on it. */
  lemma LinkerWasLast(s: State, a: Action, n: State, qid: Id)
    requires a.Link? && QuotesChange(s, a, n) && TasksChange(s, a, n) && ActorLinking(s, a, n)
    requires OneLinking(s, qid) && s.tasks[a.t].quoteId == qid
    ensures forall t :: t in n.tasks ==> !LinkingOn(n.tasks[t], qid)
  {
    assert LinkingOn(s.tasks[a.t], qid);
  }

  lemma ChangeKeepsUnlinked(s: State, a: Action, n: State, qid: Id)
    requires QuotesChange(s, a, n) && LinkingUnlinked(s, qid) && OneLinking(s, qid)
    requires TasksChange(s, a, n) && (Actor(a).Some? ==> ActorLinking(s, a, n))
    ensures LinkingUnlinked(n, qid)
  {
    if a.Link? && s.tasks[a.t].quoteId == qid {
      LinkerWasLast(s, a, n, qid);
    }
  }

  lemma LinkStep(w: World, s: State, a: Action, n: State, qid: Id)
    requires QuotesOk(w, s) && LinkingUnlinked(s, qid) && OneLinking(s, qid) && Takes(w, s, a, n)
    ensures LinkingUnlinked(n, qid) && LinkKept(s, n, qid)
  {
    QuotesDelta(w, s, a, n);
    TasksDelta(w, s, a, n);
    if Actor(a).Some? {
      ActorLinkingStep(w, s, a, n);
    }
    ChangeKeepsLink(s, a, n, qid);
    ChangeKeepsUnlinked(s, a, n, qid);
  }

  /** If an HTLC is newly funded for the quote, the quote is not linked. */
  predicate NoNewFunding(s: State, n: State, qid: Id) {
    forall id :: id in n.funded && id !in s.funded && n.funded[id].terms.quoteId == qid ==> Unlinked(s, qid)
  }

  lemma FundStep(w: World, s: State, a: Action, n: State, qid: Id)
    requires LinkingUnlinked(s, qid) && Takes(w, s, a, n)
    ensures NoNewFunding(s, n, qid)
  {
    FundedDelta(w, s, a, n);
    if FundsNew(w, s, a) && NewHtlc(w, s, a).terms.quoteId == qid {
      assert LinkingOn(s.tasks[a.t], qid);
    }
  }

  // ----- whole runs

  /** A run in which create_swap calls on this quote never overlap; on other quotes they may. */
  ghost predicate IsDisjointRun(w: World, run: seq<State>, acts: seq<Action>, qid: Id) {
    IsRun(w, run, acts) && forall i :: 0 <= i < |run| ==> OneLinking(run[i], qid)
  }

  lemma {:induction false} RunLinkingUnlinked(w: World, run: seq<State>, acts: seq<Action>, i: nat, qid: Id)
    requires WorldOk(w) && IsDisjointRun(w, run, acts, qid) && i < |run|
    ensures LinkingUnlinked(run[i], qid)
  {
    if i > 0 {
      RunLinkingUnlinked(w, run, acts, i - 1, qid);
      RunLinkStep(w, run, acts, i, qid);
    }
  }

  lemma RunLinkStep(w: World, run: seq<State>, acts: seq<Action>, i: nat, qid: Id)
    requires WorldOk(w) && IsDisjointRun(w, run, acts, qid) && 0 < i < |run| && LinkingUnlinked(run[i - 1], qid)
    ensures LinkingUnlinked(run[i], qid) && LinkKept(run[i - 1], run[i], qid) && NoNewFunding(run[i - 1], run[i], qid)
  {
    Safety.RunKeepsInv(w, run, acts, i - 1);
    Safety.RunStep(w, run, acts, i);
    LinkStep(w, run[i - 1], acts[i - 1], run[i], qid);
    FundStep(w, run[i - 1], acts[i - 1], run[i], qid);
  }

  /**
   Once linked, a quote keeps that link for the rest of the run, and no further HTLC is
   funded for it: every later create_swap call can only return the linked swap.
   */
  lemma {:induction false} QuoteLinkedOnce(w: World, run: seq<State>, acts: seq<Action>, i: nat, j: nat, qid: Id)
    requires WorldOk(w) && IsDisjointRun(w, run, acts, qid) && i <= j < |run|
    requires qid in run[i].quotes && run[i].quotes[qid].swapId.Some?
    ensures qid in run[j].quotes && run[j].quotes[qid].swapId == run[i].quotes[qid].swapId
    ensures forall id :: id in run[j].funded && run[j].funded[id].terms.quoteId == qid ==> id in run[i].funded
  {
    if i < j {
      QuoteLinkedOnce(w, run, acts, i, j - 1, qid);
      RunLinkingUnlinked(w, run, acts, j - 1, qid);
      RunLinkStep(w, run, acts, j, qid);
      Safety.RunStepGrows(w, run, acts, j);
    }
  }
}
