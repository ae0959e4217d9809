/**
 When a quote is funded again.
 */
module QuoteFunding {
  import opened Types
  import opened Records
  import opened Protocol
  import opened Invariant
  import opened FundingRecords
  import Safety

  predicate LinkingIn(k: Task, id: Id) {
    (k.CreateFunded? && k.record.terms.swapId == id) || (k.CreateInserted? && k.swapId == id)
  }

  /** The call that funded the HTLC still has its quote to link, and holds the wallet. */
  predicate LinkPending(s: State, id: Id) {
    exists t :: t in s.tasks && LinkingIn(s.tasks[t], id)
  }

  predicate Linked(s: State, qid: Id) {
    qid in s.quotes && s.quotes[qid].swapId.Some?
  }

  /** The call ends between its funding and its link: no reply, a failure or a crash. */
  ghost predicate CutBeforeLink(w: World, s: State, a: Action, id: Id) {
    || (FundsId(w, s, a, id) && !a.reply.reported)
    || (a.Fail? && a.t in s.tasks && LinkingIn(s.tasks[a.t], id))
    || (a.Crash? && LinkPending(s, id))
  }

  /** A task that links an HTLC works on the quote the HTLC was funded for. */
  lemma LinkerQuote(w: World, s: State, t: TaskId, id: Id)
    requires TasksOk(w, s) && SwapsFunded(s) && t in s.tasks && LinkingIn(s.tasks[t], id)
    ensures id in s.funded
    ensures s.tasks[t].CreateFunded? ==> s.tasks[t].record.terms.quoteId == s.funded[id].terms.quoteId
    ensures s.tasks[t].CreateInserted? ==> s.tasks[t].quoteId == s.funded[id].terms.quoteId
  {
    assert TaskOk(w, s, s.tasks[t]);
  }

  lemma InsertKeepsLinker(w: World, s: State, a: Action, n: State)
    requires a.Insert? && Takes(w, s, a, n)
    ensures a.t in n.tasks && n.tasks[a.t].CreateInserted? && n.tasks[a.t].swapId == s.tasks[a.t].record.terms.swapId
  {
  }

  lemma LinkerGoesOn(s: State, a: Action, n: State, t: TaskId, id: Id, qid: Id)
    requires TasksChange(s, a, n) && QuotesChange(s, a, n) && t in s.tasks && LinkingIn(s.tasks[t], id)
    requires s.tasks[t].CreateInserted? ==> s.tasks[t].quoteId == qid
    requires a.Insert? && a.t == t ==> t in n.tasks && LinkingIn(n.tasks[t], id)
    requires !a.Crash? && !(a.Fail? && a.t == t)
    ensures LinkPending(n, id) || Linked(n, qid)
  {
    if Actor(a) != Some(t) {
      assert t in n.tasks && LinkingIn(n.tasks[t], id);
    }
  }

  /** A pending link is made, stays pending, or is cut. */
  lemma LinkPendingStep(w: World, s: State, a: Action, n: State, id: Id)
    requires TasksOk(w, s) && SwapsFunded(s) && Takes(w, s, a, n)
    requires LinkPending(s, id) && !CutBeforeLink(w, s, a, id)
    ensures id in s.funded && (LinkPending(n, id) || Linked(n, s.funded[id].terms.quoteId))
  {
    var t :| t in s.tasks && LinkingIn(s.tasks[t], id);
    LinkerQuote(w, s, t, id);
    TasksDelta(w, s, a, n);
    QuotesDelta(w, s, a, n);
    if a.Insert? {
      InsertKeepsLinker(w, s, a, n);
    }
    LinkerGoesOn(s, a, n, t, id, s.funded[id].terms.quoteId);
  }

  lemma LinkedStays(s: State, a: Action, n: State, qid: Id)
    requires QuotesChange(s, a, n) && Linked(s, qid)
    ensures Linked(n, qid)
  {
  }

  lemma FundedIsLinking(w: World, s: State, a: Action, n: State, id: Id)
    requires FundsId(w, s, a, id) && Takes(w, s, a, n) && !CutBeforeLink(w, s, a, id)
    ensures LinkPending(n, id)
  {
    StepRecords(w, s, a, n);
    assert LinkingIn(n.tasks[a.t], id);
  }

  /** The HTLC's quote is linked, or about to be. */
  predicate LinkInHand(s: State, id: Id)
    requires id in s.funded
  {
    LinkPending(s, id) || Linked(s, s.funded[id].terms.quoteId)
  }

  ghost predicate SoundStep(w: World, s: State, a: Action, n: State) {
    TasksOk(w, s) && SwapsFunded(s) && FreshOk(s) && Takes(w, s, a, n)
  }

  lemma LinkInHandStep(w: World, s: State, a: Action, n: State, id: Id)
    requires SoundStep(w, s, a, n) && id in n.funded
    requires id in s.funded ==> LinkInHand(s, id)
    requires !CutBeforeLink(w, s, a, id)
    ensures LinkInHand(n, id)
  {
    FundedDelta(w, s, a, n);
    if id !in s.funded {
      FundedIsLinking(w, s, a, n, id);
    } else if LinkPending(s, id) {
      LinkPendingStep(w, s, a, n, id);
    } else {
      QuotesDelta(w, s, a, n);
      LinkedStays(s, a, n, s.funded[id].terms.quoteId);
    }
  }

  ghost predicate LinkCut(w: World, run: seq<State>, acts: seq<Action>, i: nat, id: Id) {
    exists m {:trigger CutBeforeLink(w, run[m], acts[m], id)} ::
      0 <= m < i && i < |run| && m < |acts| && CutBeforeLink(w, run[m], acts[m], id)
  }

  lemma NotCutBefore(w: World, run: seq<State>, acts: seq<Action>, i: nat, id: Id)
    requires 0 < i < |run| && |run| == |acts| + 1 && !LinkCut(w, run, acts, i, id)
    ensures !LinkCut(w, run, acts, i - 1, id) && !CutBeforeLink(w, run[i - 1], acts[i - 1], id)
  {
  }

  lemma RunStepSound(w: World, run: seq<State>, acts: seq<Action>, i: nat)
    requires WorldOk(w) && IsRun(w, run, acts) && 0 < i < |run|
    ensures SoundStep(w, run[i - 1], acts[i - 1], run[i])
  {
    Safety.RunKeepsInv(w, run, acts, i - 1);
    Safety.RunStep(w, run, acts, i);
  }

  predicate HandedOn(s: State, n: State, id: Id) {
    id in n.funded && (id in s.funded ==> LinkInHand(s, id)) ==> LinkInHand(n, id)
  }

  lemma LinkHandedOn(w: World, run: seq<State>, acts: seq<Action>, i: nat, id: Id)
    requires 0 < i < |run| && |run| == |acts| + 1 && SoundStep(w, run[i - 1], acts[i - 1], run[i])
    requires !LinkCut(w, run, acts, i, id)
    ensures HandedOn(run[i - 1], run[i], id)
  {
    NotCutBefore(w, run, acts, i, id);
    if id in run[i].funded && (id in run[i - 1].funded ==> LinkInHand(run[i - 1], id)) {
      LinkInHandStep(w, run[i - 1], acts[i - 1], run[i], id);
    }
  }

  lemma RunHandsOn(w: World, run: seq<State>, acts: seq<Action>, i: nat, id: Id)
    requires WorldOk(w) && IsRun(w, run, acts) && 0 < i < |run| && !LinkCut(w, run, acts, i, id)
    ensures HandedOn(run[i - 1], run[i], id)
  {
    RunStepSound(w, run, acts, i);
    LinkHandedOn(w, run, acts, i, id);
  }

  lemma NotCutEarlier(w: World, run: seq<State>, acts: seq<Action>, j: nat, i: nat, id: Id)
    requires j <= i < |run| && !LinkCut(w, run, acts, i, id)
    ensures !LinkCut(w, run, acts, j, id)
  {
  }

  predicate HandedOnAt(run: seq<State>, j: nat, id: Id)
    requires j + 1 < |run|
  {
    HandedOn(run[j], run[j + 1], id)
  }

  lemma {:induction false} HandedOnSoFar(run: seq<State>, i: nat, id: Id)
    requires i < |run| && id !in run[0].funded && id in run[i].funded
    requires forall j :: 0 <= j < i ==> HandedOnAt(run, j, id)
    ensures LinkInHand(run[i], id)
  {
    if i > 0 {
      assert HandedOnAt(run, i - 1, id);
      if id in run[i - 1].funded {
        HandedOnSoFar(run, i - 1, id);
      }
    }
  }

  /** In every reachable state a funded HTLC has its quote linked, or about to be, unless its call was cut. */
  lemma FundedLinksUnlessCut(w: World, run: seq<State>, acts: seq<Action>, i: nat, id: Id)
    requires WorldOk(w) && IsRun(w, run, acts) && i < |run| && id in run[i].funded && !LinkCut(w, run, acts, i, id)
    ensures LinkInHand(run[i], id)
  {
    forall j: nat | j < i
      ensures HandedOnAt(run, j, id)
    {
      NotCutEarlier(w, run, acts, j + 1, i, id);
      RunHandsOn(w, run, acts, j + 1, id);
    }
    HandedOnSoFar(run, i, id);
  }

  /** Step `m` links the quote. */
  predicate LinksAt(run: seq<State>, acts: seq<Action>, m: nat, qid: Id)
    requires m < |acts| && m < |run|
  {
    && acts[m].Link? && acts[m].t in run[m].tasks && run[m].tasks[acts[m].t].CreateInserted?
    && run[m].tasks[acts[m].t].quoteId == qid
  }

  lemma LinkFlip(s: State, a: Action, n: State, qid: Id)
    requires QuotesChange(s, a, n) && qid in s.quotes && !Linked(s, qid) && Linked(n, qid)
    ensures a.Link? && s.tasks[a.t].quoteId == qid
  {
  }

  lemma RunLinkFlip(w: World, run: seq<State>, acts: seq<Action>, m: nat, qid: Id)
    requires IsRun(w, run, acts) && m < |acts| && qid in run[m].quotes
    requires !Linked(run[m], qid) && Linked(run[m + 1], qid)
    ensures LinksAt(run, acts, m, qid)
  {
    Safety.RunStep(w, run, acts, m + 1);
    QuotesDelta(w, run[m], acts[m], run[m + 1]);
    LinkFlip(run[m], acts[m], run[m + 1], qid);
  }

  lemma QuoteStays(w: World, run: seq<State>, acts: seq<Action>, i: nat, j: nat, qid: Id)
    requires WorldOk(w) && IsRun(w, run, acts) && i <= j < |run| && qid in run[i].quotes
    ensures qid in run[j].quotes
  {
    Safety.RunGrows(w, run, acts, i, j);
  }

  /** A quote that got linked was linked by some step. */
  lemma {:induction false} LinkAppears(w: World, run: seq<State>, acts: seq<Action>, b: nat, k: nat, qid: Id)
    returns (m: nat)
    requires WorldOk(w) && IsRun(w, run, acts) && b <= k < |run|
    requires qid in run[b].quotes && !Linked(run[b], qid) && Linked(run[k], qid)
    ensures b <= m < k && LinksAt(run, acts, m, qid)
  {
    if Linked(run[k - 1], qid) {
      m := LinkAppears(w, run, acts, b, k - 1, qid);
    } else {
      m := k - 1;
      QuoteStays(w, run, acts, b, k - 1, qid);
      RunLinkFlip(w, run, acts, k - 1, qid);
    }
  }

  /** Task `t` has read the quote and funds next. */
  predicate HasRead(s: State, t: TaskId, q: QuoteRecord) {
    t in s.tasks && s.tasks[t].CreateRead? && s.tasks[t].quote == q
  }

  lemma RunBeginReads(w: World, run: seq<State>, acts: seq<Action>, b: nat)
    requires WorldOk(w) && IsRun(w, run, acts) && b < |acts| && acts[b].BeginCreate?
    ensures var qid := acts[b].quoteId;
            && qid in run[b].quotes && run[b].quotes[qid].quoteId == qid && !Linked(run[b], qid)
            && HasRead(run[b + 1], acts[b].t, run[b].quotes[qid])
  {
    Safety.RunStep(w, run, acts, b + 1);
    BeginReads(w, run[b], acts[b], run[b + 1]);
    RunQuoteIds(w, run, acts, b);
  }

  /** The call that funds at step `k` read its quote, unlinked, at step `b`. */
  lemma CallReadsQuote(w: World, run: seq<State>, acts: seq<Action>, b: nat, k: nat)
    requires WorldOk(w) && IsRun(w, run, acts) && b < k < |acts| && acts[b].BeginCreate? && acts[k].Fund?
    requires Safety.SameCall(acts, b, k, acts[k].t)
    ensures var qid := acts[b].quoteId;
            && qid in run[b].quotes && run[b].quotes[qid].quoteId == qid && !Linked(run[b], qid)
            && HasRead(run[k], acts[k].t, run[b].quotes[qid])
  {
    RunBeginReads(w, run, acts, b);
    Safety.CallRemembers(w, run, acts, b, k, acts[k].t);
  }

  lemma BeginReads(w: World, s: State, a: Action, n: State)
    requires a.BeginCreate? && Takes(w, s, a, n)
    ensures a.quoteId in s.quotes && s.quotes[a.quoteId].swapId.None?
    ensures a.t in n.tasks && n.tasks[a.t].CreateRead? && n.tasks[a.t].quote == s.quotes[a.quoteId]
  {
  }

  lemma RunQuoteIds(w: World, run: seq<State>, acts: seq<Action>, i: nat)
    requires WorldOk(w) && IsRun(w, run, acts) && i < |run|
    ensures forall qid :: qid in run[i].quotes ==> run[i].quotes[qid].quoteId == qid
  {
    Safety.RunKeepsInv(w, run, acts, i);
  }

  /** When a funding begins nobody holds the wallet, so no link is pending. */
  lemma FundMeetsNoPendingLink(w: World, run: seq<State>, acts: seq<Action>, k: nat, id: Id)
    requires WorldOk(w) && IsRun(w, run, acts) && k < |acts| && acts[k].Fund?
    ensures !LinkPending(run[k], id)
  {
    Safety.RunKeepsInv(w, run, acts, k);
    Safety.RunStep(w, run, acts, k + 1);
    NoneLinksYet(w, run[k], acts[k], run[k + 1], id);
  }

  lemma NoneLinksYet(w: World, s: State, a: Action, n: State, id: Id)
    requires LocksOk(s) && a.Fund? && Takes(w, s, a, n)
    ensures !LinkPending(s, id)
  {
  }

  /** A linked quote has an HTLC. */
  lemma LinkedQuoteHasHtlc(w: World, run: seq<State>, acts: seq<Action>, i: nat, qid: Id) returns (id: Id)
    requires WorldOk(w) && IsRun(w, run, acts) && i < |run| && Linked(run[i], qid)
    ensures FundedFor(run[i], id, qid)
  {
    Safety.RunKeepsInv(w, run, acts, i);
    id := run[i].quotes[qid].swapId.value;
  }

  predicate FundedFor(s: State, id: Id, qid: Id) {
    id in s.funded && s.funded[id].terms.quoteId == qid
  }

  /** Some call linked the quote after this one had read it. */
  ghost predicate Overlapped(run: seq<State>, acts: seq<Action>, b: nat, k: nat, qid: Id) {
    exists m :: b < m < k && k <= |acts| && k <= |run| && LinksAt(run, acts, m, qid)
  }

  /** Some call that had funded the quote was cut before linking it. */
  ghost predicate LeftUnlinked(w: World, run: seq<State>, acts: seq<Action>, k: nat, qid: Id) {
    exists id :: k < |run| && FundedFor(run[k], id, qid) && LinkCut(w, run, acts, k, id)
  }

  lemma LinkedBetween(w: World, run: seq<State>, acts: seq<Action>, b: nat, k: nat, qid: Id)
    requires WorldOk(w) && IsRun(w, run, acts) && b < k < |acts| && acts[b].BeginCreate?
    requires qid in run[b].quotes && !Linked(run[b], qid)
    ensures Linked(run[k], qid) <==> Overlapped(run, acts, b, k, qid)
  {
    if Linked(run[k], qid) {
      var m := LinkAppears(w, run, acts, b, k, qid);
      assert m != b;
    }
    forall m: nat | b < m < k && LinksAt(run, acts, m, qid)
      ensures Linked(run[k], qid)
    {
      LinkLasts(w, run, acts, m, k, qid);
    }
  }

  lemma {:induction false} LinkLasts(w: World, run: seq<State>, acts: seq<Action>, m: nat, k: nat, qid: Id)
    requires IsRun(w, run, acts) && m < k < |run| && LinksAt(run, acts, m, qid)
    ensures Linked(run[k], qid)
  {
    Safety.RunStep(w, run, acts, k);
    QuotesDelta(w, run[k - 1], acts[k - 1], run[k]);
    if m + 1 < k {
      LinkLasts(w, run, acts, m, k - 1, qid);
      LinkedStays(run[k - 1], acts[k - 1], run[k], qid);
    }
  }

  /**
   A call that read its quote at step `b` and funds it at step `k` funds it again, another
   HTLC being there already, exactly when some other call linked the quote in between or
   some earlier call had funded it and was cut before its link.
   */
  lemma QuoteFundedAgainIff(w: World, run: seq<State>, acts: seq<Action>, b: nat, k: nat)
    requires WorldOk(w) && IsRun(w, run, acts) && b < k < |acts| && acts[b].BeginCreate? && acts[k].Fund?
    requires Safety.SameCall(acts, b, k, acts[k].t)
    ensures acts[k].t in run[k].tasks && run[k].tasks[acts[k].t].CreateRead?
    ensures var qid := run[k].tasks[acts[k].t].quote.quoteId;
            (exists id :: FundedFor(run[k], id, qid)) <==>
            Overlapped(run, acts, b, k, qid) || LeftUnlinked(w, run, acts, k, qid)
  {
    CallReadsQuote(w, run, acts, b, k);
    var qid := acts[b].quoteId;
    LinkedBetween(w, run, acts, b, k, qid);
    forall id | FundedFor(run[k], id, qid) && !LinkCut(w, run, acts, k, id)
      ensures Linked(run[k], qid)
    {
      FundMeetsNoPendingLink(w, run, acts, k, id);
      FundedLinksUnlessCut(w, run, acts, k, id);
    }
    if Linked(run[k], qid) {
      var id := LinkedQuoteHasHtlc(w, run, acts, k, qid);
    }
  }
}
