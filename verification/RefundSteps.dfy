/**
 A refund pass, run alone, is a sequence of protocol actions with the same effect, whether
 it reaches its end or stops at a swap that has no refund.
 */
module RefundSteps {
  import opened Types
  import opened Transaction
  import opened Chain
  import opened Records
  import opened Offer
  import opened Store
  import opened Protocol
  import opened Wallet
  import opened RefundWorker
  import opened Handlers

  // ----- the due swaps, told from the front

  lemma {:induction false} DueCons(r: SwapRecord, rest: seq<SwapRecord>, tip: u32)
    ensures DueSwaps([r] + rest, tip) == (if RefundDue(r, tip) then [r] else []) + DueSwaps(rest, tip)
    decreases |rest|
  {
    if rest == [] {
      assert [r] + rest == [r] && [r][..0] == [];
    } else {
      var init, last := rest[..|rest| - 1], rest[|rest| - 1];
      DueCons(r, init, tip);
      assert rest == init + [last];
      DueSnoc([r] + init, last, tip);
      DueSnoc(init, last, tip);
      assert [r] + rest == ([r] + init) + [last];
    }
  }

  lemma AfterPassFirst(swaps: map<Id, SwapRecord>, r: SwapRecord, due: seq<SwapRecord>, b: Broadcast,
                       sent: seq<Broadcast>)
    requires |sent| <= |due| && r.terms.swapId in swaps
    ensures AfterPass(swaps, [r] + due, [b] + sent) ==
            AfterPass(if b.ok then ApplyUpdate(swaps, SetStatus(r.terms.swapId, Refunded)) else swaps, due, sent)
  {
    forall id
      ensures WasRefunded([r] + due, [b] + sent, id) <==> WasRefunded(due, sent, id) || (b.ok && r.terms.swapId == id)
    {
      if WasRefunded(due, sent, id) {
        var i :| 0 <= i < |sent| && sent[i].ok && due[i].terms.swapId == id;
        assert ([b] + sent)[i + 1].ok && ([r] + due)[i + 1].terms.swapId == id;
      }
      if b.ok && r.terms.swapId == id {
        assert ([b] + sent)[0].ok && ([r] + due)[0].terms.swapId == id;
      }
      if WasRefunded([r] + due, [b] + sent, id) {
        var i :| 0 <= i < |[b] + sent| && ([b] + sent)[i].ok && ([r] + due)[i].terms.swapId == id;
        assert i > 0 ==> sent[i - 1].ok && due[i - 1].terms.swapId == id;
      }
    }
  }

  // ----- the network's answers

  /** One reply for each broadcast; the worker sees what is reported. */
  predicate Answers(sent: seq<Broadcast>, replies: seq<Reply>) {
    |replies| == |sent| && forall i :: 0 <= i < |sent| ==> replies[i].reported == sent[i].ok
  }

  ghost predicate AnswersPossible(c: Crypto, ch: Chain, sent: seq<Broadcast>, replies: seq<Reply>)
    requires |replies| == |sent|
    decreases |sent|
  {
    sent != [] ==>
      && ReplyPossible(c, ch, sent[0].tx, replies[0])
      && AnswersPossible(c, AfterBroadcast(c, ch, sent[0].tx, replies[0]), sent[1..], replies[1..])
  }

  function AfterBroadcasts(c: Crypto, ch: Chain, sent: seq<Broadcast>, replies: seq<Reply>): Chain
    requires |replies| == |sent|
    decreases |sent|
  {
    if sent == [] then ch
    else AfterBroadcasts(c, AfterBroadcast(c, ch, sent[0].tx, replies[0]), sent[1..], replies[1..])
  }

  // ----- the actions

  function RoundActs(t: TaskId, reply: Reply): seq<Action> {
    if reply.reported then [RefundNext(t, reply)] + [PersistRefund(t)] else [RefundNext(t, reply)]
  }

  /** The rounds over `todo`, in which `replies` came back; a due swap without a reply stops the pass. */
  function RestActs(t: TaskId, tip: u32, todo: seq<SwapRecord>, replies: seq<Reply>): seq<Action>
    decreases |todo|
  {
    if todo == [] then [EndRefund(t)]
    else if !RefundDue(todo[0], tip) then [RefundNext(t, Reply(false, false))] + RestActs(t, tip, todo[1..], replies)
    else if replies == [] then [Fail(t)]
    else RoundActs(t, replies[0]) + RestActs(t, tip, todo[1..], replies[1..])
  }

  function PassActs(t: TaskId, tip: u32, listed: seq<SwapRecord>, fee: u64, replies: seq<Reply>): seq<Action> {
    [BeginRefund(t, tip, listed, fee)] + RestActs(t, tip, listed, replies)
  }

  // ----- single rounds

  /** A pass under way: the task, the lock, and what is still to visit. */
  ghost predicate Passing(w: World, s: State, acts: seq<Action>, m: State, t: TaskId, tip: u32, todo: seq<SwapRecord>,
                          fee: u64) {
    && Leads(w, s, acts, m) && m.walletLock == Some(t) && t in m.tasks && m.tasks[t] == RefundPass(tip, todo, fee)
    && forall i :: 0 <= i < |todo| ==> todo[i].terms.swapId in m.swaps
  }

  lemma SkipRound(w: World, s: State, acts: seq<Action>, m: State, t: TaskId, tip: u32, todo: seq<SwapRecord>, fee: u64)
    returns (n: State)
    requires Passing(w, s, acts, m, t, tip, todo, fee) && todo != [] && !RefundDue(todo[0], tip)
    ensures Passing(w, s, acts + [RefundNext(t, Reply(false, false))], n, t, tip, todo[1..], fee)
    ensures n == m.(tasks := m.tasks[t := RefundPass(tip, todo[1..], fee)])
  {
    n := ApplyRefund(w, m, t, Reply(false, false));
    LeadsOn(w, s, acts, m, RefundNext(t, Reply(false, false)), n);
  }

  lemma SendRound(w: World, s: State, acts: seq<Action>, m: State, t: TaskId, tip: u32, todo: seq<SwapRecord>, fee: u64,
                  tx: Tx, reply: Reply)
    returns (n: State)
    requires Passing(w, s, acts, m, t, tip, todo, fee) && todo != [] && RefundDue(todo[0], tip)
    requires RefundFor(w, m.cfg, todo[0].terms, fee) == Ok(tx) && ReplyPossible(w.c, m.chain, tx, reply)
    ensures Leads(w, s, acts + [RefundNext(t, reply)], n)
    ensures n == m.(chain := AfterBroadcast(w.c, m.chain, tx, reply),
                    signed := m.signed[Strip(tx) := Some(todo[0].terms.swapId)],
                    tasks := m.tasks[t := if reply.reported then RefundSent(todo[0].terms, tip, todo[1..], fee)
                                          else RefundPass(tip, todo[1..], fee)])
  {
    n := ApplyRefund(w, m, t, reply);
    LeadsOn(w, s, acts, m, RefundNext(t, reply), n);
  }

  lemma RecordRound(w: World, s: State, acts: seq<Action>, m: State, t: TaskId, terms: SwapTerms, tip: u32,
                    todo: seq<SwapRecord>, fee: u64)
    returns (n: State)
    requires Leads(w, s, acts, m) && t in m.tasks && m.tasks[t] == RefundSent(terms, tip, todo, fee)
    requires terms.swapId in m.swaps
    ensures Leads(w, s, acts + [PersistRefund(t)], n)
    ensures n == m.(swaps := ApplyUpdate(m.swaps, SetStatus(terms.swapId, Refunded)),
                    tasks := m.tasks[t := RefundPass(tip, todo, fee)])
  {
    n := m.(swaps := ApplyUpdate(m.swaps, SetStatus(terms.swapId, Refunded)),
            tasks := m.tasks[t := RefundPass(tip, todo, fee)]);
    LeadsOn(w, s, acts, m, PersistRefund(t), n);
  }

  /** What a round leaves: the rest to visit, the chain and the table moved on by one broadcast. */
  ghost predicate RoundDone(w: World, m: State, n: State, t: TaskId, tip: u32, todo: seq<SwapRecord>, fee: u64, tx: Tx,
                            reply: Reply)
    requires todo != []
  {
    && n.chain == AfterBroadcast(w.c, m.chain, tx, reply) && n.cfg == m.cfg && n.walletLock == m.walletLock
    && n.quotes == m.quotes && n.funded == m.funded
    && n.swaps == (if reply.reported then ApplyUpdate(m.swaps, SetStatus(todo[0].terms.swapId, Refunded)) else m.swaps)
    && n.tasks == m.tasks[t := RefundPass(tip, todo[1..], fee)]
  }

  lemma ReportedRound(w: World, s: State, acts: seq<Action>, m: State, t: TaskId, tip: u32, todo: seq<SwapRecord>,
                      fee: u64, tx: Tx, reply: Reply)
    returns (n: State)
    requires Passing(w, s, acts, m, t, tip, todo, fee) && todo != [] && RefundDue(todo[0], tip) && reply.reported
    requires RefundFor(w, m.cfg, todo[0].terms, fee) == Ok(tx) && ReplyPossible(w.c, m.chain, tx, reply)
    ensures Leads(w, s, acts + [RefundNext(t, reply)] + [PersistRefund(t)], n)
    ensures RoundDone(w, m, n, t, tip, todo, fee, tx, reply)
  {
    n := SendRound(w, s, acts, m, t, tip, todo, fee, tx, reply);
    n := RecordRound(w, s, acts + [RefundNext(t, reply)], n, t, todo[0].terms, tip, todo[1..], fee);
    TaskTwice(m.tasks, t, RefundSent(todo[0].terms, tip, todo[1..], fee), RefundPass(tip, todo[1..], fee));
  }

  lemma RoundKeepsRows(w: World, m: State, n: State, t: TaskId, tip: u32, todo: seq<SwapRecord>, fee: u64, tx: Tx,
                       reply: Reply)
    requires todo != [] && forall i :: 0 <= i < |todo| ==> todo[i].terms.swapId in m.swaps
    requires RoundDone(w, m, n, t, tip, todo, fee, tx, reply)
    ensures forall i :: 0 <= i < |todo[1..]| ==> todo[1..][i].terms.swapId in n.swaps
  {
  }

  lemma TryRound(w: World, s: State, acts: seq<Action>, m: State, t: TaskId, tip: u32, todo: seq<SwapRecord>, fee: u64,
                 tx: Tx, reply: Reply)
    returns (n: State)
    requires Passing(w, s, acts, m, t, tip, todo, fee) && todo != [] && RefundDue(todo[0], tip)
    requires RefundFor(w, m.cfg, todo[0].terms, fee) == Ok(tx) && ReplyPossible(w.c, m.chain, tx, reply)
    ensures Passing(w, s, acts + RoundActs(t, reply), n, t, tip, todo[1..], fee)
    ensures RoundDone(w, m, n, t, tip, todo, fee, tx, reply)
  {
    if reply.reported {
      n := ReportedRound(w, s, acts, m, t, tip, todo, fee, tx, reply);
      Regroup(acts, [RefundNext(t, reply)], [PersistRefund(t)]);
    } else {
      n := SendRound(w, s, acts, m, t, tip, todo, fee, tx, reply);
    }
    RoundKeepsRows(w, m, n, t, tip, todo, fee, tx, reply);
  }

  // ----- the pass

  /** What the pass leaves when it is over. */
  ghost predicate Over(w: World, m: State, n: State, t: TaskId, tip: u32, todo: seq<SwapRecord>, sent: seq<Broadcast>,
                       replies: seq<Reply>)
    requires |sent| <= |DueSwaps(todo, tip)| && |replies| == |sent|
  {
    && n.chain == AfterBroadcasts(w.c, m.chain, sent, replies) && n.cfg == m.cfg && n.walletLock.None?
    && n.quotes == m.quotes && n.funded == m.funded
    && n.swaps == AfterPass(m.swaps, DueSwaps(todo, tip), sent)
    && n.tasks == m.tasks - {t}
  }

  /** The broadcasts of the first due swaps of `todo`; if not of all, the next has no refund. */
  ghost predicate SentOf(w: World, cfg: Config, fee: u64, todo: seq<SwapRecord>, tip: u32, sent: seq<Broadcast>) {
    var due := DueSwaps(todo, tip);
    && |sent| <= |due| && SentFor(w, cfg, fee, due, sent)
    && (|sent| < |due| ==> RefundFor(w, cfg, due[|sent|].terms, fee).Err?)
  }

  ghost predicate Answered(c: Crypto, ch: Chain, sent: seq<Broadcast>, replies: seq<Reply>) {
    Answers(sent, replies) && AnswersPossible(c, ch, sent, replies)
  }

  /** All rounds, from wherever the pass is. */
  lemma {:induction false} RoundsTakeSteps(w: World, s: State, acts: seq<Action>, m: State, t: TaskId, tip: u32,
                                           todo: seq<SwapRecord>, fee: u64, sent: seq<Broadcast>, replies: seq<Reply>)
    returns (n: State)
    requires Passing(w, s, acts, m, t, tip, todo, fee) && SentOf(w, m.cfg, fee, todo, tip, sent)
    requires Answered(w.c, m.chain, sent, replies)
    ensures Leads(w, s, acts + RestActs(t, tip, todo, replies), n) && Over(w, m, n, t, tip, todo, sent, replies)
    decreases |todo|
  {
    if todo == [] {
      n := EndsPass(w, s, acts, m, t, tip, fee, sent, replies);
    } else {
      DueFront(todo, tip);
      if !RefundDue(todo[0], tip) {
        n := IdleRoundTakesSteps(w, s, acts, m, t, tip, todo, fee, sent, replies);
      } else if sent == [] {
        n := StopsPass(w, s, acts, m, t, tip, todo, fee, sent, replies);
      } else {
        n := DueRoundTakesSteps(w, s, acts, m, t, tip, todo, fee, sent, replies);
      }
    }
  }

  lemma EndsPass(w: World, s: State, acts: seq<Action>, m: State, t: TaskId, tip: u32, fee: u64, sent: seq<Broadcast>,
                 replies: seq<Reply>)
    returns (n: State)
    requires Passing(w, s, acts, m, t, tip, [], fee) && sent == [] && replies == []
    ensures Leads(w, s, acts + [EndRefund(t)], n) && Over(w, m, n, t, tip, [], sent, replies)
  {
    n := m.(tasks := m.tasks - {t}, walletLock := None);
    LeadsOn(w, s, acts, m, EndRefund(t), n);
    NothingSent(m.swaps, []);
  }

  /** The first due swap has no refund: the pass fails there. */
  lemma StopsPass(w: World, s: State, acts: seq<Action>, m: State, t: TaskId, tip: u32, todo: seq<SwapRecord>, fee: u64,
                  sent: seq<Broadcast>, replies: seq<Reply>)
    returns (n: State)
    requires Passing(w, s, acts, m, t, tip, todo, fee) && sent == [] && replies == []
    ensures Leads(w, s, acts + [Fail(t)], n) && Over(w, m, n, t, tip, todo, sent, replies)
  {
    n := Finish(m, t);
    Fails(w, s, acts, m, t);
    NothingSent(m.swaps, DueSwaps(todo, tip));
  }

  lemma NothingSent(swaps: map<Id, SwapRecord>, due: seq<SwapRecord>)
    ensures AfterPass(swaps, due, []) == swaps
  {
  }

  lemma DueFront(todo: seq<SwapRecord>, tip: u32)
    requires todo != []
    ensures DueSwaps(todo, tip) == (if RefundDue(todo[0], tip) then [todo[0]] else []) + DueSwaps(todo[1..], tip)
  {
    assert todo == [todo[0]] + todo[1..];
    DueCons(todo[0], todo[1..], tip);
  }

  lemma Regroup(acts: seq<Action>, round: seq<Action>, rest: seq<Action>)
    ensures acts + round + rest == acts + (round + rest)
  {
  }

  lemma IdleRoundTakesSteps(w: World, s: State, acts: seq<Action>, m: State, t: TaskId, tip: u32, todo: seq<SwapRecord>,
                            fee: u64, sent: seq<Broadcast>, replies: seq<Reply>)
    returns (n: State)
    requires Passing(w, s, acts, m, t, tip, todo, fee) && todo != [] && !RefundDue(todo[0], tip)
    requires DueSwaps(todo, tip) == DueSwaps(todo[1..], tip)
    requires SentOf(w, m.cfg, fee, todo, tip, sent) && Answered(w.c, m.chain, sent, replies)
    ensures Leads(w, s, acts + RestActs(t, tip, todo, replies), n) && Over(w, m, n, t, tip, todo, sent, replies)
    decreases |todo|, 0
  {
    var idle := RefundNext(t, Reply(false, false));
    var k := SkipRound(w, s, acts, m, t, tip, todo, fee);
    n := RoundsTakeSteps(w, s, acts + [idle], k, t, tip, todo[1..], fee, sent, replies);
    Regroup(acts, [idle], RestActs(t, tip, todo[1..], replies));
    TaskReplacedAndGone(m.tasks, t, RefundPass(tip, todo[1..], fee));
  }

  lemma TaskReplacedAndGone(tasks: map<TaskId, Task>, t: TaskId, k: Task)
    ensures tasks[t := k] - {t} == tasks - {t}
  {
  }

  lemma SentOfRest(w: World, cfg: Config, fee: u64, todo: seq<SwapRecord>, tip: u32, sent: seq<Broadcast>)
    requires todo != [] && sent != [] && SentOf(w, cfg, fee, todo, tip, sent)
    requires DueSwaps(todo, tip) == [todo[0]] + DueSwaps(todo[1..], tip)
    ensures RefundFor(w, cfg, todo[0].terms, fee) == Ok(sent[0].tx)
    ensures SentOf(w, cfg, fee, todo[1..], tip, sent[1..])
  {
    var due, rest := DueSwaps(todo, tip), DueSwaps(todo[1..], tip);
    assert due[0] == todo[0];
    forall i | 0 <= i < |sent[1..]|
      ensures RefundFor(w, cfg, rest[i].terms, fee) == Ok(sent[1..][i].tx)
    {
      assert due[i + 1] == rest[i];
    }
    if |sent[1..]| < |rest| {
      assert due[|sent|] == rest[|sent[1..]|];
    }
  }

  /** A round, then the rest. */
  lemma OverAfterRound(w: World, m: State, k: State, n: State, t: TaskId, tip: u32, todo: seq<SwapRecord>, fee: u64,
                       sent: seq<Broadcast>, replies: seq<Reply>)
    requires todo != [] && sent != [] && Answers(sent, replies)
    requires DueSwaps(todo, tip) == [todo[0]] + DueSwaps(todo[1..], tip) && todo[0].terms.swapId in m.swaps
    requires |sent[1..]| <= |DueSwaps(todo[1..], tip)|
    requires RoundDone(w, m, k, t, tip, todo, fee, sent[0].tx, replies[0])
    requires Over(w, k, n, t, tip, todo[1..], sent[1..], replies[1..])
    ensures |sent| <= |DueSwaps(todo, tip)| && Over(w, m, n, t, tip, todo, sent, replies)
  {
    TaskReplacedAndGone(m.tasks, t, RefundPass(tip, todo[1..], fee));
    assert sent == [sent[0]] + sent[1..];
    AfterPassFirst(m.swaps, todo[0], DueSwaps(todo[1..], tip), sent[0], sent[1..]);
  }

  lemma DueRoundTakesSteps(w: World, s: State, acts: seq<Action>, m: State, t: TaskId, tip: u32, todo: seq<SwapRecord>,
                           fee: u64, sent: seq<Broadcast>, replies: seq<Reply>)
    returns (n: State)
    requires Passing(w, s, acts, m, t, tip, todo, fee) && todo != [] && RefundDue(todo[0], tip) && sent != []
    requires DueSwaps(todo, tip) == [todo[0]] + DueSwaps(todo[1..], tip)
    requires SentOf(w, m.cfg, fee, todo, tip, sent) && Answered(w.c, m.chain, sent, replies)
    ensures Leads(w, s, acts + RestActs(t, tip, todo, replies), n) && Over(w, m, n, t, tip, todo, sent, replies)
    decreases |todo|, 0
  {
    SentOfRest(w, m.cfg, fee, todo, tip, sent);
    var k := TryRound(w, s, acts, m, t, tip, todo, fee, sent[0].tx, replies[0]);
    n := RoundsTakeSteps(w, s, acts + RoundActs(t, replies[0]), k, t, tip, todo[1..], fee, sent[1..], replies[1..]);
    Regroup(acts, RoundActs(t, replies[0]), RestActs(t, tip, todo[1..], replies[1..]));
    OverAfterRound(w, m, k, n, t, tip, todo, fee, sent, replies);
  }

  lemma BeginsPass(w: World, s: State, t: TaskId, tip: u32, listed: seq<SwapRecord>, fee: u64)
    requires t !in s.tasks && s.walletLock.None? && tip <= s.chain.height && IsListing(s.swaps, listed)
    ensures Passing(w, s, [BeginRefund(t, tip, listed, fee)],
                    s.(tasks := s.tasks[t := RefundPass(tip, listed, fee)], walletLock := Some(t)), t, tip, listed, fee)
  {
    var a := BeginRefund(t, tip, listed, fee);
    LeadsFirst(w, s, a, s.(tasks := s.tasks[t := RefundPass(tip, listed, fee)], walletLock := Some(t)));
  }

  lemma OverFromBegin(w: World, s: State, m: State, n: State, t: TaskId, tip: u32, listed: seq<SwapRecord>, fee: u64,
                      sent: seq<Broadcast>, replies: seq<Reply>)
    requires t !in s.tasks && m == s.(tasks := s.tasks[t := RefundPass(tip, listed, fee)], walletLock := Some(t))
    requires |sent| <= |DueSwaps(listed, tip)| && |replies| == |sent| && Over(w, m, n, t, tip, listed, sent, replies)
    ensures n.swaps == AfterPass(s.swaps, DueSwaps(listed, tip), sent)
    ensures n.chain == AfterBroadcasts(w.c, s.chain, sent, replies)
    ensures n.quotes == s.quotes && n.funded == s.funded && n.cfg == s.cfg && n.tasks == s.tasks && n.walletLock.None?
  {
    TaskGone(s.tasks, t, RefundPass(tip, listed, fee));
  }

  /**
   Whatever a pass of `RefundOnce` sent and left, complete or stopped, and whatever the
   network really did with it: these actions send it and leave the same table and chain.
   */
  lemma PassTakesSteps(w: World, s: State, t: TaskId, tip: u32, listed: seq<SwapRecord>, fee: u64, sent: seq<Broadcast>,
                       replies: seq<Reply>, swaps: map<Id, SwapRecord>, ok: bool)
    returns (n: State)
    requires t !in s.tasks && s.walletLock.None? && tip <= s.chain.height && IsListing(s.swaps, listed)
    requires PassResult(Pass(w, s.cfg, fee, tip, s.swaps), listed, sent, swaps, ok)
    requires Answered(w.c, s.chain, sent, replies)
    ensures Leads(w, s, PassActs(t, tip, listed, fee, replies), n)
    ensures n.swaps == swaps && n.chain == AfterBroadcasts(w.c, s.chain, sent, replies)
    ensures n.quotes == s.quotes && n.funded == s.funded && n.cfg == s.cfg && n.tasks == s.tasks && n.walletLock.None?
    ensures ok <==> PassActs(t, tip, listed, fee, replies)[|PassActs(t, tip, listed, fee, replies)| - 1] == EndRefund(t)
  {
    var m := s.(tasks := s.tasks[t := RefundPass(tip, listed, fee)], walletLock := Some(t));
    BeginsPass(w, s, t, tip, listed, fee);
    assert SentOf(w, m.cfg, fee, listed, tip, sent);
    n := RoundsTakeSteps(w, s, [BeginRefund(t, tip, listed, fee)], m, t, tip, listed, fee, sent, replies);
    OverFromBegin(w, s, m, n, t, tip, listed, fee, sent, replies);
    PassEnds(t, tip, listed, fee, replies);
  }

  lemma PassEnds(t: TaskId, tip: u32, listed: seq<SwapRecord>, fee: u64, replies: seq<Reply>)
    requires |replies| <= |DueSwaps(listed, tip)|
    ensures var acts := PassActs(t, tip, listed, fee, replies);
            acts[|acts| - 1] == EndRefund(t) <==> |replies| == |DueSwaps(listed, tip)|
  {
    PassEndsIff(t, tip, listed, replies);
  }

  /** The last action tells whether every due swap got its reply. */
  lemma {:induction false} PassEndsIff(t: TaskId, tip: u32, todo: seq<SwapRecord>, replies: seq<Reply>)
    requires |replies| <= |DueSwaps(todo, tip)|
    ensures var acts := RestActs(t, tip, todo, replies);
            acts != [] && (acts[|acts| - 1] == EndRefund(t) <==> |replies| == |DueSwaps(todo, tip)|)
    decreases |todo|
  {
    if todo != [] {
      DueFront(todo, tip);
      if !RefundDue(todo[0], tip) {
        PassEndsIff(t, tip, todo[1..], replies);
      } else if replies != [] {
        PassEndsIff(t, tip, todo[1..], replies[1..]);
      }
    }
  }
}
