/**
 What the pool promises about the tasks it accepted: the counters add up, workers take tasks
 in the order they came, and an accepted task is evaluated exactly when it is not late at
 the moment it is handed over.
 */
module PoolLedger {
  import opened Seqs
  import opened WorkerPool
  import opened PoolProtocol
  import opened PoolPlaces

  /** How many answers carry a reason. */
  function CountReason(log: seq<Answer>, reason: string): nat {
    if log == [] then 0
    else CountReason(log[..|log| - 1], reason) + if log[|log| - 1].shed == reason then 1 else 0
  }

  function Ids(q: seq<Task>): (ids: seq<nat>)
    ensures |ids| == |q| && forall k :: 0 <= k < |q| ==> ids[k] == q[k].id
  {
    seq(|q|, k requires 0 <= k < |q| => q[k].id)
  }

  /** An accepted task is evaluated unless it is late, with exactly the time it has left; any other is refused. */
  ghost predicate Fair(c: Config, s: State, a: Answer) {
    && a.at <= s.now
    && if a.t.id in s.enq
       then if Late(c, a.t, a.at) then a.shed == REASON_DEADLINE
            else a.shed == "" && a.budget == LeftAt(c, a.t, a.at)
       else a.shed == REASON_DEADLINE || a.shed == REASON_QUEUE_LIMIT
  }

  ghost predicate AllAccepted(s: State, ts: seq<Task>) {
    forall k :: 0 <= k < |ts| ==> ts[k].id in s.enq
  }

  ghost predicate AllLate(c: Config, ts: seq<Task>, now: int) {
    forall k :: 0 <= k < |ts| ==> Late(c, ts[k], now)
  }

  ghost predicate Ledger(c: Config, s: State) {
    && s.shared.accepted == |s.enq|
    && s.shared.shed == CountReason(s.log, REASON_QUEUE_LIMIT)
    && s.shared.expired == CountReason(s.log, REASON_DEADLINE)
    && (forall k :: 0 <= k < |s.log| ==> Fair(c, s, s.log[k]))
    && (forall k :: 0 <= k < |s.enq| ==> s.enq[k] < |s.subs| && s.subs[s.enq[k]].pc.Returned?)
    && AllAccepted(s, s.shared.q)
    && (forall th :: AllAccepted(s, DeadOf(s, th)) && AllLate(c, DeadOf(s, th), s.now))
    && (forall w :: AllAccepted(s, HeldOf(s, w)))
  }

  /** What workers took, followed by what is still queued, in the order of arrival. */
  ghost predicate Fifo(s: State) {
    Subseq(s.popped + Ids(s.shared.q), s.enq)
  }

  /** Time only makes a late task later. */
  lemma LateStaysLate(c: Config, t: Task, now: int, later: int)
    requires Late(c, t, now) && now <= later
    ensures Late(c, t, later)
  {
  }

  lemma {:induction false} FilterKeepsFacts(c: Config, s: State, q: seq<Task>, now: int)
    requires AllAccepted(s, q)
    ensures AllAccepted(s, Live(c, q, now)) && AllAccepted(s, Dead(c, q, now))
    ensures AllLate(c, Dead(c, q, now), now)
  {
    if q != [] {
      FilterKeepsFacts(c, s, q[..|q| - 1], now);
    }
  }

  lemma IdsSnoc(q: seq<Task>, t: Task)
    ensures Ids(q + [t]) == Ids(q) + [t.id]
  {
  }

  lemma {:induction false} FilterKeepsOrder(c: Config, q: seq<Task>, now: int)
    ensures Subseq(Ids(Live(c, q, now)), Ids(q))
  {
    if q != [] {
      var q', t := q[..|q| - 1], q[|q| - 1];
      FilterKeepsOrder(c, q', now);
      assert q == q' + [t];
      IdsSnoc(q', t);
      if Late(c, t, now) {
        assert Live(c, q, now) == Live(c, q', now);
        SubseqGrow(Ids(Live(c, q', now)), Ids(q'), t.id);
      } else {
        IdsSnoc(Live(c, q', now), t);
        SubseqSnoc(Ids(Live(c, q', now)), Ids(q'), t.id);
      }
    } else {
      assert Ids(Live(c, q, now)) == [];
    }
  }

  // ------------------------------------------------ arrival order

  lemma TakeKeepsFifo(c: Config, s: State, s': State, now: int)
    requires Fifo(s)
    requires s'.shared.q == Live(c, s.shared.q, now) && s'.popped == s.popped && s'.enq == s.enq
    ensures Fifo(s')
  {
    FilterKeepsOrder(c, s.shared.q, now);
    SubseqConcat(s.popped, Ids(s'.shared.q), Ids(s.shared.q));
    SubseqTrans(s.popped + Ids(s'.shared.q), s.popped + Ids(s.shared.q), s.enq);
  }

  lemma EnqueueKeepsFifo(s: State, s': State, t: Task)
    requires Fifo(s) && s'.shared.q == s.shared.q + [t] && s'.enq == s.enq + [t.id] && s'.popped == s.popped
    ensures Fifo(s')
  {
    SubseqSnoc(s.popped + Ids(s.shared.q), s.enq, t.id);
    assert s'.popped + Ids(s'.shared.q) == (s.popped + Ids(s.shared.q)) + [t.id];
  }

  /** The head of the queue moves to the end of what was taken. */
  lemma HeadKeepsFifo(s: State, s': State)
    requires Fifo(s) && s.shared.q != [] && s'.enq == s.enq
    requires s'.shared.q == s.shared.q[1..] && s'.popped == s.popped + [s.shared.q[0].id]
    ensures Fifo(s')
  {
    assert s'.popped + Ids(s'.shared.q) == s.popped + Ids(s.shared.q);
  }

  lemma PopKeepsFifo(c: Config, s: State, w: nat)
    requires Fifo(s) && w < |s.workers| && s.workers[w].Popping?
    ensures Fifo(PopBody(c, s, w).0)
  {
    var live := Live(c, s.shared.q, s.now);
    var s1 := s.(shared := s.shared.(q := live));
    TakeKeepsFifo(c, s, s1, s.now);
    if live != [] {
      HeadKeepsFifo(s1, PopBody(c, s, w).0);
    }
  }

  lemma LockKeepsFifo(c: Config, s: State, i: nat, d: nat)
    requires c.depth >= 1 && Fifo(s) && i < |s.subs| && s.subs[i].pc.Locking?
    ensures Fifo(LockBody(c, s, i, d).0)
  {
    var (p, t, r, wake) := SubmitRegion(c, s.shared, s.subs[i].pc.t, s.now, s.now + d);
    var s1 := LockBody(c, s, i, d).0;
    if r.Accepted? {
      EnqueueKeepsFifo(s, s1, t);
    } else if r.Clean? {
      TakeKeepsFifo(c, s, s1, s.now + d);
    }
  }

  lemma LoopKeepsFifo(c: Config, s: State, i: nat)
    requires Fifo(s) && i < |s.subs| && s.subs[i].pc.Looping?
    ensures Fifo(LoopBody(c, s, i).0)
  {
    var (p, r, wake) := LoopRegion(c, s.shared, s.subs[i].pc.t, s.subs[i].timer.Fired?, s.now);
    var s1 := LoopBody(c, s, i).0;
    if r.Accepted? {
      EnqueueKeepsFifo(s, s1, s.subs[i].pc.t);
    } else if r.Clean? {
      TakeKeepsFifo(c, s, s1, s.now);
    }
  }

  lemma RestKeepsFifo(c: Config, s: State, a: Action)
    requires c.depth >= 1 && Fifo(s) && Enabled(c, s, a)
    requires !a.Collect? && !a.Lock? && !a.Loop? && !a.Pop? && !a.Sweep?
    ensures Fifo(Next(c, s, a))
  {
    assert Next(c, s, a).shared.q == s.shared.q;
  }

  lemma StepKeepsFifo(c: Config, s: State, a: Action)
    requires c.depth >= 1 && Fifo(s) && Enabled(c, s, a)
    ensures Fifo(Next(c, s, a))
  {
    if a.Pop? {
      PopKeepsFifo(c, s, a.w);
    } else if a.Lock? {
      LockKeepsFifo(c, s, a.i, a.d);
    } else if a.Loop? {
      LoopKeepsFifo(c, s, a.i);
    } else if a.Collect? {
      TakeKeepsFifo(c, s, CollectBody(c, s, a.i).0, s.now);
    } else if a.Sweep? {
      TakeKeepsFifo(c, s, SweepBody(c, s).0, s.now);
    } else {
      RestKeepsFifo(c, s, a);
    }
  }

  // ------------------------------------------------ the ledger

  lemma CountSnoc(log: seq<Answer>, a: Answer, reason: string)
    ensures CountReason(log + [a], reason) == CountReason(log, reason) + if a.shed == reason then 1 else 0
  {
    assert (log + [a])[..|log|] == log;
  }

  /** Steps that neither accept nor answer, with the clock going forward; at most one dead list
      and one held task change. */
  lemma QuietKeepsLedger(c: Config, s: State, s': State, th: Thread, w: nat)
    requires Ledger(c, s)
    requires s'.shared.accepted == s.shared.accepted && s'.shared.shed == s.shared.shed
    requires s'.shared.expired == s.shared.expired && s'.log == s.log && s'.enq == s.enq && s.now <= s'.now
    requires |s'.subs| >= |s.subs|
    requires forall i :: 0 <= i < |s.subs| && s.subs[i].pc.Returned? ==> s'.subs[i].pc.Returned?
    requires AllAccepted(s, s'.shared.q)
    requires forall th' :: th' != th ==> DeadOf(s', th') == DeadOf(s, th')
    requires AllAccepted(s, DeadOf(s', th)) && AllLate(c, DeadOf(s', th), s'.now)
    requires forall w' :: w' != w ==> HeldOf(s', w') == HeldOf(s, w')
    requires AllAccepted(s, HeldOf(s', w))
    ensures Ledger(c, s')
  {
    forall th' ensures AllAccepted(s', DeadOf(s', th')) && AllLate(c, DeadOf(s', th'), s'.now) {
      assert AllAccepted(s, DeadOf(s, th')) && AllLate(c, DeadOf(s, th'), s.now);
    }
    forall w' ensures AllAccepted(s', HeldOf(s', w')) {
      assert AllAccepted(s, HeldOf(s, w'));
    }
  }

  /** Steps that only move threads about. */
  lemma IdleKeepsLedger(c: Config, s: State, s': State)
    requires Ledger(c, s)
    requires s'.shared.(closed := s.shared.closed) == s.shared && s'.log == s.log && s'.enq == s.enq && s.now <= s'.now
    requires |s'.subs| >= |s.subs|
    requires forall i :: 0 <= i < |s.subs| && s.subs[i].pc.Returned? ==> s'.subs[i].pc.Returned?
    requires forall th :: DeadOf(s', th) == DeadOf(s, th)
    requires forall w :: HeldOf(s', w) == HeldOf(s, w)
    ensures Ledger(c, s')
  {
    assert AllAccepted(s, DeadOf(s, Swp)) && AllLate(c, DeadOf(s, Swp), s.now);
    assert AllAccepted(s, HeldOf(s, 0));
    QuietKeepsLedger(c, s, s', Swp, 0);
  }

  lemma NotifySteps(s: State, wake: Wake, who: Thread)
    ensures var s' := Notify(s, wake, who);
      && s'.shared == s.shared && s'.log == s.log && s'.enq == s.enq && s'.now == s.now && |s'.subs| == |s.subs|
      && (forall i :: 0 <= i < |s.subs| ==> s'.subs[i].pc.Returned? == s.subs[i].pc.Returned?)
      && (forall th :: DeadOf(s', th) == DeadOf(s, th))
      && (forall w :: HeldOf(s', w) == HeldOf(s, w))
  {
  }

  lemma NotifyKeepsLedger(c: Config, s: State, wake: Wake, who: Thread)
    requires Ledger(c, s)
    ensures Ledger(c, Notify(s, wake, who))
  {
    NotifySteps(s, wake, who);
    IdleKeepsLedger(c, s, Notify(s, wake, who));
  }

  /** A submitter hands its task to the queue; it had no answer yet. */
  lemma AcceptKeepsLedger(c: Config, s: State, s': State, i: nat, t: Task)
    requires Ledger(c, s) && OnePlace(s) && NoTwice(s) && i < |s.subs| && !s.subs[i].pc.Returned? && t.id == i
    requires s'.shared == Enqueue(s.shared, t) && s'.enq == s.enq + [t.id] && s'.log == s.log && s.now <= s'.now
    requires |s'.subs| == |s.subs| && s'.subs[i].pc.Returned?
    requires forall k :: 0 <= k < |s.subs| && k != i ==> s'.subs[k] == s.subs[k]
    requires forall th :: DeadOf(s', th) == DeadOf(s, th)
    requires forall w :: HeldOf(s', w) == HeldOf(s, w)
    ensures Ledger(c, s')
  {
    assert At(s, i, WithSubmitter) && !At(s, i, Answered);
    forall k | 0 <= k < |s.log| ensures Fair(c, s', s'.log[k]) {
      assert Fair(c, s, s.log[k]);
    }
    forall th ensures AllAccepted(s', DeadOf(s', th)) && AllLate(c, DeadOf(s', th), s'.now) {
      assert AllAccepted(s, DeadOf(s, th)) && AllLate(c, DeadOf(s, th), s.now);
    }
    forall w ensures AllAccepted(s', HeldOf(s', w)) {
      assert AllAccepted(s, HeldOf(s, w));
    }
  }

  /** A fair answer keeps the ledger. */
  lemma AnswerKeepsLedger(c: Config, s: State, s': State, t: Task, budget: int, reason: string)
    requires Ledger(c, s) && s' == Called(s, t, budget, reason)
    requires Fair(c, s, Answer(t, budget, reason, s.now, s.shared.closed))
    ensures Ledger(c, s')
  {
    CountSnoc(s.log, Answer(t, budget, reason, s.now, s.shared.closed), REASON_DEADLINE);
    CountSnoc(s.log, Answer(t, budget, reason, s.now, s.shared.closed), REASON_QUEUE_LIMIT);
    assert forall th :: DeadOf(s', th) == DeadOf(s, th);
    assert forall w :: HeldOf(s', w) == HeldOf(s, w);
    forall th ensures AllAccepted(s', DeadOf(s', th)) && AllLate(c, DeadOf(s', th), s'.now) {
      assert AllAccepted(s, DeadOf(s, th)) && AllLate(c, DeadOf(s, th), s.now);
    }
    forall w ensures AllAccepted(s', HeldOf(s', w)) {
      assert AllAccepted(s, HeldOf(s, w));
    }
    forall k | 0 <= k < |s'.log| ensures Fair(c, s', s'.log[k]) {
      if k < |s.log| {
        assert s'.log[k] == s.log[k];
        assert Fair(c, s, s.log[k]);
      }
    }
  }

  /** A task still with its submitter was never accepted. */
  lemma NotYetAccepted(c: Config, s: State, i: nat)
    requires Ledger(c, s) && NoTwice(s) && i < |s.subs| && !s.subs[i].pc.Returned?
    ensures s.subs[i].pc.t.id == i && i !in s.enq
  {
  }

  lemma TakeKeepsLedger(c: Config, s: State, s': State, th: Thread)
    requires Ledger(c, s) && s.now <= s'.now
    requires s'.shared == TakeExpired(c, s.shared, s'.now).0 && s'.log == s.log && s'.enq == s.enq
    requires |s'.subs| == |s.subs|
    requires forall i :: 0 <= i < |s.subs| && s.subs[i].pc.Returned? ==> s'.subs[i].pc.Returned?
    requires DeadOf(s', th) == Dead(c, s.shared.q, s'.now)
    requires forall th' :: th' != th ==> DeadOf(s', th') == DeadOf(s, th')
    requires forall w :: HeldOf(s', w) == HeldOf(s, w)
    ensures Ledger(c, s')
  {
    FilterKeepsFacts(c, s, s.shared.q, s'.now);
    assert AllAccepted(s, HeldOf(s, 0));
    QuietKeepsLedger(c, s, s', th, 0);
  }

  lemma CollectKeepsLedger(c: Config, s: State, i: nat)
    requires Ledger(c, s) && i < |s.subs| && s.subs[i].pc.Collecting?
    ensures Ledger(c, CollectBody(c, s, i).0)
  {
    CollectSteps(c, s, i);
    TakeKeepsLedger(c, s, CollectBody(c, s, i).0, Sub(i));
  }

  lemma SweepKeepsLedger(c: Config, s: State)
    requires c.depth >= 1 && Ledger(c, s) && Enabled(c, s, Sweep)
    ensures Ledger(c, SweepBody(c, s).0)
  {
    TakeKeepsLedger(c, s, SweepBody(c, s).0, Swp);
  }

  /** However a region of Submit ends, the ledger stays right. */
  lemma SubmitterKeepsLedger(c: Config, s: State, s': State, i: nat, t: Task, p: Shared, r: SubmitResult, now: int)
    requires Ledger(c, s) && OnePlace(s) && NoTwice(s) && SubmitterSteps(s, s', i, t, p, r, now) && s.now <= now
    requires !s.subs[i].pc.Returned? && DeadOf(s, Sub(i)) == [] && t.id == s.subs[i].pc.t.id
    requires RegionTakes(c, s.shared, p, t, r, now) && s'.enq == if r.Accepted? then s.enq + [t.id] else s.enq
    ensures Ledger(c, s')
  {
    OnlySub(s, s', i);
    NotYetAccepted(c, s, i);
    if r.Accepted? {
      AcceptKeepsLedger(c, s, s', i, t);
    } else if r.Clean? {
      TakeKeepsLedger(c, s, s', Sub(i));
    } else {
      IdleKeepsLedger(c, s, s');
    }
  }

  lemma LockKeepsLedger(c: Config, s: State, i: nat, d: nat)
    requires c.depth >= 1 && Ledger(c, s) && OnePlace(s) && NoTwice(s) && i < |s.subs| && s.subs[i].pc.Locking?
    ensures Ledger(c, LockBody(c, s, i, d).0)
  {
    var (p, t, r, wake) := SubmitRegion(c, s.shared, s.subs[i].pc.t, s.now, s.now + d);
    LockSteps(c, s, i, d);
    SubmitterKeepsLedger(c, s, LockBody(c, s, i, d).0, i, t, p, r, s.now + d);
  }

  lemma LoopKeepsLedger(c: Config, s: State, i: nat)
    requires Ledger(c, s) && OnePlace(s) && NoTwice(s) && i < |s.subs| && s.subs[i].pc.Looping?
    ensures Ledger(c, LoopBody(c, s, i).0)
  {
    var (p, r, wake) := LoopRegion(c, s.shared, s.subs[i].pc.t, s.subs[i].timer.Fired?, s.now);
    LoopSteps(c, s, i);
    SubmitterKeepsLedger(c, s, LoopBody(c, s, i).0, i, s.subs[i].pc.t, p, r, s.now);
  }

  lemma PopLists(c: Config, s: State, w: nat)
    requires w < |s.workers| && s.workers[w].Popping?
    ensures var s', live := PopBody(c, s, w).0, Live(c, s.shared.q, s.now);
      && DeadOf(s', Wrk(w)) == Dead(c, s.shared.q, s.now)
      && HeldOf(s', w) == (if live == [] then [] else [live[0]])
  {
  }

  /** What a pop leaves: the late tasks with the worker, the head in its hands, the rest in the queue. */
  lemma PopSteps(c: Config, s: State, w: nat)
    requires w < |s.workers| && s.workers[w].Popping?
    ensures var s', live := PopBody(c, s, w).0, Live(c, s.shared.q, s.now);
      && s'.shared.(q := s.shared.q) == s.shared && s'.shared.q == (if live == [] then [] else live[1..])
      && s'.log == s.log && s'.enq == s.enq && s'.now == s.now && s'.subs == s.subs
      && DeadOf(s', Wrk(w)) == Dead(c, s.shared.q, s.now)
      && HeldOf(s', w) == (if live == [] then [] else [live[0]])
      && (forall th :: th != Wrk(w) ==> DeadOf(s', th) == DeadOf(s, th))
      && (forall w' :: w' != w ==> HeldOf(s', w') == HeldOf(s, w'))
  {
    PopLists(c, s, w);
    OnlyWorker(s, PopBody(c, s, w).0, w);
  }

  lemma PopKeepsLedger(c: Config, s: State, w: nat)
    requires Ledger(c, s) && w < |s.workers| && s.workers[w].Popping?
    ensures Ledger(c, PopBody(c, s, w).0)
  {
    var s1, live := PopBody(c, s, w).0, Live(c, s.shared.q, s.now);
    FilterKeepsFacts(c, s, s.shared.q, s.now);
    PopSteps(c, s, w);
    assert AllAccepted(s, s1.shared.q) && AllAccepted(s, HeldOf(s1, w));
    QuietKeepsLedger(c, s, s1, Wrk(w), w);
  }

  lemma AfterReplyKeepsLedger(c: Config, s: State, th: Thread)
    requires Ledger(c, s) && DeadOf(s, th) != []
    ensures Ledger(c, AfterReply(s, th))
  {
    var dead := DeadOf(s, th);
    assert AllAccepted(s, dead) && AllLate(c, dead, s.now);
    AfterReplyLists(s, th);
    assert AllAccepted(s, HeldOf(s, 0));
    QuietKeepsLedger(c, s, AfterReply(s, th), th, 0);
  }

  lemma ReplyKeepsLedger(c: Config, s: State, th: Thread)
    requires c.depth >= 1 && Ledger(c, s) && Enabled(c, s, Reply(th))
    ensures Ledger(c, Next(c, s, Reply(th)))
  {
    var dead := DeadOf(s, th);
    var s1 := Called(s, dead[0], 0, REASON_DEADLINE);
    assert AllAccepted(s, dead) && AllLate(c, dead, s.now);
    AnswerKeepsLedger(c, s, s1, dead[0], 0, REASON_DEADLINE);
    AfterReplyKeepsLedger(c, s1, th);
  }

  /** A worker that has handed its task over holds nothing. */
  lemma EmptyHandsKeepLedger(c: Config, s: State, w: nat)
    requires Ledger(c, s) && w < |s.workers| && s.workers[w].Holding?
    ensures Ledger(c, SetWorker(s, w, Popping))
  {
    var s' := SetWorker(s, w, Popping);
    OnlyWorker(s, s', w);
    assert DeadOf(s', Wrk(w)) == DeadOf(s, Wrk(w)) == [];
    assert HeldOf(s', w) == [];
    QuietKeepsLedger(c, s, s', Wrk(w), w);
  }

  lemma HandKeepsLedger(c: Config, s: State, w: nat)
    requires c.depth >= 1 && Ledger(c, s) && Enabled(c, s, Hand(w))
    ensures Ledger(c, Next(c, s, Hand(w)))
  {
    var t := s.workers[w].t;
    assert AllAccepted(s, HeldOf(s, w));
    assert HeldOf(s, w)[0] == t;
    var reason := if Late(c, t, s.now) then REASON_DEADLINE else "";
    AnswerKeepsLedger(c, s, Called(s, t, LeftAt(c, t, s.now), reason), t, LeftAt(c, t, s.now), reason);
    EmptyHandsKeepLedger(c, Called(s, t, LeftAt(c, t, s.now), reason), w);
  }

  /** A submitter that has been answered returns. */
  lemma ReturningKeepsLedger(c: Config, s: State, i: nat)
    requires Ledger(c, s) && i < |s.subs| && DeadOf(s, Sub(i)) == []
    ensures Ledger(c, SetSub(s, i, Returned))
  {
    var s' := SetSub(s, i, Returned);
    OnlySub(s, s', i);
    assert DeadOf(s', Sub(i)) == [];
    IdleKeepsLedger(c, s, s');
  }

  /** A submitter's own task is refused: it was never accepted, so that is fair. */
  lemma RefusalKeepsLedger(c: Config, s: State, i: nat, budget: int, reason: string)
    requires Ledger(c, s) && NoTwice(s) && i < |s.subs| && (s.subs[i].pc.Expiring? || s.subs[i].pc.Shedding?)
    requires reason == REASON_DEADLINE || reason == REASON_QUEUE_LIMIT
    ensures Ledger(c, SetSub(Called(s, s.subs[i].pc.t, budget, reason), i, Returned))
  {
    var t := s.subs[i].pc.t;
    NotYetAccepted(c, s, i);
    AnswerKeepsLedger(c, s, Called(s, t, budget, reason), t, budget, reason);
    ReturningKeepsLedger(c, Called(s, t, budget, reason), i);
  }

  lemma OwnAnswerKeepsLedger(c: Config, s: State, a: Action, i: nat)
    requires c.depth >= 1 && Ledger(c, s) && NoTwice(s) && (a == Expire(i) || a == Shed(i)) && Enabled(c, s, a)
    ensures Ledger(c, Next(c, s, a))
  {
    if a.Expire? {
      RefusalKeepsLedger(c, s, i, s.subs[i].pc.left, REASON_DEADLINE);
    } else {
      RefusalKeepsLedger(c, s, i, 0, REASON_QUEUE_LIMIT);
    }
  }

  lemma RestKeepsLedger(c: Config, s: State, a: Action)
    requires c.depth >= 1 && Ledger(c, s) && Enabled(c, s, a)
    requires a.Tick? || a.Begin? || a.CloseStop? || a.Check? || a.SweepStop? || a.CloseJoin?
    ensures Ledger(c, Next(c, s, a))
  {
    IdleKeepsLedger(c, s, Next(c, s, a));
  }

  lemma TimerKeepsLedger(c: Config, s: State, i: nat)
    requires c.depth >= 1 && Ledger(c, s) && Enabled(c, s, TimerFires(i))
    ensures Ledger(c, Next(c, s, TimerFires(i)))
  {
    var s1 := s.(subs := s.subs[i := s.subs[i].(timer := Fired)]);
    IdleKeepsLedger(c, s, s1);
    NotifyKeepsLedger(c, s1, WakeAll, Swp);
  }

  lemma CloseLockKeepsLedger(c: Config, s: State)
    requires c.depth >= 1 && Ledger(c, s) && Enabled(c, s, CloseLock)
    ensures Ledger(c, Next(c, s, CloseLock))
  {
    var s1 := s.(shared := CloseRegion(s.shared).0, closer := Joining);
    IdleKeepsLedger(c, s, s1);
    NotifyKeepsLedger(c, s1, WakeAll, Swp);
  }

  lemma RegionKeepsLedger(c: Config, s: State, a: Action)
    requires c.depth >= 1 && Ledger(c, s) && OnePlace(s) && NoTwice(s) && Enabled(c, s, a)
    requires a.Collect? || a.Lock? || a.Loop? || a.Pop? || a.Sweep?
    ensures Ledger(c, Next(c, s, a))
  {
    if a.Collect? {
      CollectKeepsLedger(c, s, a.i);
      NotifyKeepsLedger(c, CollectBody(c, s, a.i).0, CollectBody(c, s, a.i).1, Swp);
    } else if a.Lock? {
      LockKeepsLedger(c, s, a.i, a.d);
      NotifyKeepsLedger(c, LockBody(c, s, a.i, a.d).0, LockBody(c, s, a.i, a.d).1, a.who);
    } else if a.Loop? {
      LoopKeepsLedger(c, s, a.i);
      NotifyKeepsLedger(c, LoopBody(c, s, a.i).0, LoopBody(c, s, a.i).1, a.who);
    } else if a.Pop? {
      PopKeepsLedger(c, s, a.w);
      NotifyKeepsLedger(c, PopBody(c, s, a.w).0, PopBody(c, s, a.w).1, Swp);
    } else {
      SweepKeepsLedger(c, s);
      NotifyKeepsLedger(c, SweepBody(c, s).0, SweepBody(c, s).1, Swp);
    }
  }

  lemma StepKeepsLedger(c: Config, s: State, a: Action)
    requires c.depth >= 1 && Ledger(c, s) && OnePlace(s) && NoTwice(s) && Enabled(c, s, a)
    ensures Ledger(c, Next(c, s, a))
  {
    if a.Collect? || a.Lock? || a.Loop? || a.Pop? || a.Sweep? {
      RegionKeepsLedger(c, s, a);
    } else if a.Reply? {
      ReplyKeepsLedger(c, s, a.th);
    } else if a.Hand? {
      HandKeepsLedger(c, s, a.w);
    } else if a.Expire? || a.Shed? {
      OwnAnswerKeepsLedger(c, s, a, a.i);
    } else if a.TimerFires? {
      TimerKeepsLedger(c, s, a.i);
    } else if a.CloseLock? {
      CloseLockKeepsLedger(c, s);
    } else {
      RestKeepsLedger(c, s, a);
    }
  }
}
