/**
 When a submitted task may be turned away: a task that never entered the queue is answered as expired only if it is
 hopeless, and as one too many only in drop mode at a full queue. Every step of every thread keeps this.
 */
module PoolRefusals {
  import opened WorkerPool
  import opened PoolProtocol
  import opened PoolPlaces
  import opened PoolLedger

  /** The moment at which no time is left. */
  function Due(c: Config, t: Task): int {
    t.enqueued + t.deadlineMS * NANOS_PER_MS - c.reserve
  }

  /** Less time is left than an evaluation needs, or none at all, or the pool is closed. */
  predicate Hopeless(c: Config, t: Task, at: int, closed: bool) {
    LeftAt(c, t, at) < c.minBudget || LeftAt(c, t, at) <= 0 || closed
  }

  /** The handler is told of no time, or of what was left when it was too little. */
  predicate BudgetOfRefusal(c: Config, t: Task, budget: int, at: int) {
    budget == 0 || LeftAt(c, t, at) <= budget < c.minBudget
  }

  /** A task that was never accepted is answered as expired only when it is hopeless, and as one too many only in
      drop mode, when the queue was full as it came. */
  ghost predicate RefusalRight(c: Config, enq: seq<nat>, a: Answer) {
    a.t.id !in enq ==>
      && (a.shed == REASON_DEADLINE ==> Hopeless(c, a.t, a.at, a.closed) && BudgetOfRefusal(c, a.t, a.budget, a.at))
      && (a.shed == REASON_QUEUE_LIMIT ==> c.full != FULL_WAIT && a.t.fill == 100 && a.budget == 0)
  }

  /** A timer is set to the moment at which no time is left, and has not fired before it. */
  predicate TimerRight(c: Config, t: Task, timer: Timer, now: int) {
    match timer
    case Unarmed => true
    case Armed(due) => due == Due(c, t)
    case Fired => now >= Due(c, t)
    case Stopped => true
  }

  /** Between its first look at a full queue and its way out of the wait loop. */
  predicate InWaitLoop(pc: SubmitPc) {
    pc.Blocked? || pc.Cleaning? || pc.Looping?
  }

  predicate SubRight(c: Config, now: int, closed: bool, sub: Submitter) {
    && (sub.pc.Expiring? ==> Hopeless(c, sub.pc.t, now, closed) && BudgetOfRefusal(c, sub.pc.t, sub.pc.left, now))
    && (sub.pc.Shedding? ==> c.full != FULL_WAIT && sub.pc.t.fill == 100)
    && (!sub.pc.Returned? ==> TimerRight(c, sub.pc.t, sub.timer, now))
    && (sub.timer.Armed? && !InWaitLoop(sub.pc) ==> sub.timer.due <= now)
  }

  ghost predicate Refusals(c: Config, s: State) {
    && (forall k :: 0 <= k < |s.log| ==> RefusalRight(c, s.enq, s.log[k]))
    && (forall i :: 0 <= i < |s.subs| ==> SubRight(c, s.now, s.shared.closed, s.subs[i]))
  }

  // ------------------------------------------------ every step keeps it

  lemma SubStaysRight(c: Config, sub: Submitter, now: int, closed: bool, later: int, closed': bool)
    requires SubRight(c, now, closed, sub) && now <= later && (closed ==> closed')
    ensures SubRight(c, later, closed', sub) && SubRight(c, later, closed', Woken(sub))
  {
  }

  /** Nothing is answered, time goes on, and the submitters stay right. */
  lemma QuietKeepsRefusals(c: Config, s: State, s': State)
    requires Refusals(c, s) && s'.log == s.log && (forall id :: id in s.enq ==> id in s'.enq)
    requires forall i :: 0 <= i < |s'.subs| ==> SubRight(c, s'.now, s'.shared.closed, s'.subs[i])
    ensures Refusals(c, s')
  {
  }

  /** Only submitter i moves, if any. */
  lemma OneSubKeepsRefusals(c: Config, s: State, s': State, i: nat)
    requires Refusals(c, s) && s'.log == s.log && (forall id :: id in s.enq ==> id in s'.enq)
    requires s.now <= s'.now && (s.shared.closed ==> s'.shared.closed) && |s'.subs| == |s.subs|
    requires forall k :: 0 <= k < |s.subs| && k != i ==> s'.subs[k] == s.subs[k]
    requires i < |s.subs| ==> SubRight(c, s'.now, s'.shared.closed, s'.subs[i])
    ensures Refusals(c, s')
  {
    forall k | 0 <= k < |s'.subs| ensures SubRight(c, s'.now, s'.shared.closed, s'.subs[k]) {
      if k != i {
        SubStaysRight(c, s.subs[k], s.now, s.shared.closed, s'.now, s'.shared.closed);
      }
    }
  }

  lemma NotifyKeepsRefusals(c: Config, s: State, wake: Wake, who: Thread)
    requires Refusals(c, s)
    ensures Refusals(c, Notify(s, wake, who))
  {
    var s' := Notify(s, wake, who);
    forall k | 0 <= k < |s'.subs| ensures SubRight(c, s'.now, s'.shared.closed, s'.subs[k]) {
      SubStaysRight(c, s.subs[k], s.now, s.shared.closed, s.now, s.shared.closed);
    }
  }

  /** One answer more, that is right. */
  lemma AnswerKeepsRefusals(c: Config, s: State, t: Task, budget: int, reason: string)
    requires Refusals(c, s) && RefusalRight(c, s.enq, Answer(t, budget, reason, s.now, s.shared.closed))
    ensures Refusals(c, Called(s, t, budget, reason))
  {
  }

  lemma CheckKeepsRefusals(c: Config, s: State, i: nat, d: nat)
    requires Refusals(c, s) && i < |s.subs| && s.subs[i].pc.Entered?
    ensures Refusals(c, CheckBody(c, s, i, d))
  {
    assert SubRight(c, s.now, s.shared.closed, s.subs[i]);
    OneSubKeepsRefusals(c, s, CheckBody(c, s, i, d), i);
  }

  lemma CollectKeepsRefusals(c: Config, s: State, i: nat)
    requires Refusals(c, s) && i < |s.subs| && s.subs[i].pc.Collecting?
    ensures Refusals(c, CollectBody(c, s, i).0)
  {
    assert SubRight(c, s.now, s.shared.closed, s.subs[i]);
    OneSubKeepsRefusals(c, s, CollectBody(c, s, i).0, i);
  }

  lemma LockKeepsRefusals(c: Config, s: State, i: nat, d: nat)
    requires c.depth >= 1 && Refusals(c, s) && i < |s.subs| && s.subs[i].pc.Locking?
    ensures Refusals(c, LockBody(c, s, i, d).0)
  {
    assert SubRight(c, s.now, s.shared.closed, s.subs[i]);
    FillIsPercent(c, s.shared);
    OneSubKeepsRefusals(c, s, LockBody(c, s, i, d).0, i);
  }

  lemma LoopKeepsRefusals(c: Config, s: State, i: nat)
    requires Refusals(c, s) && i < |s.subs| && s.subs[i].pc.Looping?
    ensures Refusals(c, LoopBody(c, s, i).0)
  {
    assert SubRight(c, s.now, s.shared.closed, s.subs[i]);
    OneSubKeepsRefusals(c, s, LoopBody(c, s, i).0, i);
  }

  lemma AfterReplyKeepsRefusals(c: Config, s: State, th: Thread)
    requires Refusals(c, s) && DeadOf(s, th) != []
    ensures Refusals(c, AfterReply(s, th))
  {
    if th.Sub? {
      assert SubRight(c, s.now, s.shared.closed, s.subs[th.i]);
      OneSubKeepsRefusals(c, s, AfterReply(s, th), th.i);
    } else {
      OneSubKeepsRefusals(c, s, AfterReply(s, th), |s.subs|);
    }
  }

  lemma ReplyKeepsRefusals(c: Config, s: State, th: Thread)
    requires c.depth >= 1 && Ledger(c, s) && Refusals(c, s) && Enabled(c, s, Reply(th))
    ensures Refusals(c, Next(c, s, Reply(th)))
  {
    var t := DeadOf(s, th)[0];
    assert AllAccepted(s, DeadOf(s, th));
    AnswerKeepsRefusals(c, s, t, 0, REASON_DEADLINE);
    AfterReplyKeepsRefusals(c, Called(s, t, 0, REASON_DEADLINE), th);
  }

  lemma HandKeepsRefusals(c: Config, s: State, w: nat)
    requires c.depth >= 1 && Ledger(c, s) && Refusals(c, s) && Enabled(c, s, Hand(w))
    ensures Refusals(c, Next(c, s, Hand(w)))
  {
    var t := s.workers[w].t;
    var reason := if Late(c, t, s.now) then REASON_DEADLINE else "";
    assert AllAccepted(s, HeldOf(s, w)) && HeldOf(s, w)[0] == t;
    AnswerKeepsRefusals(c, s, t, LeftAt(c, t, s.now), reason);
    OneSubKeepsRefusals(c, Called(s, t, LeftAt(c, t, s.now), reason), Next(c, s, Hand(w)), |s.subs|);
  }

  lemma RefusedKeepsRefusals(c: Config, s: State, i: nat, budget: int, reason: string)
    requires Refusals(c, s) && i < |s.subs| && !s.subs[i].pc.Returned? && !InWaitLoop(s.subs[i].pc)
    requires RefusalRight(c, s.enq, Answer(s.subs[i].pc.t, budget, reason, s.now, s.shared.closed))
    ensures Refusals(c, SetSub(Called(s, s.subs[i].pc.t, budget, reason), i, Returned))
  {
    assert SubRight(c, s.now, s.shared.closed, s.subs[i]);
    var s1 := Called(s, s.subs[i].pc.t, budget, reason);
    AnswerKeepsRefusals(c, s, s.subs[i].pc.t, budget, reason);
    OneSubKeepsRefusals(c, s1, SetSub(s1, i, Returned), i);
  }

  lemma OwnAnswerKeepsRefusals(c: Config, s: State, a: Action, i: nat)
    requires c.depth >= 1 && Refusals(c, s) && (a == Expire(i) || a == Shed(i)) && Enabled(c, s, a)
    ensures Refusals(c, Next(c, s, a))
  {
    assert SubRight(c, s.now, s.shared.closed, s.subs[i]);
    if a.Expire? {
      RefusedKeepsRefusals(c, s, i, s.subs[i].pc.left, REASON_DEADLINE);
    } else {
      RefusedKeepsRefusals(c, s, i, 0, REASON_QUEUE_LIMIT);
    }
  }

  lemma TimerKeepsRefusals(c: Config, s: State, i: nat)
    requires c.depth >= 1 && Refusals(c, s) && Enabled(c, s, TimerFires(i))
    ensures Refusals(c, Next(c, s, TimerFires(i)))
  {
    var s1 := s.(subs := s.subs[i := s.subs[i].(timer := Fired)]);
    assert SubRight(c, s.now, s.shared.closed, s.subs[i]);
    OneSubKeepsRefusals(c, s, s1, i);
    NotifyKeepsRefusals(c, s1, WakeAll, Swp);
  }

  lemma CloseLockKeepsRefusals(c: Config, s: State)
    requires c.depth >= 1 && Refusals(c, s) && Enabled(c, s, CloseLock)
    ensures Refusals(c, Next(c, s, CloseLock))
  {
    var s1 := s.(shared := CloseRegion(s.shared).0, closer := Joining);
    OneSubKeepsRefusals(c, s, s1, |s.subs|);
    NotifyKeepsRefusals(c, s1, WakeAll, Swp);
  }

  lemma PopSweepKeepRefusals(c: Config, s: State, a: Action)
    requires c.depth >= 1 && Refusals(c, s) && Enabled(c, s, a) && (a.Pop? || a.Sweep?)
    ensures Refusals(c, Next(c, s, a))
  {
    if a.Pop? {
      OneSubKeepsRefusals(c, s, PopBody(c, s, a.w).0, |s.subs|);
      NotifyKeepsRefusals(c, PopBody(c, s, a.w).0, PopBody(c, s, a.w).1, Swp);
    } else {
      OneSubKeepsRefusals(c, s, SweepBody(c, s).0, |s.subs|);
      NotifyKeepsRefusals(c, SweepBody(c, s).0, SweepBody(c, s).1, Swp);
    }
  }

  lemma SubmitKeepsRefusals(c: Config, s: State, a: Action)
    requires c.depth >= 1 && Refusals(c, s) && Enabled(c, s, a) && (a.Check? || a.Collect? || a.Lock? || a.Loop?)
    ensures Refusals(c, Next(c, s, a))
  {
    if a.Check? {
      CheckKeepsRefusals(c, s, a.i, a.d);
    } else if a.Collect? {
      CollectKeepsRefusals(c, s, a.i);
      NotifyKeepsRefusals(c, CollectBody(c, s, a.i).0, CollectBody(c, s, a.i).1, Swp);
    } else if a.Lock? {
      LockKeepsRefusals(c, s, a.i, a.d);
      NotifyKeepsRefusals(c, LockBody(c, s, a.i, a.d).0, LockBody(c, s, a.i, a.d).1, a.who);
    } else {
      LoopKeepsRefusals(c, s, a.i);
      NotifyKeepsRefusals(c, LoopBody(c, s, a.i).0, LoopBody(c, s, a.i).1, a.who);
    }
  }

  lemma BeginKeepsRefusals(c: Config, s: State, deadlineMS: int)
    requires c.depth >= 1 && Refusals(c, s)
    ensures Refusals(c, Next(c, s, Begin(deadlineMS)))
  {
    var s' := Next(c, s, Begin(deadlineMS));
    forall k | 0 <= k < |s'.subs| ensures SubRight(c, s'.now, s'.shared.closed, s'.subs[k]) {
      if k < |s.subs| {
        assert s'.subs[k] == s.subs[k];
      }
    }
  }

  /** No step of any thread turns a task away without need. */
  lemma StepKeepsRefusals(c: Config, s: State, a: Action)
    requires c.depth >= 1 && Ledger(c, s) && Refusals(c, s) && Enabled(c, s, a)
    ensures Refusals(c, Next(c, s, a))
  {
    if a.Check? || a.Collect? || a.Lock? || a.Loop? {
      SubmitKeepsRefusals(c, s, a);
    } else if a.Pop? || a.Sweep? {
      PopSweepKeepRefusals(c, s, a);
    } else if a.Reply? {
      ReplyKeepsRefusals(c, s, a.th);
    } else if a.Hand? {
      HandKeepsRefusals(c, s, a.w);
    } else if a.Expire? || a.Shed? {
      OwnAnswerKeepsRefusals(c, s, a, a.i);
    } else if a.TimerFires? {
      TimerKeepsRefusals(c, s, a.i);
    } else if a.CloseLock? {
      CloseLockKeepsRefusals(c, s);
    } else if a.Begin? {
      BeginKeepsRefusals(c, s, a.deadlineMS);
    } else {
      OneSubKeepsRefusals(c, s, Next(c, s, a), |s.subs|);
    }
  }
}
