/** What holds in every state every run of the pool can reach. */
module PoolSafety {
  import opened WorkerPool
  import opened PoolProtocol
  import opened PoolPlaces
  import opened PoolWakeups
  import opened PoolLedger
  import opened PoolRefusals

  ghost predicate Inv(c: Config, s: State) {
    && c.depth >= 1
    && OnePlace(s) && NoTwice(s)
    && Wakeups(c, s) && Mode(c, s) && Closing(s)
    && Ledger(c, s) && Fifo(s) && Refusals(c, s)
  }

  lemma InitPlaces(c: Config, s: State)
    requires Init(c, s)
    ensures OnePlace(s) && NoTwice(s)
    ensures forall th :: DeadOf(s, th) == []
    ensures forall w :: HeldOf(s, w) == []
  {
    assert forall th :: DeadOf(s, th) == [];
    assert forall w :: HeldOf(s, w) == [];
    assert forall id: nat, p :: !At(s, id, p);
  }

  lemma InitInv(c: Config, s: State)
    requires Init(c, s)
    ensures Inv(c, s)
  {
    InitPlaces(c, s);
    InitLedger(c, s);
  }

  lemma InitLedger(c: Config, s: State)
    requires Init(c, s) && (forall th :: DeadOf(s, th) == []) && (forall w :: HeldOf(s, w) == [])
    ensures Ledger(c, s) && Fifo(s) && Refusals(c, s)
  {
  }

  lemma StepInv(c: Config, s: State, a: Action)
    requires Inv(c, s) && Enabled(c, s, a)
    ensures Inv(c, Next(c, s, a))
  {
    StepMoves(c, s, a);
    StepKeepsWakeups(c, s, a);
    StepKeepsMode(c, s, a);
    StepKeepsLedger(c, s, a);
    StepKeepsFifo(c, s, a);
    StepKeepsRefusals(c, s, a);
  }

  /** Every interleaving of submitters, workers, sweeper, timers and Close keeps the invariant. */
  lemma {:induction false} RunInv(c: Config, s: State, steps: seq<Action>)
    requires Inv(c, s) && Runs(c, s, steps)
    ensures Inv(c, End(c, s, steps))
    decreases |steps|
  {
    if steps != [] {
      StepInv(c, s, steps[0]);
      RunInv(c, Next(c, s, steps[0]), steps[1..]);
    }
  }

  /** A signal never goes to a submitter: when an enqueue signals, no submitter waits. */
  lemma SignalReachesWorkers(c: Config, s: State, a: Action)
    requires c.depth >= 1 && Wakeups(c, s) && Mode(c, s) && Enabled(c, s, a)
    ensures (a.Lock? && LockBody(c, s, a.i, a.d).1.WakeOne?) || (a.Loop? && LoopBody(c, s, a.i).1.WakeOne?) ==>
      && (forall i :: 0 <= i < |s.subs| ==> !s.subs[i].pc.Blocked?)
      && !s.shared.closed && |s.shared.q| < c.depth
  {
    if a.Lock? {
      assert LockBody(c, s, a.i, a.d).1.WakeOne? ==> |s.shared.q| < c.depth && !s.shared.closed;
    } else if a.Loop? {
      assert LoopBody(c, s, a.i).1.WakeOne? ==> |s.shared.q| < c.depth && !s.shared.closed;
    }
  }

  /** Nothing enters the queue of a closed pool, and a pool once closed stays closed. */
  lemma ClosedStaysShut(c: Config, s: State, a: Action)
    requires c.depth >= 1 && Enabled(c, s, a) && s.shared.closed
    ensures Next(c, s, a).shared.closed && Next(c, s, a).enq == s.enq
  {
    if a.Lock? {
      NotifySteps(LockBody(c, s, a.i, a.d).0, LockBody(c, s, a.i, a.d).1, a.who);
    } else if a.Loop? {
      NotifySteps(LoopBody(c, s, a.i).0, LoopBody(c, s, a.i).1, a.who);
    } else if a.Pop? {
      NotifySteps(PopBody(c, s, a.w).0, PopBody(c, s, a.w).1, Swp);
    } else if a.Collect? {
      NotifySteps(CollectBody(c, s, a.i).0, CollectBody(c, s, a.i).1, Swp);
    } else if a.Sweep? {
      NotifySteps(SweepBody(c, s).0, SweepBody(c, s).1, Swp);
    }
  }

  lemma NotifyKeepsDead(s: State, wake: Wake, who: Thread, th: Thread)
    ensures DeadOf(Notify(s, wake, who), th) == DeadOf(s, th)
  {
  }

  /** Before anybody is woken: a region gives a dead list only to a thread that had none. */
  lemma BodiesKeepDead(c: Config, s: State, a: Action, th: Thread)
    requires c.depth >= 1 && DeadOf(s, th) != []
    ensures a.Collect? && a.i < |s.subs| && s.subs[a.i].pc.Collecting? ==> DeadOf(CollectBody(c, s, a.i).0, th) == DeadOf(s, th)
    ensures a.Lock? && a.i < |s.subs| && s.subs[a.i].pc.Locking? ==> DeadOf(LockBody(c, s, a.i, a.d).0, th) == DeadOf(s, th)
    ensures a.Loop? && a.i < |s.subs| && s.subs[a.i].pc.Looping? ==> DeadOf(LoopBody(c, s, a.i).0, th) == DeadOf(s, th)
    ensures a.Pop? && a.w < |s.workers| && s.workers[a.w].Popping? ==> DeadOf(PopBody(c, s, a.w).0, th) == DeadOf(s, th)
    ensures s.sweeper.Idle? ==> DeadOf(SweepBody(c, s).0, th) == DeadOf(s, th)
  {
    if a.Collect? && a.i < |s.subs| && s.subs[a.i].pc.Collecting? {
      OnlySub(s, CollectBody(c, s, a.i).0, a.i);
    } else if a.Lock? && a.i < |s.subs| && s.subs[a.i].pc.Locking? {
      OnlySub(s, LockBody(c, s, a.i, a.d).0, a.i);
    } else if a.Loop? && a.i < |s.subs| && s.subs[a.i].pc.Looping? {
      OnlySub(s, LoopBody(c, s, a.i).0, a.i);
    } else if a.Pop? && a.w < |s.workers| && s.workers[a.w].Popping? {
      OnlyWorker(s, PopBody(c, s, a.w).0, a.w);
    }
  }

  lemma RegionsKeepDead(c: Config, s: State, a: Action, th: Thread)
    requires c.depth >= 1 && Enabled(c, s, a) && DeadOf(s, th) != []
    requires a.Collect? || a.Lock? || a.Loop? || a.Pop? || a.Sweep?
    ensures DeadOf(Next(c, s, a), th) == DeadOf(s, th)
  {
    BodiesKeepDead(c, s, a, th);
    if a.Collect? {
      NotifyKeepsDead(CollectBody(c, s, a.i).0, CollectBody(c, s, a.i).1, Swp, th);
    } else if a.Lock? {
      NotifyKeepsDead(LockBody(c, s, a.i, a.d).0, LockBody(c, s, a.i, a.d).1, a.who, th);
    } else if a.Loop? {
      NotifyKeepsDead(LoopBody(c, s, a.i).0, LoopBody(c, s, a.i).1, a.who, th);
    } else if a.Pop? {
      NotifyKeepsDead(PopBody(c, s, a.w).0, PopBody(c, s, a.w).1, Swp, th);
    } else {
      NotifyKeepsDead(SweepBody(c, s).0, SweepBody(c, s).1, Swp, th);
    }
  }

  lemma BroadcastsKeepDead(c: Config, s: State, a: Action, th: Thread)
    requires c.depth >= 1 && Enabled(c, s, a) && DeadOf(s, th) != [] && (a.TimerFires? || a.CloseLock?)
    ensures DeadOf(Next(c, s, a), th) == DeadOf(s, th)
  {
    if a.TimerFires? {
      NotifyKeepsDead(s.(subs := s.subs[a.i := s.subs[a.i].(timer := Fired)]), WakeAll, Swp, th);
    } else {
      NotifyKeepsDead(s.(shared := CloseRegion(s.shared).0, closer := Joining), WakeAll, Swp, th);
    }
  }

  lemma ReplyTakesHead(c: Config, s: State, who: Thread, th: Thread)
    requires c.depth >= 1 && DeadOf(s, who) != [] && DeadOf(s, th) != []
    ensures DeadOf(Next(c, s, Reply(who)), th) == if who == th then DeadOf(s, th)[1..] else DeadOf(s, th)
  {
  }

  /** A dead list is never overwritten: it only loses its head, and that head is answered by the step. */
  lemma DeadListsAreAnswered(c: Config, s: State, a: Action, th: Thread)
    requires c.depth >= 1 && Enabled(c, s, a) && DeadOf(s, th) != []
    ensures a == Reply(th) ==>
              DeadOf(Next(c, s, a), th) == DeadOf(s, th)[1..] &&
              |Next(c, s, a).log| == |s.log| + 1 && Next(c, s, a).log[|s.log|].t == DeadOf(s, th)[0]
    ensures a != Reply(th) ==> DeadOf(Next(c, s, a), th) == DeadOf(s, th)
  {
    if a.Reply? {
      ReplyTakesHead(c, s, a.th, th);
    } else if a.Collect? || a.Lock? || a.Loop? || a.Pop? || a.Sweep? {
      RegionsKeepDead(c, s, a, th);
    } else if a.TimerFires? || a.CloseLock? {
      BroadcastsKeepDead(c, s, a, th);
    }
  }

  // ------------------------------------------------ counting

  ghost function AnsweredIds(log: seq<Answer>): set<nat> {
    set k | 0 <= k < |log| :: log[k].t.id
  }

  lemma {:induction false} AnswersAreCounted(log: seq<Answer>)
    requires forall j, k :: 0 <= j < k < |log| ==> log[j].t.id != log[k].t.id
    ensures |AnsweredIds(log)| == |log|
  {
    if log != [] {
      var n := |log| - 1;
      AnswersAreCounted(log[..n]);
      assert AnsweredIds(log) == AnsweredIds(log[..n]) + {log[n].t.id};
    }
  }

  ghost function Below(n: nat): (ids: set<nat>)
    ensures |ids| == n && forall id: nat :: id in ids <==> id < n
  {
    if n == 0 then {} else Below(n - 1) + {n - 1}
  }

  /** The submitted tasks the handler has not been called for. */
  ghost function Pending(s: State): set<nat> {
    set id: nat | 0 <= id < |s.subs| && !At(s, id, Answered)
  }

  lemma {:induction false} ReasonsAddUp(c: Config, s: State, log: seq<Answer>)
    requires forall k :: 0 <= k < |log| ==> Fair(c, s, log[k])
    ensures |log| == CountReason(log, "") + CountReason(log, REASON_QUEUE_LIMIT) + CountReason(log, REASON_DEADLINE)
  {
    if log != [] {
      ReasonsAddUp(c, s, log[..|log| - 1]);
      assert Fair(c, s, log[|log| - 1]);
    }
  }

  lemma PendingAddsUp(s: State)
    requires OnePlace(s) && NoTwice(s)
    ensures |s.subs| == |s.log| + |Pending(s)|
  {
    AnswersAreCounted(s.log);
    forall id: nat ensures id in AnsweredIds(s.log) <==> At(s, id, Answered) {
    }
    assert AnsweredIds(s.log) !! Pending(s);
    assert Below(|s.subs|) == AnsweredIds(s.log) + Pending(s);
  }

  /** Submitted tasks = evaluated + shed + expired + still on their way. */
  lemma CountersAddUp(c: Config, s: State)
    requires Inv(c, s)
    ensures |s.subs| == CountReason(s.log, "") + s.shared.shed + s.shared.expired + |Pending(s)|
    ensures s.shared.accepted == |s.enq|
    ensures c.full == FULL_WAIT ==> s.shared.shed == 0
  {
    ReasonsAddUp(c, s, s.log);
    PendingAddsUp(s);
  }

  /** In drop mode a submitter never sleeps. */
  lemma DropNeverBlocks(c: Config, s: State, i: nat)
    requires Inv(c, s) && c.full != FULL_WAIT && i < |s.subs|
    ensures !Waits(s, Sub(i)) && !s.subs[i].pc.Looping?
  {
  }

  /** An evaluated task had at least the minimum budget, and elapsed + reserve + budget is its deadline;
      an accepted task that was not evaluated was late when it was answered and is late ever after. */
  lemma BudgetIsHonest(c: Config, s: State, k: nat, later: int)
    requires Inv(c, s) && k < |s.log| && s.log[k].at <= later
    ensures var a := s.log[k];
      && (a.shed == "" ==> a.budget >= c.minBudget)
      && (a.shed == "" ==> (a.at - a.t.enqueued) + c.reserve + a.budget == a.t.deadlineMS * NANOS_PER_MS)
      && (a.t.id in s.enq && a.shed != "" ==> Late(c, a.t, later))
  {
    assert Fair(c, s, s.log[k]);
  }

  /** In every reachable state: a task that never entered the queue and was answered as expired had less than the
      minimum budget left, or nothing, or came to a closed pool; one that was answered as one too many came in drop
      mode to a full queue. */
  lemma RefusalsAreJustified(c: Config, s: State, k: nat)
    requires Inv(c, s) && k < |s.log| && s.log[k].t.id !in s.enq
    ensures var a := s.log[k];
      && (a.shed == REASON_DEADLINE || a.shed == REASON_QUEUE_LIMIT)
      && (a.shed == REASON_DEADLINE ==> LeftAt(c, a.t, a.at) < c.minBudget || LeftAt(c, a.t, a.at) <= 0 || a.closed)
      && (a.shed == REASON_QUEUE_LIMIT ==> c.full != FULL_WAIT && a.t.fill == 100)
  {
    assert Fair(c, s, s.log[k]) && RefusalRight(c, s.enq, s.log[k]);
  }

  // ------------------------------------------------ drain on close

  ghost predicate AnsweredOnce(s: State, id: nat) {
    exists k :: 0 <= k < |s.log| && s.log[k].t.id == id
             && forall j :: 0 <= j < |s.log| && s.log[j].t.id == id ==> j == k
  }

  lemma AnsweredExactlyOnce(s: State, id: nat)
    requires NoTwice(s) && At(s, id, Answered)
    ensures AnsweredOnce(s, id)
  {
    var k :| 0 <= k < |s.log| && s.log[k].t.id == id;
    assert forall j :: 0 <= j < |s.log| && s.log[j].t.id == id ==> j == k;
  }

  /** When Close has returned and no Submit is in flight, the queue is empty and the handler
      was called exactly once for every task. */
  lemma DrainedOnClose(c: Config, s: State)
    requires Inv(c, s) && c.workers >= 1 && s.closer.Closed?
    requires forall i :: 0 <= i < |s.subs| ==> s.subs[i].pc.Returned?
    ensures s.shared.q == []
    ensures forall id: nat :: id < |s.subs| ==> AnsweredOnce(s, id)
  {
    assert Leaving(s.workers[0]);
    forall id: nat | id < |s.subs| ensures AnsweredOnce(s, id) {
      assert Somewhere(s, id);
      var p :| At(s, id, p);
      assert forall th :: DeadOf(s, th) == [];
      assert forall w :: HeldOf(s, w) == [];
      AnsweredExactlyOnce(s, id);
    }
  }

  /** The whole-run form: from a fresh pool, along any run. */
  lemma RunsDrain(c: Config, s: State, steps: seq<Action>)
    requires Init(c, s) && Runs(c, s, steps) && c.workers >= 1
    ensures var e := End(c, s, steps);
      && Inv(c, e)
      && (e.closer.Closed? && (forall i :: 0 <= i < |e.subs| ==> e.subs[i].pc.Returned?) ==>
           e.shared.q == [] && forall id: nat :: id < |e.subs| ==> AnsweredOnce(e, id))
  {
    InitInv(c, s);
    RunInv(c, s, steps);
    var e := End(c, s, steps);
    if e.closer.Closed? && (forall i :: 0 <= i < |e.subs| ==> e.subs[i].pc.Returned?) {
      DrainedOnClose(c, e);
    }
  }
}
