/**
 No lost wake-up. Workers and blocked submitters share one condition variable, and an
 enqueue wakes a single waiter; the invariant says why that waiter is always a worker and
 why a queue with a task in it always has a worker awake.
 */
module PoolWakeups {
  import opened WorkerPool
  import opened PoolProtocol

  /** The workers that are about to look at the queue. */
  function AboutToPop(ws: seq<WorkerPc>): nat {
    if ws == [] then 0
    else AboutToPop(ws[..|ws| - 1]) + if ws[|ws| - 1].Popping? then 1 else 0
  }

  lemma {:induction false} AboutToPopUpdate(ws: seq<WorkerPc>, w: nat, pc: WorkerPc)
    requires w < |ws|
    ensures AboutToPop(ws[w := pc])
         == AboutToPop(ws) - (if ws[w].Popping? then 1 else 0) + if pc.Popping? then 1 else 0
  {
    var n := |ws| - 1;
    if w == n {
      assert ws[w := pc][..n] == ws[..n];
    } else {
      assert ws[w := pc][..n] == ws[..n][w := pc];
      AboutToPopUpdate(ws[..n], w, pc);
    }
  }

  /** A blocked submitter means a full and open queue and a timer still to fire; a sleeping worker means
      no more tasks than workers about to look; a leaving worker means a closed and empty pool. */
  ghost predicate Wakeups(c: Config, s: State) {
    && |s.workers| == c.workers
    && |s.shared.q| <= c.depth
    && (forall i :: 0 <= i < |s.subs| && s.subs[i].pc.Blocked? ==>
          |s.shared.q| == c.depth && !s.shared.closed && s.subs[i].timer.Armed?)
    && (forall w :: 0 <= w < |s.workers| && s.workers[w].Asleep? ==>
          !s.shared.closed && |s.shared.q| <= AboutToPop(s.workers))
    && (forall w :: 0 <= w < |s.workers| && Leaving(s.workers[w]) ==> s.shared.closed && s.shared.q == [])
  }

  predicate Leaving(pc: WorkerPc) {
    pc.Exited? || (pc.Clearing? && pc.next.Quit?)
  }

  /** The close protocol, what each stage of Close has already done; and a thread in the middle of
      replyDead has a task left to answer. */
  ghost predicate Closing(s: State) {
    && (forall i :: 0 <= i < |s.subs| && (s.subs[i].pc.Replying? || s.subs[i].pc.Cleaning?) ==> s.subs[i].pc.dead != [])
    && (forall w :: 0 <= w < |s.workers| && s.workers[w].Clearing? ==> s.workers[w].dead != [])
    && (s.sweeper.Sweeping? ==> s.sweeper.dead != [])
    && (s.shared.closed <==> s.closer.Joining? || s.closer.Closed?)
    && (s.sweeper.Swept? ==> !s.closer.Open?)
    && (s.closer.Closed? ==> s.sweeper.Swept? && forall w :: 0 <= w < |s.workers| ==> s.workers[w].Exited?)
  }

  /** In drop mode no submitter gets as far as the wait loop; in wait mode none is refused for a full queue. */
  ghost predicate Mode(c: Config, s: State) {
    && (c.full != FULL_WAIT ==> forall i :: 0 <= i < |s.subs| ==>
          s.subs[i].timer.Unarmed? && !s.subs[i].pc.Cleaning? && !s.subs[i].pc.Looping? && !s.subs[i].pc.Blocked?)
    && (c.full == FULL_WAIT ==> s.shared.shed == 0 && forall i :: 0 <= i < |s.subs| ==> !s.subs[i].pc.Shedding?)
    && (forall i :: 0 <= i < |s.subs| && (s.subs[i].pc.Cleaning? || s.subs[i].pc.Looping? || s.subs[i].pc.Blocked?) ==>
          s.subs[i].timer.Armed? || s.subs[i].timer.Fired?)
  }

  lemma {:induction false} LiveBound(c: Config, q: seq<Task>, now: int)
    ensures |Live(c, q, now)| + |Dead(c, q, now)| == |q|
  {
    if q != [] {
      LiveBound(c, q[..|q| - 1], now);
    }
  }

  /** After a broadcast nobody waits. */
  lemma BroadcastEmptiesWaitSet(s: State)
    ensures forall th :: !Waits(Broadcast(s), th)
  {
  }

  /** A broadcast keeps the invariant as soon as it held apart from the waiters. */
  lemma BroadcastKeeps(c: Config, s: State)
    requires |s.workers| == c.workers && |s.shared.q| <= c.depth
    requires forall w :: 0 <= w < |s.workers| && Leaving(s.workers[w]) ==> s.shared.closed && s.shared.q == []
    ensures Wakeups(c, Broadcast(s))
  {
    var s' := Broadcast(s);
    assert forall w :: 0 <= w < |s.workers| ==> s'.workers[w] == Roused(s.workers[w]);
  }

  /** The signal of an enqueue goes to a worker if one sleeps: then nobody else can be waiting. */
  lemma SignalKeeps(c: Config, s: State, s1: State, who: Thread)
    requires c.depth >= 1 && Wakeups(c, s) && !s.shared.closed && |s.shared.q| < c.depth
    requires s1.workers == s.workers && |s1.shared.q| == |s.shared.q| + 1 && !s1.shared.closed
    requires |s1.subs| == |s.subs|
    requires forall i :: 0 <= i < |s.subs| && s1.subs[i].pc.Blocked? ==> s1.subs[i] == s.subs[i]
    requires Chosen(s1, who)
    ensures !who.Sub? || !Waits(s1, who)
    ensures Wakeups(c, Signal(s1, who))
  {
    assert forall i :: 0 <= i < |s1.subs| ==> !s1.subs[i].pc.Blocked?;
    if Waits(s1, who) {
      AboutToPopUpdate(s1.workers, who.w, Popping);
    } else {
      forall w | 0 <= w < |s1.workers| ensures !s1.workers[w].Asleep? {
        assert !Waits(s1, Wrk(w));
      }
    }
  }

  /** Only waiters and workers on their way out matter to the invariant. */
  lemma OthersKeep(c: Config, s: State, s': State)
    requires Wakeups(c, s) && s'.shared.q == s.shared.q && s'.shared.closed == s.shared.closed
    requires s'.workers == s.workers && |s'.subs| >= |s.subs|
    requires forall i :: 0 <= i < |s.subs| && s'.subs[i].pc.Blocked? ==> s'.subs[i] == s.subs[i]
    requires forall i :: |s.subs| <= i < |s'.subs| ==> !s'.subs[i].pc.Blocked?
    ensures Wakeups(c, s')
  {
  }

  lemma WorkerKeeps(c: Config, s: State, s': State, w: nat, pc: WorkerPc)
    requires Wakeups(c, s) && s'.shared.q == s.shared.q && s'.shared.closed == s.shared.closed
    requires w < |s.workers| && s'.workers == s.workers[w := pc] && s'.subs == s.subs
    requires !s.workers[w].Popping? && !pc.Asleep?
    requires Leaving(pc) ==> s.shared.closed && s.shared.q == []
    ensures Wakeups(c, s')
  {
    AboutToPopUpdate(s.workers, w, pc);
  }

  lemma TakeKeeps(c: Config, s: State, s1: State, dead: seq<Task>, wake: Wake)
    requires Wakeups(c, s) && (s1.shared, dead, wake) == TakeExpired(c, s.shared, s1.now)
    requires s1.workers == s.workers && |s1.subs| == |s.subs|
    requires forall i :: 0 <= i < |s.subs| && s1.subs[i].pc.Blocked? ==> s1.subs[i] == s.subs[i]
    ensures Wakeups(c, Notify(s1, wake, Swp))
  {
    LiveBound(c, s.shared.q, s1.now);
    if dead == [] {
      NoneDead(c, s.shared.q, s1.now);
    } else {
      BroadcastKeeps(c, s1);
    }
  }

  lemma LockKeeps(c: Config, s: State, i: nat, d: nat, who: Thread)
    requires c.depth >= 1 && Wakeups(c, s) && Enabled(c, s, Lock(i, d, who))
    ensures Wakeups(c, Next(c, s, Lock(i, d, who)))
  {
    var (p, t, r, wake) := SubmitRegion(c, s.shared, s.subs[i].pc.t, s.now, s.now + d);
    var s1 := LockBody(c, s, i, d).0;
    match r
    case Accepted => SignalKeeps(c, s, s1, who);
    case Clean(dead) => TakeKeeps(c, s, s1, dead, wake);
    case Block =>
    case GiveUp(_) => OthersKeep(c, s, s1);
    case Refuse => OthersKeep(c, s, s1);
  }

  lemma LoopKeeps(c: Config, s: State, i: nat, who: Thread)
    requires c.depth >= 1 && Wakeups(c, s) && Mode(c, s) && Enabled(c, s, Loop(i, who))
    ensures Wakeups(c, Next(c, s, Loop(i, who)))
  {
    var (p, r, wake) := LoopRegion(c, s.shared, s.subs[i].pc.t, s.subs[i].timer.Fired?, s.now);
    var s1 := LoopBody(c, s, i).0;
    match r
    case Accepted => SignalKeeps(c, s, s1, who);
    case Clean(dead) => TakeKeeps(c, s, s1, dead, wake);
    case Block =>
    case GiveUp(_) => OthersKeep(c, s, s1);
  }

  lemma PopKeeps(c: Config, s: State, w: nat)
    requires c.depth >= 1 && Wakeups(c, s) && Enabled(c, s, Pop(w))
    ensures Wakeups(c, Next(c, s, Pop(w)))
  {
    var (p, r, wake) := PopRegion(c, s.shared, s.now);
    var s1 := PopBody(c, s, w).0;
    LiveBound(c, s.shared.q, s.now);
    AboutToPopUpdate(s.workers, w, s1.workers[w]);
    if wake.WakeAll? {
      BroadcastKeeps(c, s1);
    }
  }

  lemma CollectKeeps(c: Config, s: State, i: nat)
    requires c.depth >= 1 && Wakeups(c, s) && Enabled(c, s, Collect(i))
    ensures Wakeups(c, Next(c, s, Collect(i)))
  {
    var (p, dead, wake) := TakeExpired(c, s.shared, s.now);
    TakeKeeps(c, s, CollectBody(c, s, i).0, dead, wake);
  }

  lemma SweepKeeps(c: Config, s: State)
    requires c.depth >= 1 && Wakeups(c, s) && Enabled(c, s, Sweep)
    ensures Wakeups(c, Next(c, s, Sweep))
  {
    var (p, dead, wake) := TakeExpired(c, s.shared, s.now);
    TakeKeeps(c, s, SweepBody(c, s).0, dead, wake);
  }

  lemma ReplyKeeps(c: Config, s: State, th: Thread)
    requires c.depth >= 1 && Wakeups(c, s) && Enabled(c, s, Reply(th))
    ensures Wakeups(c, Next(c, s, Reply(th)))
  {
    var s' := Next(c, s, Reply(th));
    if th.Wrk? {
      WorkerKeeps(c, s, s', th.w, s'.workers[th.w]);
    } else {
      OthersKeep(c, s, s');
    }
  }

  lemma HandKeeps(c: Config, s: State, w: nat)
    requires c.depth >= 1 && Wakeups(c, s) && Enabled(c, s, Hand(w))
    ensures Wakeups(c, Next(c, s, Hand(w)))
  {
    WorkerKeeps(c, s, Next(c, s, Hand(w)), w, Popping);
  }

  lemma TimerKeeps(c: Config, s: State, i: nat)
    requires c.depth >= 1 && Wakeups(c, s) && Enabled(c, s, TimerFires(i))
    ensures Wakeups(c, Next(c, s, TimerFires(i)))
  {
    BroadcastKeeps(c, s.(subs := s.subs[i := s.subs[i].(timer := Fired)]));
  }

  lemma CloseLockKeeps(c: Config, s: State)
    requires c.depth >= 1 && Wakeups(c, s) && Enabled(c, s, CloseLock)
    ensures Wakeups(c, Next(c, s, CloseLock))
  {
    BroadcastKeeps(c, s.(shared := CloseRegion(s.shared).0, closer := Joining));
  }

  lemma RestKeeps(c: Config, s: State, a: Action)
    requires c.depth >= 1 && Wakeups(c, s) && Enabled(c, s, a)
    requires a.Tick? || a.Begin? || a.CloseStop? || a.Check? || a.Expire? || a.Shed? || a.SweepStop? || a.CloseJoin?
    ensures Wakeups(c, Next(c, s, a))
  {
    OthersKeep(c, s, Next(c, s, a));
  }

  /** No step of any thread breaks the wake-up invariant. */
  lemma StepKeepsWakeups(c: Config, s: State, a: Action)
    requires c.depth >= 1 && Wakeups(c, s) && Mode(c, s) && Enabled(c, s, a)
    ensures Wakeups(c, Next(c, s, a))
  {
    match a {
      case Collect(i) => CollectKeeps(c, s, i);
      case Reply(th) => ReplyKeeps(c, s, th);
      case Lock(i, d, who) => LockKeeps(c, s, i, d, who);
      case Loop(i, who) => LoopKeeps(c, s, i, who);
      case TimerFires(i) => TimerKeeps(c, s, i);
      case Pop(w) => PopKeeps(c, s, w);
      case Hand(w) => HandKeeps(c, s, w);
      case Sweep => SweepKeeps(c, s);
      case CloseLock => CloseLockKeeps(c, s);
      case Tick(_) => RestKeeps(c, s, a);
      case Begin(_) => RestKeeps(c, s, a);
      case CloseStop => RestKeeps(c, s, a);
      case Check(_, _) => RestKeeps(c, s, a);
      case Expire(_) => RestKeeps(c, s, a);
      case Shed(_) => RestKeeps(c, s, a);
      case SweepStop => RestKeeps(c, s, a);
      case CloseJoin => RestKeeps(c, s, a);
    }
  }

  /** Notifying changes neither the mode nor the stage of Close. */
  lemma NotifyKeepsMode(c: Config, s: State, wake: Wake, who: Thread)
    requires Mode(c, s) && Closing(s)
    ensures Mode(c, Notify(s, wake, who)) && Closing(Notify(s, wake, who))
  {
  }

  lemma LockKeepsMode(c: Config, s: State, i: nat, d: nat, who: Thread)
    requires c.depth >= 1 && Mode(c, s) && Closing(s) && Enabled(c, s, Lock(i, d, who))
    ensures Mode(c, LockBody(c, s, i, d).0) && Closing(LockBody(c, s, i, d).0)
  {
  }

  lemma LoopKeepsMode(c: Config, s: State, i: nat, who: Thread)
    requires c.depth >= 1 && Mode(c, s) && Closing(s) && Enabled(c, s, Loop(i, who))
    ensures Mode(c, LoopBody(c, s, i).0) && Closing(LoopBody(c, s, i).0)
  {
  }

  lemma PopKeepsMode(c: Config, s: State, w: nat)
    requires c.depth >= 1 && Mode(c, s) && Closing(s) && Enabled(c, s, Pop(w))
    ensures Mode(c, PopBody(c, s, w).0) && Closing(PopBody(c, s, w).0)
  {
  }

  lemma ReplyKeepsMode(c: Config, s: State, th: Thread)
    requires c.depth >= 1 && Mode(c, s) && Closing(s) && Enabled(c, s, Reply(th))
    ensures Mode(c, Next(c, s, Reply(th))) && Closing(Next(c, s, Reply(th)))
  {
  }

  lemma RestKeepsMode(c: Config, s: State, a: Action)
    requires c.depth >= 1 && Mode(c, s) && Closing(s) && Enabled(c, s, a)
    requires a.Tick? || a.Begin? || a.CloseStop? || a.Check? || a.Expire? || a.Shed? || a.SweepStop? || a.CloseJoin? || a.Hand?
    ensures Mode(c, Next(c, s, a)) && Closing(Next(c, s, a))
  {
  }

  lemma RegionKeepsMode(c: Config, s: State, a: Action)
    requires c.depth >= 1 && Mode(c, s) && Closing(s) && Enabled(c, s, a)
    requires a.Collect? || a.Lock? || a.Loop? || a.Pop? || a.Sweep?
    ensures Mode(c, Next(c, s, a)) && Closing(Next(c, s, a))
  {
    if a.Collect? {
      NotifyKeepsMode(c, CollectBody(c, s, a.i).0, CollectBody(c, s, a.i).1, Swp);
    } else if a.Lock? {
      LockKeepsMode(c, s, a.i, a.d, a.who);
      NotifyKeepsMode(c, LockBody(c, s, a.i, a.d).0, LockBody(c, s, a.i, a.d).1, a.who);
    } else if a.Loop? {
      LoopKeepsMode(c, s, a.i, a.who);
      NotifyKeepsMode(c, LoopBody(c, s, a.i).0, LoopBody(c, s, a.i).1, a.who);
    } else if a.Pop? {
      PopKeepsMode(c, s, a.w);
      NotifyKeepsMode(c, PopBody(c, s, a.w).0, PopBody(c, s, a.w).1, Swp);
    } else {
      NotifyKeepsMode(c, SweepBody(c, s).0, SweepBody(c, s).1, Swp);
    }
  }

  lemma StepKeepsMode(c: Config, s: State, a: Action)
    requires c.depth >= 1 && Mode(c, s) && Closing(s) && Enabled(c, s, a)
    ensures Mode(c, Next(c, s, a)) && Closing(Next(c, s, a))
  {
    if a.Collect? || a.Lock? || a.Loop? || a.Pop? || a.Sweep? {
      RegionKeepsMode(c, s, a);
    } else if a.TimerFires? {
      NotifyKeepsMode(c, s.(subs := s.subs[a.i := s.subs[a.i].(timer := Fired)]), WakeAll, Swp);
    } else if a.CloseLock? {
      NotifyKeepsMode(c, s.(shared := CloseRegion(s.shared).0, closer := Joining), WakeAll, Swp);
    } else if a.Reply? {
      ReplyKeepsMode(c, s, a.th);
    } else {
      RestKeepsMode(c, s, a);
    }
  }

  /** A queue with a task in it has a worker awake, and awake to some purpose: it is about to look at the
      queue, or is answering and will come back. */
  lemma NonEmptyQueueHasWorker(c: Config, s: State)
    requires c.workers >= 1 && Wakeups(c, s) && s.shared.q != []
    ensures exists w :: 0 <= w < |s.workers| && !s.workers[w].Asleep? && !Leaving(s.workers[w])
  {
    assert !Leaving(s.workers[0]);
    if s.workers[0].Asleep? {
      var w := SomePopper(s.workers);
    }
  }

  lemma {:induction false} SomePopper(ws: seq<WorkerPc>) returns (w: nat)
    requires AboutToPop(ws) > 0
    ensures w < |ws| && ws[w].Popping?
  {
    if ws[|ws| - 1].Popping? {
      w := |ws| - 1;
    } else {
      w := SomePopper(ws[..|ws| - 1]);
    }
  }
}
