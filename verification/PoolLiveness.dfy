/**
 The pool finishes its work. Without new calls of Submit the threads take only boundedly many
 steps, whatever the interleaving, however often the clock moves and the sweeper looks in vain in
 between, and they can stop only where every task has been answered. So no wake-up is lost, and
 Close returns.
 */
module PoolLiveness {
  import opened WorkerPool
  import opened PoolProtocol
  import opened PoolPlaces
  import opened PoolWakeups
  import opened PoolSafety

  // ------------------------------------------------ the measure

  function PcRank(pc: SubmitPc): nat {
    match pc
    case Entered(_) => 9
    case Collecting(_) => 8
    case Replying(_, dead) => 7 + |dead|
    case Locking(_) => 7
    case Cleaning(_, dead) => 5 + |dead|
    case Looping(_) => 5
    case Blocked(_) => 5
    case Expiring(_, _) => 1
    case Shedding(_) => 1
    case Returned => 0
  }

  function SubRank(sub: Submitter): nat {
    PcRank(sub.pc) + if sub.timer.Armed? then 1 else 0
  }

  function WorkerRank(pc: WorkerPc): nat {
    match pc
    case Popping => 1
    case Asleep => 1
    case Holding(_) => 2
    case Clearing(dead, next) => 1 + |dead| + if next.Run? then 1 else 0
    case Exited => 0
  }

  function SubWork(subs: seq<Submitter>): nat {
    if subs == [] then 0 else SubWork(subs[..|subs| - 1]) + SubRank(subs[|subs| - 1])
  }

  function WorkerWork(ws: seq<WorkerPc>): nat {
    if ws == [] then 0 else WorkerWork(ws[..|ws| - 1]) + WorkerRank(ws[|ws| - 1])
  }

  function AboutToLoop(subs: seq<Submitter>): nat {
    if subs == [] then 0
    else AboutToLoop(subs[..|subs| - 1]) + if subs[|subs| - 1].pc.Looping? then 1 else 0
  }

  function SweepRank(pc: SweepPc): nat {
    match pc case Idle => 1 case Sweeping(dead) => 1 + |dead| case Swept => 0
  }

  function CloseRank(pc: ClosePc): nat {
    match pc case Open => 3 case Stopping => 2 case Joining => 1 case Closed => 0
  }

  /** The work still ahead: threads by position, queued tasks, dead lists, timers. */
  function Work(s: State): nat {
    SubWork(s.subs) + WorkerWork(s.workers) + 3 * |s.shared.q| + SweepRank(s.sweeper) + CloseRank(s.closer)
  }

  /** The threads that are about to look at the queue again. */
  function Awake(s: State): nat {
    AboutToPop(s.workers) + AboutToLoop(s.subs)
  }

  function Product(a: nat, b: nat): nat {
    a * b
  }

  function Measure(s: State): nat {
    Product(Work(s), |s.workers| + |s.subs| + 1) + Awake(s)
  }

  /** Steps of the threads themselves; an idle sweep changes nothing, and the clock, new
      submissions and the decision to close come from outside. */
  predicate Effective(c: Config, s: State, a: Action) {
    && !a.Tick? && !a.Begin? && !a.CloseStop?
    && (a.Sweep? ==> Dead(c, s.shared.q, s.now) != [])
  }

  ghost predicate Busy(c: Config, s: State, a: Action)
    requires c.depth >= 1
  {
    Enabled(c, s, a) && Effective(c, s, a)
  }

  // ------------------------------------------------ sums

  lemma {:induction false} SubUpdate(subs: seq<Submitter>, i: nat, sub: Submitter)
    requires i < |subs|
    ensures SubWork(subs[i := sub]) == SubWork(subs) - SubRank(subs[i]) + SubRank(sub)
    ensures AboutToLoop(subs[i := sub])
         == AboutToLoop(subs) - (if subs[i].pc.Looping? then 1 else 0) + if sub.pc.Looping? then 1 else 0
  {
    var n := |subs| - 1;
    if i == n {
      assert subs[i := sub][..n] == subs[..n];
    } else {
      assert subs[i := sub][..n] == subs[..n][i := sub];
      SubUpdate(subs[..n], i, sub);
    }
  }

  lemma {:induction false} WorkerUpdate(ws: seq<WorkerPc>, w: nat, pc: WorkerPc)
    requires w < |ws|
    ensures WorkerWork(ws[w := pc]) == WorkerWork(ws) - WorkerRank(ws[w]) + WorkerRank(pc)
  {
    var n := |ws| - 1;
    if w == n {
      assert ws[w := pc][..n] == ws[..n];
    } else {
      assert ws[w := pc][..n] == ws[..n][w := pc];
      WorkerUpdate(ws[..n], w, pc);
    }
  }

  lemma {:induction false} SubWorkEqual(a: seq<Submitter>, b: seq<Submitter>)
    requires |a| == |b| && forall i :: 0 <= i < |a| ==> SubRank(a[i]) == SubRank(b[i])
    ensures SubWork(a) == SubWork(b)
  {
    if a != [] {
      SubWorkEqual(a[..|a| - 1], b[..|b| - 1]);
    }
  }

  lemma {:induction false} WorkerWorkEqual(a: seq<WorkerPc>, b: seq<WorkerPc>)
    requires |a| == |b| && forall i :: 0 <= i < |a| ==> WorkerRank(a[i]) == WorkerRank(b[i])
    ensures WorkerWork(a) == WorkerWork(b)
  {
    if a != [] {
      WorkerWorkEqual(a[..|a| - 1], b[..|b| - 1]);
    }
  }

  lemma {:induction false} AwakeBound(ws: seq<WorkerPc>, subs: seq<Submitter>)
    ensures AboutToPop(ws) <= |ws| && AboutToLoop(subs) <= |subs|
    decreases |ws| + |subs|
  {
    if ws != [] {
      AwakeBound(ws[..|ws| - 1], subs);
    } else if subs != [] {
      AwakeBound(ws, subs[..|subs| - 1]);
    }
  }

  /** Waking threads makes no new work. */
  lemma NotifyKeepsWork(s: State, wake: Wake, who: Thread)
    ensures Work(Notify(s, wake, who)) == Work(s)
    ensures wake.NoWake? ==> Notify(s, wake, who) == s
  {
    var s' := Notify(s, wake, who);
    SubWorkEqual(s'.subs, s.subs);
    WorkerWorkEqual(s'.workers, s.workers);
  }

  // ------------------------------------------------ every busy step makes progress

  ghost predicate Progress(s: State, s': State) {
    && |s'.subs| == |s.subs| && |s'.workers| == |s.workers|
    && (Work(s') < Work(s) || (Work(s') == Work(s) && Awake(s') < Awake(s)))
  }

  lemma CollectProgress(c: Config, s: State, i: nat)
    requires c.depth >= 1 && Busy(c, s, Collect(i))
    ensures Progress(s, Next(c, s, Collect(i)))
  {
    var (s1, wake) := CollectBody(c, s, i);
    LiveBound(c, s.shared.q, s.now);
    SubUpdate(s.subs, i, s1.subs[i]);
    NotifyKeepsWork(s1, wake, Swp);
  }

  lemma SweepProgress(c: Config, s: State)
    requires c.depth >= 1 && Busy(c, s, Sweep)
    ensures Progress(s, Next(c, s, Sweep))
  {
    var (s1, wake) := SweepBody(c, s);
    LiveBound(c, s.shared.q, s.now);
    NotifyKeepsWork(s1, wake, Swp);
  }

  lemma LockProgress(c: Config, s: State, i: nat, d: nat, who: Thread)
    requires c.depth >= 1 && Busy(c, s, Lock(i, d, who))
    ensures Progress(s, Next(c, s, Lock(i, d, who)))
  {
    var (s1, wake) := LockBody(c, s, i, d);
    LockLessWork(c, s, i, d);
    NotifyKeepsWork(s1, wake, who);
  }

  lemma LockLessWork(c: Config, s: State, i: nat, d: nat)
    requires c.depth >= 1 && i < |s.subs| && s.subs[i].pc.Locking?
    ensures Work(LockBody(c, s, i, d).0) < Work(s)
  {
    LiveBound(c, s.shared.q, s.now + d);
    SubUpdate(s.subs, i, LockBody(c, s, i, d).0.subs[i]);
  }

  lemma LoopProgress(c: Config, s: State, i: nat, who: Thread)
    requires c.depth >= 1 && Busy(c, s, Loop(i, who))
    ensures Progress(s, Next(c, s, Loop(i, who)))
  {
    var (s1, wake) := LoopBody(c, s, i);
    LiveBound(c, s.shared.q, s.now);
    SubUpdate(s.subs, i, s1.subs[i]);
    NotifyKeepsWork(s1, wake, who);
  }

  lemma PopProgress(c: Config, s: State, w: nat)
    requires c.depth >= 1 && Busy(c, s, Pop(w))
    ensures Progress(s, Next(c, s, Pop(w)))
  {
    var (s1, wake) := PopBody(c, s, w);
    LiveBound(c, s.shared.q, s.now);
    WorkerUpdate(s.workers, w, s1.workers[w]);
    AboutToPopUpdate(s.workers, w, s1.workers[w]);
    NotifyKeepsWork(s1, wake, Swp);
  }

  lemma ReplyProgress(c: Config, s: State, th: Thread)
    requires c.depth >= 1 && Busy(c, s, Reply(th))
    ensures Progress(s, Next(c, s, Reply(th)))
  {
    var s' := Next(c, s, Reply(th));
    match th
    case Sub(i) => SubUpdate(s.subs, i, s'.subs[i]);
    case Wrk(w) => WorkerUpdate(s.workers, w, s'.workers[w]);
    case Swp =>
  }

  lemma TimerProgress(c: Config, s: State, i: nat)
    requires c.depth >= 1 && Busy(c, s, TimerFires(i))
    ensures Progress(s, Next(c, s, TimerFires(i)))
  {
    var s1 := s.(subs := s.subs[i := s.subs[i].(timer := Fired)]);
    SubUpdate(s.subs, i, s1.subs[i]);
    NotifyKeepsWork(s1, WakeAll, Swp);
  }

  lemma OwnProgress(c: Config, s: State, a: Action, i: nat)
    requires c.depth >= 1 && (a == Expire(i) || a == Shed(i) || (a.Check? && a.i == i)) && Busy(c, s, a)
    ensures Progress(s, Next(c, s, a))
  {
    SubUpdate(s.subs, i, Next(c, s, a).subs[i]);
  }

  lemma RestProgress(c: Config, s: State, a: Action)
    requires c.depth >= 1 && Busy(c, s, a) && (a.Hand? || a.SweepStop? || a.CloseLock? || a.CloseJoin?)
    ensures Progress(s, Next(c, s, a))
  {
    if a.Hand? {
      WorkerUpdate(s.workers, a.w, Popping);
    } else if a.CloseLock? {
      NotifyKeepsWork(s.(shared := CloseRegion(s.shared).0, closer := Joining), WakeAll, Swp);
    }
  }

  lemma StepProgress(c: Config, s: State, a: Action)
    requires c.depth >= 1 && Busy(c, s, a)
    ensures Progress(s, Next(c, s, a))
  {
    if a.Collect? {
      CollectProgress(c, s, a.i);
    } else if a.Sweep? {
      SweepProgress(c, s);
    } else if a.Lock? {
      LockProgress(c, s, a.i, a.d, a.who);
    } else if a.Loop? {
      LoopProgress(c, s, a.i, a.who);
    } else if a.Pop? {
      PopProgress(c, s, a.w);
    } else if a.Reply? {
      ReplyProgress(c, s, a.th);
    } else if a.TimerFires? {
      TimerProgress(c, s, a.i);
    } else if a.Expire? || a.Shed? || a.Check? {
      OwnProgress(c, s, a, a.i);
    } else {
      RestProgress(c, s, a);
    }
  }

  lemma LexDecrease(w: nat, w': nat, n: nat, b: nat, b': nat)
    requires w' < w || (w' == w && b' < b)
    requires b' < n
    ensures Product(w', n) + b' < Product(w, n) + b
  {
    if w' < w {
      assert (w' + 1) * n <= w * n;
      assert (w' + 1) * n == w' * n + n;
    }
  }

  /** Every step of a thread brings the pool nearer to rest. */
  lemma MeasureDecreases(c: Config, s: State, a: Action)
    requires c.depth >= 1 && Busy(c, s, a)
    ensures Measure(Next(c, s, a)) < Measure(s)
  {
    var s' := Next(c, s, a);
    StepProgress(c, s, a);
    AwakeBound(s'.workers, s'.subs);
    LexDecrease(Work(s), Work(s'), |s.workers| + |s.subs| + 1, Awake(s), Awake(s'));
  }

  /** Nobody calls Submit or Close: threads, timers, the sweeper and the clock go on, in any order. */
  ghost predicate SettlingRun(c: Config, s: State, steps: seq<Action>)
    requires c.depth >= 1
  {
    Runs(c, s, steps) && forall k :: 0 <= k < |steps| ==> !steps[k].Begin? && !steps[k].CloseStop?
  }

  /** How many steps of a run are busy ones. */
  ghost function BusySteps(c: Config, s: State, steps: seq<Action>): nat
    requires c.depth >= 1 && Runs(c, s, steps)
    decreases |steps|
  {
    if steps == [] then 0
    else (if Effective(c, s, steps[0]) then 1 else 0) + BusySteps(c, Next(c, s, steps[0]), steps[1..])
  }

  /** The clock and a sweep that finds nothing leave the measure alone. */
  lemma IdleKeepsMeasure(c: Config, s: State, a: Action)
    requires c.depth >= 1 && Enabled(c, s, a) && !Effective(c, s, a) && !a.Begin? && !a.CloseStop?
    ensures Measure(Next(c, s, a)) == Measure(s)
  {
    if a.Sweep? {
      NoneDead(c, s.shared.q, s.now);
      assert Next(c, s, a) == s;
    }
  }

  /** The measure bounds the busy steps of every run without new calls. */
  lemma {:induction false} BusyStepsAreBounded(c: Config, s: State, steps: seq<Action>)
    requires c.depth >= 1 && SettlingRun(c, s, steps)
    ensures BusySteps(c, s, steps) + Measure(End(c, s, steps)) <= Measure(s)
    decreases |steps|
  {
    if steps != [] {
      if Effective(c, s, steps[0]) {
        MeasureDecreases(c, s, steps[0]);
      } else {
        IdleKeepsMeasure(c, s, steps[0]);
      }
      BusyStepsAreBounded(c, Next(c, s, steps[0]), steps[1..]);
    }
  }

  // ------------------------------------------------ rest means done

  ghost predicate AtRest(c: Config, s: State)
    requires c.depth >= 1
  {
    forall a :: !Busy(c, s, a)
  }

  /** A signal can always be given to somebody it may go to. */
  lemma SomeWaiter(s: State) returns (who: Thread)
    ensures Chosen(s, who)
  {
    if th :| Waits(s, th) {
      who := th;
    } else {
      who := Swp;
    }
  }

  /** Steps of submitter i. */
  predicate OwnStep(a: Action, i: nat) {
    match a
    case Check(k, _) => k == i
    case Collect(k) => k == i
    case Reply(th) => th == Sub(i)
    case Lock(k, _, _) => k == i
    case Loop(k, _) => k == i
    case Expire(k) => k == i
    case Shed(k) => k == i
    case _ => false
  }

  /** A submitter that neither sleeps nor has returned can take a step. */
  lemma SubmitterCanStep(c: Config, s: State, i: nat) returns (a: Action)
    requires c.depth >= 1 && Closing(s) && i < |s.subs| && !s.subs[i].pc.Blocked? && !s.subs[i].pc.Returned?
    ensures Busy(c, s, a) && OwnStep(a, i)
  {
    var pc := s.subs[i].pc;
    if pc.Locking? {
      var who := SomeWaiter(LockBody(c, s, i, 0).0);
      a := Lock(i, 0, who);
    } else if pc.Looping? {
      var who := SomeWaiter(LoopBody(c, s, i).0);
      a := Loop(i, who);
    } else {
      a := if pc.Entered? then Check(i, 0) else if pc.Collecting? then Collect(i)
           else if pc.Expiring? then Expire(i) else if pc.Shedding? then Shed(i) else Reply(Sub(i));
    }
  }

  lemma RestingSubmitter(c: Config, s: State, i: nat)
    requires c.depth >= 1 && Closing(s) && AtRest(c, s) && i < |s.subs|
    ensures s.subs[i].pc.Blocked? || s.subs[i].pc.Returned?
  {
    if !s.subs[i].pc.Blocked? && !s.subs[i].pc.Returned? {
      var a := SubmitterCanStep(c, s, i);
    }
  }

  lemma RestingWorker(c: Config, s: State, w: nat)
    requires Inv(c, s) && AtRest(c, s) && w < |s.workers|
    ensures s.workers[w].Asleep? || s.workers[w].Exited?
  {
    assert !Busy(c, s, Pop(w)) && !Busy(c, s, Hand(w)) && !Busy(c, s, Reply(Wrk(w)));
  }

  /** Where no thread can move, nothing is left to do: no submitter is stuck on the condition variable,
      the queue is empty, the handler was called exactly once for every task, and a Close that was begun
      has returned. */
  lemma RestMeansDone(c: Config, s: State)
    requires Inv(c, s) && c.workers >= 1 && AtRest(c, s)
    ensures forall i :: 0 <= i < |s.subs| ==> s.subs[i].pc.Returned?
    ensures s.shared.q == []
    ensures forall id: nat :: id < |s.subs| ==> AnsweredOnce(s, id)
    ensures s.closer.Open? || s.closer.Closed?
  {
    forall w | 0 <= w < |s.workers| ensures s.workers[w].Asleep? || s.workers[w].Exited? {
      RestingWorker(c, s, w);
    }
    if s.shared.q != [] {
      NonEmptyQueueHasWorker(c, s);
    }
    forall i | 0 <= i < |s.subs| ensures s.subs[i].pc.Returned? {
      RestingSubmitter(c, s, i);
    }
    RestingSweeper(c, s);
    RestingClose(c, s);
    forall id: nat | id < |s.subs| ensures AnsweredOnce(s, id) {
      assert Somewhere(s, id);
      var p :| At(s, id, p);
      assert forall th :: DeadOf(s, th) == [];
      assert forall w :: HeldOf(s, w) == [];
      AnsweredExactlyOnce(s, id);
    }
  }

  lemma RestingSweeper(c: Config, s: State)
    requires Inv(c, s) && AtRest(c, s)
    ensures !s.sweeper.Sweeping?
  {
    assert !Busy(c, s, Reply(Swp));
  }

  lemma RestingClose(c: Config, s: State)
    requires Inv(c, s) && AtRest(c, s) && !s.sweeper.Sweeping?
    requires forall w :: 0 <= w < |s.workers| ==> s.workers[w].Asleep? || s.workers[w].Exited?
    ensures s.closer.Open? || s.closer.Closed?
  {
    assert !Busy(c, s, CloseLock) && !Busy(c, s, SweepStop) && !Busy(c, s, CloseJoin);
  }

  /** After any run, with any mixture of calls and Close, let everything but new calls go on in any order, the clock
      included: the threads take boundedly many steps, and where none can move any more, every task ever submitted
      has been answered exactly once. */
  lemma EveryRunSettles(c: Config, s: State, past: seq<Action>, rest: seq<Action>)
    requires Init(c, s) && c.workers >= 1 && Runs(c, s, past)
    requires SettlingRun(c, End(c, s, past), rest)
    ensures BusySteps(c, End(c, s, past), rest) <= Measure(End(c, s, past))
    ensures var e := End(c, End(c, s, past), rest);
      AtRest(c, e) ==> e.shared.q == [] && (e.closer.Open? || e.closer.Closed?)
                       && forall id: nat :: id < |e.subs| ==> e.subs[id].pc.Returned? && AnsweredOnce(e, id)
  {
    InitInv(c, s);
    RunInv(c, s, past);
    var m := End(c, s, past);
    BusyStepsAreBounded(c, m, rest);
    RunInv(c, m, rest);
    if AtRest(c, End(c, m, rest)) {
      RestMeansDone(c, End(c, m, rest));
    }
  }
}
