/**
 Submitters, workers, the sweeper, the timers and Close, interleaved at the granularity of
 the mutex. Every thread is a program counter; the wait set of the condition variable is the
 set of threads whose counter says they sleep on it. A step is one region of WorkerPool, one
 call of the handler, or one action outside the mutex.
 */
module PoolProtocol {
  import opened WorkerPool

  /** One call of Submit, with the position it has reached. */
  datatype SubmitPc =
    | Entered(t: Task)
    | Collecting(t: Task)
    | Replying(t: Task, dead: seq<Task>)
    | Locking(t: Task)
    | Cleaning(t: Task, dead: seq<Task>)
    | Looping(t: Task)
    | Blocked(t: Task)
    | Expiring(t: Task, left: int)
    | Shedding(t: Task)
    | Returned

  /** The timer a blocked submitter arms; Fired is its `timedOut`. */
  datatype Timer = Unarmed | Armed(due: int) | Fired | Stopped

  datatype Submitter = Submitter(pc: SubmitPc, timer: Timer)

  datatype After = Run(t: Task) | Again | Quit

  datatype WorkerPc =
    | Popping
    | Asleep
    | Clearing(dead: seq<Task>, next: After)
    | Holding(t: Task)
    | Exited

  datatype SweepPc = Idle | Sweeping(dead: seq<Task>) | Swept

  datatype ClosePc = Open | Stopping | Joining | Closed

  /** A call of the handler: the task, the budget it got, the reason it was shed with, the time, and whether the
      pool was closed by then. */
  datatype Answer = Answer(t: Task, budget: int, shed: string, at: int, closed: bool)

  /** `enq` and `popped` record the tasks in the order they entered the queue and were taken by workers. */
  datatype State = State(
    shared: Shared,
    now: int,
    subs: seq<Submitter>,
    workers: seq<WorkerPc>,
    sweeper: SweepPc,
    closer: ClosePc,
    log: seq<Answer>,
    enq: seq<nat>,
    popped: seq<nat>)

  datatype Thread = Sub(i: nat) | Wrk(w: nat) | Swp

  datatype Action =
    | Tick(d: nat)
    | Begin(deadlineMS: int)
    | CloseStop
    | Check(i: nat, d: nat)
    | Collect(i: nat)
    | Reply(th: Thread)
    | Lock(i: nat, d: nat, who: Thread)
    | Loop(i: nat, who: Thread)
    | Expire(i: nat)
    | Shed(i: nat)
    | TimerFires(i: nat)
    | Pop(w: nat)
    | Hand(w: nat)
    | Sweep
    | SweepStop
    | CloseLock
    | CloseJoin

  ghost predicate Init(c: Config, s: State) {
    && c.depth >= 1
    && s.shared == Shared([], false, 0, 0, 0)
    && s.subs == [] && s.log == [] && s.enq == [] && s.popped == []
    && |s.workers| == c.workers
    && (forall w :: 0 <= w < |s.workers| ==> s.workers[w] == Popping)
    && s.sweeper == Idle && s.closer == Open
  }

  // ------------------------------------------------ the condition variable

  predicate Waits(s: State, th: Thread) {
    match th
    case Sub(i) => i < |s.subs| && s.subs[i].pc.Blocked?
    case Wrk(w) => w < |s.workers| && s.workers[w].Asleep?
    case Swp => false
  }

  function Woken(sub: Submitter): Submitter {
    if sub.pc.Blocked? then sub.(pc := Looping(sub.pc.t)) else sub
  }

  function Roused(w: WorkerPc): WorkerPc {
    if w.Asleep? then Popping else w
  }

  function Broadcast(s: State): State {
    s.(subs := seq(|s.subs|, i requires 0 <= i < |s.subs| => Woken(s.subs[i])),
       workers := seq(|s.workers|, w requires 0 <= w < |s.workers| => Roused(s.workers[w])))
  }

  /** Signal wakes one waiter if there is any; which one is not specified. */
  function Signal(s: State, who: Thread): State {
    if !Waits(s, who) then s
    else match who
      case Sub(i) => s.(subs := s.subs[i := Woken(s.subs[i])])
      case Wrk(w) => s.(workers := s.workers[w := Roused(s.workers[w])])
      case Swp => s
  }

  function Notify(s: State, wake: Wake, who: Thread): State {
    match wake
    case NoWake => s
    case WakeOne => Signal(s, who)
    case WakeAll => Broadcast(s)
  }

  /** A signal may miss only when nobody waits. */
  ghost predicate Chosen(s: State, who: Thread) {
    Waits(s, who) || forall th :: !Waits(s, th)
  }

  // ------------------------------------------------ pieces of steps

  function SetSub(s: State, i: nat, pc: SubmitPc): State
    requires i < |s.subs|
  {
    s.(subs := s.subs[i := s.subs[i].(pc := pc)])
  }

  function SetWorker(s: State, w: nat, pc: WorkerPc): State
    requires w < |s.workers|
  {
    s.(workers := s.workers[w := pc])
  }

  /** Where a worker goes once its dead list is answered. */
  function Resume(next: After): WorkerPc {
    match next
    case Run(t) => Holding(t)
    case Again => Popping
    case Quit => Exited
  }

  function ClearThen(dead: seq<Task>, next: After): WorkerPc {
    if dead == [] then Resume(next) else Clearing(dead, next)
  }

  /** The thread in the middle of replyDead moves on to the next task of its list. */
  function AfterReply(s: State, th: Thread): State
    requires DeadOf(s, th) != []
  {
    match th
    case Sub(i) =>
      var pc := s.subs[i].pc;
      var rest := pc.dead[1..];
      SetSub(s, i,
        if pc.Replying? then if rest == [] then Locking(pc.t) else Replying(pc.t, rest)
        else if rest == [] then Looping(pc.t) else Cleaning(pc.t, rest))
    case Wrk(w) =>
      SetWorker(s, w, ClearThen(s.workers[w].dead[1..], s.workers[w].next))
    case Swp =>
      s.(sweeper := if s.sweeper.dead[1..] == [] then Idle else Sweeping(s.sweeper.dead[1..]))
  }

  /** The dead list a thread still has to answer. */
  function DeadOf(s: State, th: Thread): seq<Task> {
    match th
    case Sub(i) =>
      if i < |s.subs| && (s.subs[i].pc.Replying? || s.subs[i].pc.Cleaning?) then s.subs[i].pc.dead else []
    case Wrk(w) =>
      if w < |s.workers| && s.workers[w].Clearing? then s.workers[w].dead else []
    case Swp =>
      if s.sweeper.Sweeping? then s.sweeper.dead else []
  }

  /** A call of the handler, with the counter that goes with it. */
  function Called(s: State, t: Task, budget: int, reason: string): State {
    var p := s.shared;
    s.(log := s.log + [Answer(t, budget, reason, s.now, s.shared.closed)],
       shared := if reason == REASON_DEADLINE then p.(expired := p.expired + 1)
                 else if reason == REASON_QUEUE_LIMIT then p.(shed := p.shed + 1)
                 else p)
  }

  /** time.Timer.Stop: a timer that is already due may be running, and then still fires. */
  function StopTimer(timer: Timer, now: int): Timer {
    if timer.Armed? && now < timer.due then Stopped else timer
  }

  function SubmitPcAfter(t: Task, r: SubmitResult): SubmitPc {
    match r
    case Accepted => Returned
    case Block => Blocked(t)
    case Clean(dead) => Cleaning(t, dead)
    case GiveUp(left) => Expiring(t, left)
    case Refuse => Shedding(t)
  }

  // ------------------------------------------------ the steps

  /** The state after the region of `Lock`, before anybody is woken. */
  function LockBody(c: Config, s: State, i: nat, d: nat): (State, Wake)
    requires c.depth >= 1 && i < |s.subs| && s.subs[i].pc.Locking?
  {
    var (p, t, r, wake) := SubmitRegion(c, s.shared, s.subs[i].pc.t, s.now, s.now + d);
    var timer := if r.Block? || r.Clean? then Armed(s.now + LeftAt(c, t, s.now)) else s.subs[i].timer;
    (s.(shared := p, now := s.now + d,
        subs := s.subs[i := Submitter(SubmitPcAfter(t, r), timer)],
        enq := if r.Accepted? then s.enq + [t.id] else s.enq), wake)
  }

  function LoopBody(c: Config, s: State, i: nat): (State, Wake)
    requires i < |s.subs| && s.subs[i].pc.Looping?
  {
    var t := s.subs[i].pc.t;
    var (p, r, wake) := LoopRegion(c, s.shared, t, s.subs[i].timer.Fired?, s.now);
    var timer := if r.Block? || r.Clean? then s.subs[i].timer else StopTimer(s.subs[i].timer, s.now);
    (s.(shared := p,
        subs := s.subs[i := Submitter(SubmitPcAfter(t, r), timer)],
        enq := if r.Accepted? then s.enq + [t.id] else s.enq), wake)
  }

  ghost predicate Enabled(c: Config, s: State, a: Action)
    requires c.depth >= 1
  {
    match a
    case Tick(d) => true
    case Begin(_) => true
    case CloseStop => s.closer.Open?
    case Check(i, d) => i < |s.subs| && s.subs[i].pc.Entered?
    case Collect(i) => i < |s.subs| && s.subs[i].pc.Collecting?
    case Reply(th) => DeadOf(s, th) != []
    case Lock(i, d, who) =>
      i < |s.subs| && s.subs[i].pc.Locking? &&
      var (s', wake) := LockBody(c, s, i, d); wake.WakeOne? ==> Chosen(s', who)
    case Loop(i, who) =>
      i < |s.subs| && s.subs[i].pc.Looping? &&
      var (s', wake) := LoopBody(c, s, i); wake.WakeOne? ==> Chosen(s', who)
    case Expire(i) => i < |s.subs| && s.subs[i].pc.Expiring?
    case Shed(i) => i < |s.subs| && s.subs[i].pc.Shedding?
    case TimerFires(i) => i < |s.subs| && s.subs[i].timer.Armed? && s.now >= s.subs[i].timer.due
    case Pop(w) => w < |s.workers| && s.workers[w].Popping?
    case Hand(w) => w < |s.workers| && s.workers[w].Holding?
    case Sweep => s.sweeper.Idle?
    case SweepStop => s.sweeper.Idle? && !s.closer.Open?
    case CloseLock => s.closer.Stopping?
    case CloseJoin =>
      s.closer.Joining? && s.sweeper.Swept? && forall w :: 0 <= w < |s.workers| ==> s.workers[w].Exited?
  }

  function PopBody(c: Config, s: State, w: nat): (State, Wake)
    requires w < |s.workers| && s.workers[w].Popping?
  {
    var (p, r, wake) := PopRegion(c, s.shared, s.now);
    var s' := s.(shared := p, popped := if r.Took? then s.popped + [r.t.id] else s.popped);
    (SetWorker(s', w, match r
      case Took(t, dead) => ClearThen(dead, Run(t))
      case Retry(dead) => ClearThen(dead, Again)
      case Leave(dead) => ClearThen(dead, Quit)
      case Sleep => Asleep), wake)
  }

  function CollectBody(c: Config, s: State, i: nat): (State, Wake)
    requires i < |s.subs| && s.subs[i].pc.Collecting?
  {
    var (p, dead, wake) := TakeExpired(c, s.shared, s.now);
    var t := s.subs[i].pc.t;
    (SetSub(s.(shared := p), i, if dead == [] then Locking(t) else Replying(t, dead)), wake)
  }

  function SweepBody(c: Config, s: State): (State, Wake) {
    var (p, dead, wake) := TakeExpired(c, s.shared, s.now);
    (s.(shared := p, sweeper := if dead == [] then Idle else Sweeping(dead)), wake)
  }

  function CheckBody(c: Config, s: State, i: nat, d: nat): State
    requires i < |s.subs| && s.subs[i].pc.Entered?
  {
    var t := s.subs[i].pc.t;
    if Late(c, t, s.now)
    then SetSub(s.(now := s.now + d), i, Expiring(t, LeftAt(c, t, s.now + d)))
    else SetSub(s, i, Collecting(t))
  }

  function HandBody(c: Config, s: State, w: nat): State
    requires w < |s.workers| && s.workers[w].Holding?
  {
    var t := s.workers[w].t;
    SetWorker(Called(s, t, LeftAt(c, t, s.now), if Late(c, t, s.now) then REASON_DEADLINE else ""), w, Popping)
  }

  function TimerBody(s: State, i: nat): State
    requires i < |s.subs|
  {
    Broadcast(s.(subs := s.subs[i := s.subs[i].(timer := Fired)]))
  }

  function Next(c: Config, s: State, a: Action): State
    requires c.depth >= 1 && Enabled(c, s, a)
  {
    match a
    case Tick(d) => s.(now := s.now + d)
    case Begin(deadlineMS) =>
      s.(subs := s.subs + [Submitter(Entered(Task(|s.subs|, deadlineMS, s.now, 0)), Unarmed)])
    case CloseStop => s.(closer := Stopping)
    case Check(i, d) => CheckBody(c, s, i, d)
    case Collect(i) => var (s', wake) := CollectBody(c, s, i); Notify(s', wake, Swp)
    case Reply(th) => AfterReply(Called(s, DeadOf(s, th)[0], 0, REASON_DEADLINE), th)
    case Lock(i, d, who) => var (s', wake) := LockBody(c, s, i, d); Notify(s', wake, who)
    case Loop(i, who) => var (s', wake) := LoopBody(c, s, i); Notify(s', wake, who)
    case Expire(i) =>
      SetSub(Called(s, s.subs[i].pc.t, s.subs[i].pc.left, REASON_DEADLINE), i, Returned)
    case Shed(i) =>
      SetSub(Called(s, s.subs[i].pc.t, 0, REASON_QUEUE_LIMIT), i, Returned)
    case TimerFires(i) => TimerBody(s, i)
    case Pop(w) => var (s', wake) := PopBody(c, s, w); Notify(s', wake, Swp)
    case Hand(w) => HandBody(c, s, w)
    case Sweep => var (s', wake) := SweepBody(c, s); Notify(s', wake, Swp)
    case SweepStop => s.(sweeper := Swept)
    case CloseLock => var (p, wake) := CloseRegion(s.shared); Notify(s.(shared := p, closer := Joining), wake, Swp)
    case CloseJoin => s.(closer := Closed)
  }

  // ------------------------------------------------ runs

  /** `as` can be taken one after the other from s. */
  ghost predicate Runs(c: Config, s: State, steps: seq<Action>)
    requires c.depth >= 1
    decreases |steps|
  {
    steps == [] || (Enabled(c, s, steps[0]) && Runs(c, Next(c, s, steps[0]), steps[1..]))
  }

  ghost function End(c: Config, s: State, steps: seq<Action>): State
    requires c.depth >= 1 && Runs(c, s, steps)
    decreases |steps|
  {
    if steps == [] then s else End(c, Next(c, s, steps[0]), steps[1..])
  }
}
