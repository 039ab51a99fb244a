/**
 What becomes of a submitted task when its submitter is left alone: in time, at an open pool with room once the
 expired tasks are gone, it gets into the queue; in drop mode a full queue sheds it; and a late task, or any task at a
 closed pool, is answered as expired. Whoever looks at the queue clears it of late tasks.
 */
module PoolAdmission {
  import opened WorkerPool
  import opened PoolProtocol
  import opened PoolPlaces
  import opened PoolWakeups
  import opened PoolRefusals
  import opened PoolLiveness

  /** Nobody but submitter i steps, and the clock moves only once its task is past the filter. */
  ghost predicate Alone(c: Config, s: State, i: nat, steps: seq<Action>)
    requires c.depth >= 1
    decreases |steps|
  {
    steps == [] ||
    (&& Enabled(c, s, steps[0])
     && (OwnStep(steps[0], i) || (steps[0].Tick? && PastFilter(s, i)))
     && Alone(c, Next(c, s, steps[0]), i, steps[1..]))
  }

  predicate PastFilter(s: State, i: nat) {
    i < |s.subs| && !s.subs[i].pc.Entered? && !s.subs[i].pc.Collecting?
  }

  /** Left alone a submitter takes boundedly many steps, and it can go on until it sleeps or has returned. */
  lemma {:induction false} AloneEnds(c: Config, s: State, i: nat, steps: seq<Action>)
    requires c.depth >= 1 && Alone(c, s, i, steps)
    ensures Runs(c, s, steps) && BusySteps(c, s, steps) + Measure(End(c, s, steps)) <= Measure(s)
    decreases |steps|
  {
    if steps != [] {
      if Effective(c, s, steps[0]) {
        MeasureDecreases(c, s, steps[0]);
      } else {
        IdleKeepsMeasure(c, s, steps[0]);
      }
      AloneEnds(c, Next(c, s, steps[0]), i, steps[1..]);
    }
  }

  lemma AloneGoesOn(c: Config, s: State, i: nat) returns (a: Action)
    requires c.depth >= 1 && Closing(s) && i < |s.subs| && !s.subs[i].pc.Blocked? && !s.subs[i].pc.Returned?
    ensures Alone(c, s, i, [a]) && Effective(c, s, a)
  {
    a := SubmitterCanStep(c, s, i);
    assert [a][1..] == [];
  }

  /** The submitter stands at its own task. */
  predicate Holds(s: State, i: nat) {
    i < |s.subs| && (!s.subs[i].pc.Returned? ==> s.subs[i].pc.t.id == i)
  }

  // ------------------------------------------------ room

  /** In time, and the queue has room for it, at the latest once the expired tasks are gone. */
  ghost predicate Welcome(c: Config, s: State, i: nat) {
    && Holds(s, i) && !s.shared.closed
    && match s.subs[i].pc
       case Entered(t) => LeftAt(c, t, s.now) >= c.minBudget && |Live(c, s.shared.q, s.now)| < c.depth
       case Collecting(_) => |Live(c, s.shared.q, s.now)| < c.depth
       case Replying(_, _) => |s.shared.q| < c.depth
       case Locking(_) => |s.shared.q| < c.depth
       case Returned => i in s.enq
       case _ => false
  }

  lemma NotifyLeaves(s: State, wake: Wake, who: Thread, i: nat)
    requires i < |s.subs| && !s.subs[i].pc.Blocked?
    ensures var s' := Notify(s, wake, who);
      s'.shared == s.shared && s'.now == s.now && s'.enq == s.enq && s'.log == s.log
      && |s'.subs| == |s.subs| && s'.subs[i] == s.subs[i]
  {
  }

  lemma WelcomeStep(c: Config, s: State, i: nat, a: Action)
    requires c.depth >= 1 && Welcome(c, s, i) && Enabled(c, s, a)
    requires OwnStep(a, i) || (a.Tick? && PastFilter(s, i))
    ensures Welcome(c, Next(c, s, a), i)
  {
    if a.Collect? {
      NotifyLeaves(CollectBody(c, s, i).0, CollectBody(c, s, i).1, Swp, i);
    } else if a.Lock? {
      NotifyLeaves(LockBody(c, s, i, a.d).0, LockBody(c, s, i, a.d).1, a.who, i);
    }
  }

  /** A task in time, at an open pool that has room once the expired tasks are gone, is queued when its submitter is
      left alone: it is neither refused nor kept waiting. */
  lemma {:induction false} RoomMeansAccepted(c: Config, s: State, i: nat, steps: seq<Action>)
    requires c.depth >= 1 && Welcome(c, s, i) && Alone(c, s, i, steps)
    ensures Runs(c, s, steps) && Welcome(c, End(c, s, steps), i)
    ensures End(c, s, steps).subs[i].pc.Returned? ==> i in End(c, s, steps).enq
    decreases |steps|
  {
    if steps != [] {
      WelcomeStep(c, s, i, steps[0]);
      RoomMeansAccepted(c, Next(c, s, steps[0]), i, steps[1..]);
    }
  }

  // ------------------------------------------------ no room

  ghost predicate AnsweredWith(s: State, i: nat, reason: string) {
    exists k :: 0 <= k < |s.log| && s.log[k].t.id == i && s.log[k].shed == reason
  }

  /** In time, in drop mode, and the queue is full even without the expired tasks. */
  ghost predicate Crowded(c: Config, s: State, i: nat) {
    && Holds(s, i) && !s.shared.closed && c.full != FULL_WAIT
    && match s.subs[i].pc
       case Entered(t) => LeftAt(c, t, s.now) >= c.minBudget && |Live(c, s.shared.q, s.now)| >= c.depth
       case Collecting(_) => |Live(c, s.shared.q, s.now)| >= c.depth
       case Replying(_, _) => |s.shared.q| >= c.depth
       case Locking(_) => |s.shared.q| >= c.depth
       case Shedding(_) => true
       case Returned => AnsweredWith(s, i, REASON_QUEUE_LIMIT)
       case _ => false
  }

  lemma CalledAnswers(s: State, t: Task, budget: int, reason: string)
    ensures AnsweredWith(Called(s, t, budget, reason), t.id, reason)
    ensures forall i: nat, r :: AnsweredWith(s, i, r) ==> AnsweredWith(Called(s, t, budget, reason), i, r)
  {
    var s' := Called(s, t, budget, reason);
    assert s'.log[|s.log|].t == t;
    forall i: nat, r | AnsweredWith(s, i, r) ensures AnsweredWith(s', i, r) {
      var k :| 0 <= k < |s.log| && s.log[k].t.id == i && s.log[k].shed == r;
      assert s'.log[k] == s.log[k];
    }
  }

  lemma CrowdedStep(c: Config, s: State, i: nat, a: Action)
    requires c.depth >= 1 && Crowded(c, s, i) && Enabled(c, s, a)
    requires OwnStep(a, i) || (a.Tick? && PastFilter(s, i))
    ensures Crowded(c, Next(c, s, a), i)
  {
    if a.Collect? {
      NotifyLeaves(CollectBody(c, s, i).0, CollectBody(c, s, i).1, Swp, i);
    } else if a.Lock? {
      NotifyLeaves(LockBody(c, s, i, a.d).0, LockBody(c, s, i, a.d).1, a.who, i);
    } else if a.Shed? {
      CalledAnswers(s, s.subs[i].pc.t, 0, REASON_QUEUE_LIMIT);
    } else if a.Reply? {
      CalledAnswers(s, DeadOf(s, a.th)[0], 0, REASON_DEADLINE);
    }
  }

  /** In drop mode a task in time that finds the queue full of tasks in time is shed. */
  lemma {:induction false} FullMeansShed(c: Config, s: State, i: nat, steps: seq<Action>)
    requires c.depth >= 1 && Crowded(c, s, i) && Alone(c, s, i, steps)
    ensures Runs(c, s, steps) && Crowded(c, End(c, s, steps), i)
    ensures End(c, s, steps).subs[i].pc.Returned? ==> AnsweredWith(End(c, s, steps), i, REASON_QUEUE_LIMIT)
    decreases |steps|
  {
    if steps != [] {
      CrowdedStep(c, s, i, steps[0]);
      FullMeansShed(c, Next(c, s, steps[0]), i, steps[1..]);
    }
  }

  // ------------------------------------------------ too late

  /** Late when it came, or the pool is closed. */
  ghost predicate Doomed(c: Config, s: State, i: nat) {
    && Holds(s, i)
    && match s.subs[i].pc
       case Entered(t) => LeftAt(c, t, s.now) < c.minBudget || s.shared.closed
       case Collecting(_) => s.shared.closed
       case Replying(_, _) => s.shared.closed
       case Locking(_) => s.shared.closed
       case Expiring(_, _) => true
       case Returned => AnsweredWith(s, i, REASON_DEADLINE)
       case _ => false
  }

  lemma DoomedStep(c: Config, s: State, i: nat, a: Action)
    requires c.depth >= 1 && Doomed(c, s, i) && Enabled(c, s, a)
    requires OwnStep(a, i) || (a.Tick? && PastFilter(s, i))
    ensures Doomed(c, Next(c, s, a), i)
  {
    if a.Collect? {
      NotifyLeaves(CollectBody(c, s, i).0, CollectBody(c, s, i).1, Swp, i);
    } else if a.Lock? {
      NotifyLeaves(LockBody(c, s, i, a.d).0, LockBody(c, s, i, a.d).1, a.who, i);
    } else if a.Expire? {
      CalledAnswers(s, s.subs[i].pc.t, s.subs[i].pc.left, REASON_DEADLINE);
    } else if a.Reply? {
      CalledAnswers(s, DeadOf(s, a.th)[0], 0, REASON_DEADLINE);
    }
  }

  /** A task that comes late, or to a closed pool, is answered as expired. */
  lemma {:induction false} LateMeansExpired(c: Config, s: State, i: nat, steps: seq<Action>)
    requires c.depth >= 1 && Doomed(c, s, i) && Alone(c, s, i, steps)
    ensures Runs(c, s, steps) && Doomed(c, End(c, s, steps), i)
    ensures End(c, s, steps).subs[i].pc.Returned? ==> AnsweredWith(End(c, s, steps), i, REASON_DEADLINE)
    decreases |steps|
  {
    if steps != [] {
      DoomedStep(c, s, i, steps[0]);
      LateMeansExpired(c, Next(c, s, steps[0]), i, steps[1..]);
    }
  }

  /** In drop mode these three are all there is: which one it is shows when Submit is called. */
  lemma DropModeDecides(c: Config, s: State, deadlineMS: int)
    requires c.depth >= 1 && c.full != FULL_WAIT
    ensures var s', i := Next(c, s, Begin(deadlineMS)), |s.subs|;
      && (Welcome(c, s', i) || Crowded(c, s', i) || Doomed(c, s', i))
      && !(Welcome(c, s', i) && Crowded(c, s', i))
      && (Doomed(c, s', i) ==> !Welcome(c, s', i) && !Crowded(c, s', i))
  {
  }

  // ------------------------------------------------ who looks at the queue clears it

  predicate InTime(c: Config, q: seq<Task>, now: int) {
    forall k :: 0 <= k < |q| ==> LeftAt(c, q[k], now) >= c.minBudget
  }

  lemma {:induction false} LiveIsInTime(c: Config, q: seq<Task>, now: int)
    ensures InTime(c, Live(c, q, now), now)
    ensures Dead(c, q, now) == [] ==> InTime(c, q, now)
  {
    if q != [] {
      LiveIsInTime(c, q[..|q| - 1], now);
      if Dead(c, q, now) == [] {
        assert Dead(c, q[..|q| - 1], now) == [] && !Late(c, q[|q| - 1], now);
      }
    }
  }

  /** The task at k is the first one in time. */
  ghost predicate FirstInTime(c: Config, q: seq<Task>, k: nat, now: int) {
    k < |q| && LeftAt(c, q[k], now) >= c.minBudget && forall j :: 0 <= j < k ==> LeftAt(c, q[j], now) < c.minBudget
  }

  /** Whoever looks at the queue leaves no task in it that is too late: a submitter that comes, a worker, the sweeper,
      and a submitter that goes to sleep on a full queue. */
  lemma LooksClearTheQueue(c: Config, s: State, a: Action)
    requires c.depth >= 1 && Enabled(c, s, a)
    requires a.Collect? || a.Pop? || a.Sweep? || (a.Loop? && Next(c, s, a).subs[a.i].pc.Blocked?)
    ensures InTime(c, Next(c, s, a).shared.q, s.now)
  {
    LiveIsInTime(c, s.shared.q, s.now);
  }

  /** A worker takes the first task in time, and takes one whenever there is one. */
  lemma WorkersTakeTheFirst(c: Config, s: State, w: nat)
    requires c.depth >= 1 && Enabled(c, s, Pop(w))
    ensures forall k: nat :: FirstInTime(c, s.shared.q, k, s.now) ==>
      Next(c, s, Pop(w)).popped == s.popped + [s.shared.q[k].id]
    ensures (forall k: nat :: !FirstInTime(c, s.shared.q, k, s.now)) ==> Next(c, s, Pop(w)).popped == s.popped
  {
    var live := Live(c, s.shared.q, s.now);
    if live != [] {
      var n := LiveHead(c, s.shared.q, s.now);
      forall k: nat | FirstInTime(c, s.shared.q, k, s.now) ensures k == n {
      }
    } else {
      NoneLive(c, s.shared.q, s.now);
    }
  }

  /** The first survivor is the first task in time. */
  lemma {:induction false} LiveHead(c: Config, q: seq<Task>, now: int) returns (k: nat)
    requires Live(c, q, now) != []
    ensures FirstInTime(c, q, k, now) && q[k] == Live(c, q, now)[0]
  {
    var before := q[..|q| - 1];
    if Live(c, before, now) != [] {
      k := LiveHead(c, before, now);
      assert q[k] == before[k];
    } else {
      NoneLive(c, before, now);
      k := |q| - 1;
    }
  }

  lemma {:induction false} NoneLive(c: Config, q: seq<Task>, now: int)
    requires Live(c, q, now) == []
    ensures forall j :: 0 <= j < |q| ==> Late(c, q[j], now)
  {
    if q != [] {
      NoneLive(c, q[..|q| - 1], now);
    }
  }

  // ------------------------------------------------ the fill a task carries

  /** The task of submitter i after its region: the last of the queue when it was queued, else still its own. */
  function Carried(s: State, s': State, i: nat): Task
    requires i < |s'.subs| && (s'.subs[i].pc.Returned? ==> s'.shared.q != [])
  {
    if s'.subs[i].pc.Returned? then s'.shared.q[|s'.shared.q| - 1] else s'.subs[i].pc.t
  }

  /** A task that reaches an open pool carries the fill it found there: the share of the depth in use, in whole percent
      rounded down, and 100 exactly when the queue was full. Nothing else about it changes. */
  lemma TaskCarriesFill(c: Config, s: State, i: nat, d: nat, who: Thread)
    requires c.depth >= 1 && Enabled(c, s, Lock(i, d, who)) && !s.shared.closed
    ensures var s' := Next(c, s, Lock(i, d, who));
      && i < |s'.subs| && (s'.subs[i].pc.Returned? ==> s'.shared.q != [])
      && var t' := Carried(s, s', i);
         && t' == s.subs[i].pc.t.(fill := t'.fill)
         && (t'.fill == 100 <==> |s.shared.q| >= c.depth)
         && (|s.shared.q| < c.depth ==> c.depth * t'.fill <= 100 * |s.shared.q| < c.depth * (t'.fill + 1))
  {
    FillIsPercent(c, s.shared);
    NotifyKeepsSubmitter(LockBody(c, s, i, d).0, LockBody(c, s, i, d).1, who, i);
  }

  lemma NotifyKeepsSubmitter(s: State, wake: Wake, who: Thread, i: nat)
    requires i < |s.subs|
    ensures var s' := Notify(s, wake, who);
      s'.shared == s.shared && |s'.subs| == |s.subs|
      && (s'.subs[i].pc.Returned? <==> s.subs[i].pc.Returned?)
      && (!s.subs[i].pc.Returned? ==> s'.subs[i].pc.t == s.subs[i].pc.t)
  {
  }
}
