/**
 Where a task is. Every step moves some tasks from one place to another and leaves the
 rest alone, so a submitted task is in exactly one place in every reachable state, and
 no place ever holds it twice.
 */
module PoolPlaces {
  import opened WorkerPool
  import opened PoolProtocol

  datatype Place =
    | WithSubmitter
    | InQueue
    | InDead(th: Thread)
    | HeldBy(w: nat)
    | Answered

  ghost predicate HasId(ts: seq<Task>, id: nat) {
    exists k :: 0 <= k < |ts| && ts[k].id == id
  }

  ghost predicate Distinct(ts: seq<Task>) {
    forall j, k :: 0 <= j < k < |ts| ==> ts[j].id != ts[k].id
  }

  ghost predicate HasAnswer(log: seq<Answer>, id: nat) {
    exists k :: 0 <= k < |log| && log[k].t.id == id
  }

  /** The task a worker has popped and not handed over yet. */
  function HeldOf(s: State, w: nat): seq<Task> {
    if w >= |s.workers| then []
    else match s.workers[w]
      case Holding(t) => [t]
      case Clearing(_, Run(t)) => [t]
      case _ => []
  }

  ghost predicate At(s: State, id: nat, p: Place) {
    match p
    case WithSubmitter => id < |s.subs| && !s.subs[id].pc.Returned?
    case InQueue => HasId(s.shared.q, id)
    case InDead(th) => HasId(DeadOf(s, th), id)
    case HeldBy(w) => HasId(HeldOf(s, w), id)
    case Answered => HasAnswer(s.log, id)
  }

  ghost predicate Somewhere(s: State, id: nat) {
    exists p :: At(s, id, p)
  }

  /** Every submitted task is in exactly one place, and only submitted tasks are anywhere. */
  ghost predicate OnePlace(s: State) {
    && (forall id: nat, p :: At(s, id, p) ==> id < |s.subs|)
    && (forall id: nat :: id < |s.subs| ==> Somewhere(s, id))
    && (forall id: nat, p, p' :: At(s, id, p) && At(s, id, p') ==> p == p')
  }

  /** No place holds a task twice, and a submitter holds its own task. */
  ghost predicate NoTwice(s: State) {
    && Distinct(s.shared.q)
    && (forall th :: Distinct(DeadOf(s, th)))
    && (forall j, k :: 0 <= j < k < |s.log| ==> s.log[j].t.id != s.log[k].t.id)
    && (forall i :: 0 <= i < |s.subs| && !s.subs[i].pc.Returned? ==> s.subs[i].pc.t.id == i)
  }

  /** s' is s with exactly the tasks of m moved, each to where m says. */
  ghost predicate Moved(s: State, s': State, m: map<nat, Place>) {
    forall id: nat, p :: At(s', id, p) <==> if id in m then p == m[id] else At(s, id, p)
  }

  ghost function Group(ts: seq<Task>, p: Place): (m: map<nat, Place>)
    ensures forall id :: id in m <==> HasId(ts, id)
    ensures forall id :: id in m ==> m[id] == p
  {
    map k | 0 <= k < |ts| :: ts[k].id := p
  }

  lemma MovedKeepsOnePlace(s: State, s': State, m: map<nat, Place>)
    requires OnePlace(s) && Moved(s, s', m) && |s.subs| <= |s'.subs|
    requires forall id :: id in m ==> id < |s'.subs|
    requires forall id: nat :: |s.subs| <= id < |s'.subs| ==> id in m
    ensures OnePlace(s')
  {
    forall id: nat | id < |s'.subs| ensures Somewhere(s', id) {
      if id in m {
        assert At(s', id, m[id]);
      } else {
        assert Somewhere(s, id);
        var p :| At(s, id, p);
        assert At(s', id, p);
      }
    }
  }

  // ------------------------------------------------ the filter

  ghost predicate HasIdWhen(c: Config, q: seq<Task>, now: int, id: nat, late: bool) {
    exists k :: 0 <= k < |q| && q[k].id == id && Late(c, q[k], now) == late
  }

  lemma {:induction false} LiveDeadIds(c: Config, q: seq<Task>, now: int, id: nat)
    ensures HasId(Live(c, q, now), id) <==> HasIdWhen(c, q, now, id, false)
    ensures HasId(Dead(c, q, now), id) <==> HasIdWhen(c, q, now, id, true)
  {
    if q != [] {
      var n := |q| - 1;
      LiveDeadIds(c, q[..n], now, id);
      var l, d := Live(c, q[..n], now), Dead(c, q[..n], now);
      assert [q[n]][0] == q[n];
      assert HasId([q[n]], id) <==> q[n].id == id;
      assert !HasId([], id);
      HasIdConcat(l, if Late(c, q[n], now) then [] else [q[n]], id);
      HasIdConcat(d, if Late(c, q[n], now) then [q[n]] else [], id);
      forall late: bool
        ensures HasIdWhen(c, q, now, id, late) <==>
                HasIdWhen(c, q[..n], now, id, late) || (q[n].id == id && Late(c, q[n], now) == late)
      {
        assert forall k :: 0 <= k < n ==> q[k] == q[..n][k];
      }
    }
  }

  lemma HasIdConcat(a: seq<Task>, b: seq<Task>, id: nat)
    ensures HasId(a + b, id) <==> HasId(a, id) || HasId(b, id)
  {
    if HasId(a, id) {
      var k :| 0 <= k < |a| && a[k].id == id;
      assert (a + b)[k].id == id;
    }
    if HasId(b, id) {
      var k :| 0 <= k < |b| && b[k].id == id;
      assert (a + b)[|a| + k].id == id;
    }
  }

  lemma {:induction false} LiveDeadDistinct(c: Config, q: seq<Task>, now: int)
    requires Distinct(q)
    ensures Distinct(Live(c, q, now)) && Distinct(Dead(c, q, now))
  {
    if q != [] {
      var n := |q| - 1;
      LiveDeadDistinct(c, q[..n], now);
      LiveDeadIds(c, q[..n], now, q[n].id);
    }
  }

  /** The filter splits a queue in two: each task goes to one side only. */
  lemma FilterSplits(c: Config, q: seq<Task>, now: int)
    requires Distinct(q)
    ensures Distinct(Live(c, q, now)) && Distinct(Dead(c, q, now))
    ensures forall id :: HasId(q, id) <==> HasId(Live(c, q, now), id) || HasId(Dead(c, q, now), id)
    ensures forall id :: !(HasId(Live(c, q, now), id) && HasId(Dead(c, q, now), id))
  {
    LiveDeadDistinct(c, q, now);
    forall id: nat
      ensures HasId(q, id) <==> HasId(Live(c, q, now), id) || HasId(Dead(c, q, now), id)
      ensures !(HasId(Live(c, q, now), id) && HasId(Dead(c, q, now), id))
    {
      LiveDeadIds(c, q, now, id);
    }
  }

  // ------------------------------------------------ waking threads moves nothing

  lemma NotifyMovesNothing(s: State, wake: Wake, who: Thread)
    ensures Moved(s, Notify(s, wake, who), map[])
    ensures NoTwice(s) ==> NoTwice(Notify(s, wake, who))
    ensures |Notify(s, wake, who).subs| == |s.subs|
  {
    var s' := Notify(s, wake, who);
    assert forall th :: DeadOf(s', th) == DeadOf(s, th);
    assert forall w :: HeldOf(s', w) == HeldOf(s, w);
  }

  // ------------------------------------------------ what each step moves

  ghost function SubmitMap(t: Task, r: SubmitResult, i: nat): map<nat, Place> {
    if r.Accepted? then map[t.id := InQueue]
    else if r.Clean? then Group(r.dead, InDead(Sub(i))) else map[]
  }

  ghost function LockMap(c: Config, s: State, i: nat, d: nat): map<nat, Place>
    requires c.depth >= 1 && i < |s.subs| && s.subs[i].pc.Locking?
  {
    var (p, t, r, wake) := SubmitRegion(c, s.shared, s.subs[i].pc.t, s.now, s.now + d);
    SubmitMap(t, r, i)
  }

  ghost function LoopMap(c: Config, s: State, i: nat): map<nat, Place>
    requires i < |s.subs| && s.subs[i].pc.Looping?
  {
    var t := s.subs[i].pc.t;
    SubmitMap(t, LoopRegion(c, s.shared, t, s.subs[i].timer.Fired?, s.now).1, i)
  }

  /** The tasks a step moves, and where to. */
  ghost function Moves(c: Config, s: State, a: Action): map<nat, Place>
    requires c.depth >= 1 && Enabled(c, s, a)
  {
    match a
    case Begin(_) => map[|s.subs| := WithSubmitter]
    case Collect(i) => Group(Dead(c, s.shared.q, s.now), InDead(Sub(i)))
    case Reply(th) => map[DeadOf(s, th)[0].id := Answered]
    case Lock(i, d, who) => LockMap(c, s, i, d)
    case Loop(i, who) => LoopMap(c, s, i)
    case Expire(i) => map[s.subs[i].pc.t.id := Answered]
    case Shed(i) => map[s.subs[i].pc.t.id := Answered]
    case Pop(w) =>
      var dead := Group(Dead(c, s.shared.q, s.now), InDead(Wrk(w)));
      var live := Live(c, s.shared.q, s.now);
      if live == [] then dead else dead[live[0].id := HeldBy(w)]
    case Hand(w) => map[s.workers[w].t.id := Answered]
    case Sweep => Group(Dead(c, s.shared.q, s.now), InDead(Swp))
    case _ => map[]
  }

  /** Moving, not twice, and to known tasks: what one step has to establish. */
  ghost predicate Clean(s: State, s': State, m: map<nat, Place>) {
    && Moved(s, s', m)
    && NoTwice(s')
    && |s.subs| <= |s'.subs|
    && (forall id: nat :: id in m ==> id < |s'.subs|)
    && (forall id: nat :: |s.subs| <= id < |s'.subs| ==> id in m)
  }

  lemma CleanThenNotify(s: State, s1: State, m: map<nat, Place>, wake: Wake, who: Thread)
    requires Clean(s, s1, m)
    ensures Clean(s, Notify(s1, wake, who), m)
  {
    NotifyMovesNothing(s1, wake, who);
  }

  /** The expired tasks of the queue go to the dead list of a thread that had none. */
  lemma TakenByThread(c: Config, s: State, s': State, th: Thread)
    requires OnePlace(s) && NoTwice(s) && DeadOf(s, th) == []
    requires DeadOf(s', th) == Dead(c, s.shared.q, s'.now)
    requires s'.shared.q == Live(c, s.shared.q, s'.now) && s'.log == s.log && |s'.subs| == |s.subs|
    requires forall i :: 0 <= i < |s.subs| ==> s'.subs[i].pc.Returned? == s.subs[i].pc.Returned?
    requires forall i :: 0 <= i < |s.subs| && !s.subs[i].pc.Returned? ==> s'.subs[i].pc.t.id == s.subs[i].pc.t.id
    requires forall th' :: th' != th ==> DeadOf(s', th') == DeadOf(s, th')
    requires forall w :: HeldOf(s', w) == HeldOf(s, w)
    ensures Clean(s, s', Group(Dead(c, s.shared.q, s'.now), InDead(th)))
  {
    var dead := Dead(c, s.shared.q, s'.now);
    var m := Group(dead, InDead(th));
    FilterSplits(c, s.shared.q, s'.now);
    forall id: nat, p ensures At(s', id, p) <==> if id in m then p == m[id] else At(s, id, p) {
      assert id in m ==> At(s, id, InQueue);
      assert !At(s, id, InDead(th));
      match p
      case WithSubmitter => assert At(s', id, p) <==> At(s, id, p);
      case InQueue =>
      case InDead(th') => assert th' != th ==> (At(s', id, p) <==> At(s, id, p));
      case HeldBy(w) => assert At(s', id, p) <==> At(s, id, p);
      case Answered => assert At(s', id, p) <==> At(s, id, p);
    }
    assert forall id: nat :: id in m ==> At(s, id, InQueue);
  }

  /** A submitter hands its own task to the queue. */
  lemma SubmittedToQueue(s: State, s': State, i: nat, t: Task)
    requires OnePlace(s) && NoTwice(s) && i < |s.subs| && !s.subs[i].pc.Returned? && t.id == i
    requires |s'.subs| == |s.subs| && s'.subs[i].pc.Returned?
    requires forall k :: 0 <= k < |s.subs| && k != i ==> s'.subs[k] == s.subs[k]
    requires s'.shared.q == s.shared.q + [t] && s'.log == s.log
    requires DeadOf(s, Sub(i)) == []
    requires s'.workers == s.workers && s'.sweeper == s.sweeper
    ensures Clean(s, s', map[t.id := InQueue])
  {
    assert At(s, i, WithSubmitter) && !At(s, i, InQueue);
    assert forall th :: DeadOf(s', th) == DeadOf(s, th);
    assert forall w :: HeldOf(s', w) == HeldOf(s, w);
    assert [t][0] == t;
    forall id: nat, p ensures At(s', id, p) <==> if id == i then p == InQueue else At(s, id, p) {
      HasIdConcat(s.shared.q, [t], id);
      match p
      case WithSubmitter =>
      case InQueue =>
      case InDead(th) => assert At(s', id, p) <==> At(s, id, p);
      case HeldBy(w) => assert At(s', id, p) <==> At(s, id, p);
      case Answered => assert At(s', id, p) <==> At(s, id, p);
    }
  }

  /** Nothing moves while a submitter or a worker only changes its position. */
  lemma NothingMoves(s: State, s': State)
    requires NoTwice(s) && s'.shared.q == s.shared.q && s'.log == s.log && |s'.subs| == |s.subs|
    requires forall i :: 0 <= i < |s.subs| ==> s'.subs[i].pc.Returned? == s.subs[i].pc.Returned?
    requires forall i :: 0 <= i < |s.subs| && !s.subs[i].pc.Returned? ==> s'.subs[i].pc.t.id == s.subs[i].pc.t.id
    requires forall th :: DeadOf(s', th) == DeadOf(s, th)
    requires forall w :: HeldOf(s', w) == HeldOf(s, w)
    ensures Clean(s, s', map[])
  {
  }

  /** A call of the handler takes a task from the place it had. */
  lemma OneAnswered(s: State, s': State, id: nat, from: Place)
    requires OnePlace(s) && NoTwice(s) && At(s, id, from) && from != Answered
    requires |s'.log| == |s.log| + 1 && s'.log[..|s.log|] == s.log && s'.log[|s.log|].t.id == id
    requires s'.shared.q == s.shared.q && |s'.subs| == |s.subs|
    requires forall id': nat, p :: p != Answered ==> (At(s', id', p) <==> At(s, id', p) && id' != id)
    requires forall th :: Distinct(DeadOf(s', th))
    requires forall i :: 0 <= i < |s.subs| && !s'.subs[i].pc.Returned? ==> s'.subs[i].pc.t.id == i
    ensures Clean(s, s', map[id := Answered])
  {
    var n := |s.log|;
    assert forall k :: 0 <= k < n ==> s'.log[k] == s.log[k];
    assert !At(s, id, Answered);
    assert forall id': nat :: At(s', id', Answered) <==> At(s, id', Answered) || id' == id;
  }

  /** A step of one submitter touches no other thread's lists. */
  lemma OnlySub(s: State, s': State, i: nat)
    requires s'.workers == s.workers && s'.sweeper == s.sweeper && |s'.subs| == |s.subs|
    requires forall k :: 0 <= k < |s.subs| && k != i ==> s'.subs[k] == s.subs[k]
    ensures forall th :: th != Sub(i) ==> DeadOf(s', th) == DeadOf(s, th)
    ensures forall w :: HeldOf(s', w) == HeldOf(s, w)
  {
  }

  lemma OnlyWorker(s: State, s': State, w: nat)
    requires s'.subs == s.subs && s'.sweeper == s.sweeper && |s'.workers| == |s.workers|
    requires forall k :: 0 <= k < |s.workers| && k != w ==> s'.workers[k] == s.workers[k]
    ensures forall th :: th != Wrk(w) ==> DeadOf(s', th) == DeadOf(s, th)
    ensures forall w' :: w' != w ==> HeldOf(s', w') == HeldOf(s, w')
  {
  }

  lemma CollectSteps(c: Config, s: State, i: nat)
    requires i < |s.subs| && s.subs[i].pc.Collecting?
    ensures var s' := CollectBody(c, s, i).0;
      && DeadOf(s, Sub(i)) == [] && DeadOf(s', Sub(i)) == Dead(c, s.shared.q, s.now)
      && s'.shared.q == Live(c, s.shared.q, s.now) && s'.log == s.log && s'.now == s.now && |s'.subs| == |s.subs|
      && (forall k :: 0 <= k < |s.subs| ==> s'.subs[k].pc.Returned? == s.subs[k].pc.Returned?)
      && (forall k :: 0 <= k < |s.subs| && !s.subs[k].pc.Returned? ==> s'.subs[k].pc.t.id == s.subs[k].pc.t.id)
      && (forall th :: th != Sub(i) ==> DeadOf(s', th) == DeadOf(s, th))
      && (forall w :: HeldOf(s', w) == HeldOf(s, w))
  {
    OnlySub(s, CollectBody(c, s, i).0, i);
  }

  lemma CollectMoves(c: Config, s: State, i: nat)
    requires OnePlace(s) && NoTwice(s) && i < |s.subs| && s.subs[i].pc.Collecting?
    ensures Clean(s, CollectBody(c, s, i).0, Group(Dead(c, s.shared.q, s.now), InDead(Sub(i))))
  {
    CollectSteps(c, s, i);
    TakenByThread(c, s, CollectBody(c, s, i).0, Sub(i));
  }

  lemma SweepMoves(c: Config, s: State)
    requires c.depth >= 1 && OnePlace(s) && NoTwice(s) && Enabled(c, s, Sweep)
    ensures Clean(s, SweepBody(c, s).0, Group(Dead(c, s.shared.q, s.now), InDead(Swp)))
  {
    TakenByThread(c, s, SweepBody(c, s).0, Swp);
  }

  /** A step of one submitter that ends its region this way. */
  ghost predicate SubmitterSteps(s: State, s': State, i: nat, t: Task, p: Shared, r: SubmitResult, now: int) {
    && i < |s.subs| && |s'.subs| == |s.subs| && s'.subs[i].pc == SubmitPcAfter(t, r)
    && (forall k :: 0 <= k < |s.subs| && k != i ==> s'.subs[k] == s.subs[k])
    && s'.shared == p && s'.log == s.log && s'.workers == s.workers && s'.sweeper == s.sweeper && s'.now == now
  }

  lemma LockSteps(c: Config, s: State, i: nat, d: nat)
    requires c.depth >= 1 && i < |s.subs| && s.subs[i].pc.Locking?
    ensures var (p, t, r, wake) := SubmitRegion(c, s.shared, s.subs[i].pc.t, s.now, s.now + d);
      && SubmitterSteps(s, LockBody(c, s, i, d).0, i, t, p, r, s.now + d)
      && RegionTakes(c, s.shared, p, t, r, s.now + d) && t.id == s.subs[i].pc.t.id
      && LockMap(c, s, i, d) == SubmitMap(t, r, i)
  {
    SubmitTakes(c, s.shared, s.subs[i].pc.t, s.now, s.now + d);
  }

  lemma LockMoves(c: Config, s: State, i: nat, d: nat)
    requires c.depth >= 1 && OnePlace(s) && NoTwice(s) && i < |s.subs| && s.subs[i].pc.Locking?
    ensures Clean(s, LockBody(c, s, i, d).0, LockMap(c, s, i, d))
  {
    var (p, t, r, wake) := SubmitRegion(c, s.shared, s.subs[i].pc.t, s.now, s.now + d);
    LockSteps(c, s, i, d);
    SubmitterMoves(c, s, LockBody(c, s, i, d).0, i, t, p, r, s.now + d, LockMap(c, s, i, d));
  }

  lemma LoopSteps(c: Config, s: State, i: nat)
    requires i < |s.subs| && s.subs[i].pc.Looping?
    ensures var t := s.subs[i].pc.t;
      var (p, r, wake) := LoopRegion(c, s.shared, t, s.subs[i].timer.Fired?, s.now);
      && SubmitterSteps(s, LoopBody(c, s, i).0, i, t, p, r, s.now) && RegionTakes(c, s.shared, p, t, r, s.now)
      && LoopMap(c, s, i) == SubmitMap(t, r, i)
  {
  }

  lemma LoopMoves(c: Config, s: State, i: nat)
    requires OnePlace(s) && NoTwice(s) && i < |s.subs| && s.subs[i].pc.Looping?
    ensures Clean(s, LoopBody(c, s, i).0, LoopMap(c, s, i))
  {
    var t := s.subs[i].pc.t;
    var (p, r, wake) := LoopRegion(c, s.shared, t, s.subs[i].timer.Fired?, s.now);
    LoopSteps(c, s, i);
    SubmitterMoves(c, s, LoopBody(c, s, i).0, i, t, p, r, s.now, LoopMap(c, s, i));
  }

  /** What a region of Submit does to the queue, by how it ends. */
  predicate RegionTakes(c: Config, p: Shared, p': Shared, t: Task, r: SubmitResult, now: int) {
    if r.Accepted? then p' == Enqueue(p, t)
    else if r.Clean? then r.dead != [] && r.dead == Dead(c, p.q, now) && p' == p.(q := Live(c, p.q, now))
    else p' == p
  }

  lemma SubmitTakes(c: Config, p: Shared, t: Task, now: int, later: int)
    requires c.depth > 0
    ensures var (p', t', r, wake) := SubmitRegion(c, p, t, now, later);
      RegionTakes(c, p, p', t', r, later) && t'.id == t.id
  {
  }

  /** Both regions of Submit end in one of three ways: the task is queued, the late ones are taken, or nothing moves. */
  lemma SubmitterMoves(c: Config, s: State, s': State, i: nat, t: Task, p: Shared, r: SubmitResult, now: int,
                       m: map<nat, Place>)
    requires OnePlace(s) && NoTwice(s) && i < |s.subs| && !s.subs[i].pc.Returned? && DeadOf(s, Sub(i)) == []
    requires t.id == s.subs[i].pc.t.id && RegionTakes(c, s.shared, p, t, r, now)
    requires SubmitterSteps(s, s', i, t, p, r, now)
    requires m == SubmitMap(t, r, i)
    ensures Clean(s, s', m)
  {
    OnlySub(s, s', i);
    if r.Accepted? {
      SubmittedToQueue(s, s', i, t);
    } else if r.Clean? {
      TakenByThread(c, s, s', Sub(i));
    } else {
      NothingMoves(s, s');
    }
  }

  /** A worker takes the head of the queue. */
  lemma HeadToWorker(s: State, s': State, w: nat)
    requires OnePlace(s) && NoTwice(s) && s.shared.q != [] && HeldOf(s, w) == []
    requires s'.shared.q == s.shared.q[1..] && HeldOf(s', w) == [s.shared.q[0]]
    requires s'.subs == s.subs && s'.log == s.log
    requires forall th :: DeadOf(s', th) == DeadOf(s, th)
    requires forall w' :: w' != w ==> HeldOf(s', w') == HeldOf(s, w')
    ensures Clean(s, s', map[s.shared.q[0].id := HeldBy(w)])
  {
    var q := s.shared.q;
    assert [q[0]][0] == q[0] && q == [q[0]] + q[1..];
    assert At(s, q[0].id, InQueue);
    forall id: nat, p ensures At(s', id, p) <==> if id == q[0].id then p == HeldBy(w) else At(s, id, p) {
      HasIdConcat([q[0]], q[1..], id);
      assert HasId([q[0]], id) <==> id == q[0].id;
      match p
      case WithSubmitter => assert At(s', id, p) <==> At(s, id, p);
      case InQueue =>
      case InDead(th) => assert At(s', id, p) <==> At(s, id, p);
      case HeldBy(w') => assert w' != w ==> (At(s', id, p) <==> At(s, id, p));
      case Answered => assert At(s', id, p) <==> At(s, id, p);
    }
  }

  lemma MovedTwice(s: State, s1: State, s2: State, m: map<nat, Place>, id: nat, p: Place)
    requires Clean(s, s1, m) && Clean(s1, s2, map[id := p])
    ensures Clean(s, s2, m[id := p])
  {
    var m' := m[id := p];
    forall x: nat, r ensures At(s2, x, r) <==> if x in m' then r == m'[x] else At(s, x, r) {
      assert At(s2, x, r) <==> if x == id then r == p else At(s1, x, r);
    }
    forall x: nat | x in m' ensures x < |s2.subs| {
      assert x in m || x in map[id := p];
    }
    forall x: nat | |s.subs| <= x < |s2.subs| ensures x in m' {
      assert x in m || x in map[id := p];
    }
  }

  /** The worker in the middle of its pop: the late tasks are out of the queue, its own is still in. */
  function PopMidway(c: Config, s: State, w: nat): State
    requires w < |s.workers|
  {
    SetWorker(s.(shared := s.shared.(q := Live(c, s.shared.q, s.now))), w,
      ClearThen(Dead(c, s.shared.q, s.now), Again))
  }

  lemma PopTakesDead(c: Config, s: State, w: nat)
    requires OnePlace(s) && NoTwice(s) && w < |s.workers| && s.workers[w].Popping?
    ensures Clean(s, PopMidway(c, s, w), Group(Dead(c, s.shared.q, s.now), InDead(Wrk(w))))
    ensures OnePlace(PopMidway(c, s, w))
  {
    TakenByThread(c, s, PopMidway(c, s, w), Wrk(w));
    MovedKeepsOnePlace(s, PopMidway(c, s, w), Group(Dead(c, s.shared.q, s.now), InDead(Wrk(w))));
  }

  lemma PopTakesHead(c: Config, s: State, w: nat)
    requires w < |s.workers| && s.workers[w].Popping? && Live(c, s.shared.q, s.now) != []
    requires OnePlace(PopMidway(c, s, w)) && NoTwice(PopMidway(c, s, w))
    ensures Clean(PopMidway(c, s, w), PopBody(c, s, w).0, map[Live(c, s.shared.q, s.now)[0].id := HeldBy(w)])
  {
    var s1, s' := PopMidway(c, s, w), PopBody(c, s, w).0;
    OnlyWorker(s1, s', w);
    assert HeldOf(s1, w) == [] && HeldOf(s', w) == [s1.shared.q[0]];
    assert DeadOf(s', Wrk(w)) == DeadOf(s1, Wrk(w));
    HeadToWorker(s1, s', w);
  }

  lemma PopFindsNone(c: Config, s: State, w: nat)
    requires OnePlace(s) && NoTwice(s) && w < |s.workers| && s.workers[w].Popping? && Live(c, s.shared.q, s.now) == []
    ensures Clean(s, PopBody(c, s, w).0, Group(Dead(c, s.shared.q, s.now), InDead(Wrk(w))))
  {
    var s' := PopBody(c, s, w).0;
    OnlyWorker(s, s', w);
    assert DeadOf(s', Wrk(w)) == Dead(c, s.shared.q, s.now) && HeldOf(s', w) == [];
    TakenByThread(c, s, s', Wrk(w));
  }

  lemma PopFindsSome(c: Config, s: State, w: nat)
    requires OnePlace(s) && NoTwice(s) && w < |s.workers| && s.workers[w].Popping? && Live(c, s.shared.q, s.now) != []
    ensures var dead := Group(Dead(c, s.shared.q, s.now), InDead(Wrk(w)));
      Clean(s, PopBody(c, s, w).0, dead[Live(c, s.shared.q, s.now)[0].id := HeldBy(w)])
  {
    PopTakesDead(c, s, w);
    PopTakesHead(c, s, w);
    MovedTwice(s, PopMidway(c, s, w), PopBody(c, s, w).0, Group(Dead(c, s.shared.q, s.now), InDead(Wrk(w))),
               Live(c, s.shared.q, s.now)[0].id, HeldBy(w));
  }

  lemma PopMoves(c: Config, s: State, w: nat)
    requires c.depth >= 1 && OnePlace(s) && NoTwice(s) && Enabled(c, s, Pop(w))
    ensures Clean(s, PopBody(c, s, w).0, Moves(c, s, Pop(w)))
  {
    if Live(c, s.shared.q, s.now) == [] {
      PopFindsNone(c, s, w);
    } else {
      PopFindsSome(c, s, w);
    }
  }

  /** A step that answers the head of a thread's dead list and moves only this thread on. */
  lemma HeadAnswered(s: State, s': State, th: Thread)
    requires OnePlace(s) && NoTwice(s) && DeadOf(s, th) != []
    requires |s'.log| == |s.log| + 1 && s'.log[..|s.log|] == s.log && s'.log[|s.log|].t == DeadOf(s, th)[0]
    requires s'.shared.q == s.shared.q && |s'.subs| == |s.subs|
    requires forall i :: 0 <= i < |s.subs| ==> s'.subs[i].pc.Returned? == s.subs[i].pc.Returned?
    requires forall i :: 0 <= i < |s.subs| && !s.subs[i].pc.Returned? ==> s'.subs[i].pc.t.id == s.subs[i].pc.t.id
    requires DeadOf(s', th) == DeadOf(s, th)[1..]
    requires forall th' :: th' != th ==> DeadOf(s', th') == DeadOf(s, th')
    requires forall w :: HeldOf(s', w) == HeldOf(s, w)
    ensures Clean(s, s', map[DeadOf(s, th)[0].id := Answered])
  {
    var dead := DeadOf(s, th);
    assert Distinct(dead);
    assert At(s, dead[0].id, InDead(th));
    assert [dead[0]][0] == dead[0] && dead == [dead[0]] + dead[1..];
    forall id: nat, p | p != Answered ensures At(s', id, p) <==> At(s, id, p) && id != dead[0].id {
      HasIdConcat([dead[0]], dead[1..], id);
      assert HasId([dead[0]], id) <==> id == dead[0].id;
      match p
      case WithSubmitter => assert At(s', id, p) <==> At(s, id, p);
      case InQueue => assert At(s', id, p) <==> At(s, id, p);
      case InDead(th') => assert th' != th ==> (At(s', id, p) <==> At(s, id, p));
      case HeldBy(w) => assert At(s', id, p) <==> At(s, id, p);
    }
    OneAnswered(s, s', dead[0].id, InDead(th));
  }

  lemma ReplyMoves(c: Config, s: State, th: Thread)
    requires c.depth >= 1 && OnePlace(s) && NoTwice(s) && DeadOf(s, th) != []
    ensures Clean(s, Next(c, s, Reply(th)), map[DeadOf(s, th)[0].id := Answered])
  {
    var s' := Next(c, s, Reply(th));
    AfterReplyLists(Called(s, DeadOf(s, th)[0], 0, REASON_DEADLINE), th);
    HeadAnswered(s, s', th);
  }

  lemma AfterReplyLists(s: State, th: Thread)
    requires DeadOf(s, th) != []
    ensures var s' := AfterReply(s, th);
      && DeadOf(s', th) == DeadOf(s, th)[1..]
      && (forall th' :: th' != th ==> DeadOf(s', th') == DeadOf(s, th'))
      && (forall w :: HeldOf(s', w) == HeldOf(s, w))
  {
  }

  lemma OwnAnswerMoves(c: Config, s: State, a: Action, i: nat)
    requires c.depth >= 1 && OnePlace(s) && NoTwice(s) && (a == Expire(i) || a == Shed(i))
    requires Enabled(c, s, a)
    ensures Clean(s, Next(c, s, a), map[s.subs[i].pc.t.id := Answered])
  {
    var s' := Next(c, s, a);
    assert At(s, i, WithSubmitter);
    assert forall th :: DeadOf(s', th) == DeadOf(s, th);
    assert forall w :: HeldOf(s', w) == HeldOf(s, w);
    forall id: nat, p | p != Answered ensures At(s', id, p) <==> At(s, id, p) && id != i {
      if p != WithSubmitter {
        assert At(s', id, p) <==> At(s, id, p);
      }
    }
    OneAnswered(s, s', i, WithSubmitter);
  }

  lemma HandMoves(c: Config, s: State, w: nat)
    requires c.depth >= 1 && OnePlace(s) && NoTwice(s) && Enabled(c, s, Hand(w))
    ensures Clean(s, Next(c, s, Hand(w)), map[s.workers[w].t.id := Answered])
  {
    var s' := Next(c, s, Hand(w));
    var t := s.workers[w].t;
    assert [t][0] == t;
    assert At(s, t.id, HeldBy(w));
    assert forall th :: DeadOf(s', th) == DeadOf(s, th);
    forall id: nat, p | p != Answered ensures At(s', id, p) <==> At(s, id, p) && id != t.id {
      assert HasId([t], id) <==> id == t.id;
      assert id == t.id && At(s, id, p) ==> p == HeldBy(w);
      match p
      case WithSubmitter => assert At(s', id, p) <==> At(s, id, p);
      case InQueue => assert At(s', id, p) <==> At(s, id, p);
      case InDead(th) => assert At(s', id, p) <==> At(s, id, p);
      case HeldBy(w') =>
        assert HeldOf(s', w') == if w' == w then [] else HeldOf(s, w');
        assert HeldOf(s, w) == [t];
    }
    OneAnswered(s, s', t.id, HeldBy(w));
  }

  lemma BeginMoves(c: Config, s: State, deadlineMS: int)
    requires c.depth >= 1 && OnePlace(s) && NoTwice(s)
    ensures Clean(s, Next(c, s, Begin(deadlineMS)), map[|s.subs| := WithSubmitter])
  {
    var s' := Next(c, s, Begin(deadlineMS));
    assert forall th :: DeadOf(s', th) == DeadOf(s, th);
    assert forall w :: HeldOf(s', w) == HeldOf(s, w);
    forall id: nat, p ensures At(s', id, p) <==> if id == |s.subs| then p == WithSubmitter else At(s, id, p) {
      assert p != WithSubmitter ==> (At(s', id, p) <==> At(s, id, p));
    }
  }

  lemma TimerMoves(c: Config, s: State, i: nat)
    requires c.depth >= 1 && OnePlace(s) && NoTwice(s) && Enabled(c, s, TimerFires(i))
    ensures Clean(s, Next(c, s, TimerFires(i)), map[])
  {
    var s1 := s.(subs := s.subs[i := s.subs[i].(timer := Fired)]);
    NothingMoves(s, s1);
    CleanThenNotify(s, s1, map[], WakeAll, Swp);
  }

  lemma CloseLockMoves(c: Config, s: State)
    requires c.depth >= 1 && OnePlace(s) && NoTwice(s) && Enabled(c, s, CloseLock)
    ensures Clean(s, Next(c, s, CloseLock), map[])
  {
    var s1 := s.(shared := CloseRegion(s.shared).0, closer := Joining);
    NothingMoves(s, s1);
    CleanThenNotify(s, s1, map[], WakeAll, Swp);
  }

  lemma RestMoves(c: Config, s: State, a: Action)
    requires c.depth >= 1 && OnePlace(s) && NoTwice(s) && Enabled(c, s, a)
    requires a.Tick? || a.CloseStop? || a.Check? || a.SweepStop? || a.CloseJoin?
    ensures Clean(s, Next(c, s, a), map[])
  {
    NothingMoves(s, Next(c, s, a));
  }

  lemma RegionMoves(c: Config, s: State, a: Action)
    requires c.depth >= 1 && OnePlace(s) && NoTwice(s) && Enabled(c, s, a)
    requires a.Collect? || a.Lock? || a.Loop? || a.Pop? || a.Sweep?
    ensures Clean(s, Next(c, s, a), Moves(c, s, a))
  {
    if a.Collect? {
      CollectMoves(c, s, a.i);
      CleanThenNotify(s, CollectBody(c, s, a.i).0, Moves(c, s, a), CollectBody(c, s, a.i).1, Swp);
    } else if a.Lock? {
      LockMoves(c, s, a.i, a.d);
      CleanThenNotify(s, LockBody(c, s, a.i, a.d).0, Moves(c, s, a), LockBody(c, s, a.i, a.d).1, a.who);
    } else if a.Loop? {
      LoopMoves(c, s, a.i);
      CleanThenNotify(s, LoopBody(c, s, a.i).0, Moves(c, s, a), LoopBody(c, s, a.i).1, a.who);
    } else if a.Pop? {
      PopMoves(c, s, a.w);
      CleanThenNotify(s, PopBody(c, s, a.w).0, Moves(c, s, a), PopBody(c, s, a.w).1, Swp);
    } else {
      SweepMoves(c, s);
      CleanThenNotify(s, SweepBody(c, s).0, Moves(c, s, a), SweepBody(c, s).1, Swp);
    }
  }

  /** Every step moves exactly the tasks `Moves` lists, and no place ever holds a task twice. */
  lemma StepMoves(c: Config, s: State, a: Action)
    requires c.depth >= 1 && OnePlace(s) && NoTwice(s) && Enabled(c, s, a)
    ensures Clean(s, Next(c, s, a), Moves(c, s, a))
    ensures OnePlace(Next(c, s, a))
  {
    if a.Collect? || a.Lock? || a.Loop? || a.Pop? || a.Sweep? {
      RegionMoves(c, s, a);
    } else if a.Begin? {
      BeginMoves(c, s, a.deadlineMS);
    } else if a.Reply? {
      ReplyMoves(c, s, a.th);
    } else if a.Expire? || a.Shed? {
      OwnAnswerMoves(c, s, a, a.i);
    } else if a.Hand? {
      HandMoves(c, s, a.w);
    } else if a.TimerFires? {
      TimerMoves(c, s, a.i);
    } else if a.CloseLock? {
      CloseLockMoves(c, s);
    } else {
      RestMoves(c, s, a);
    }
    MovedKeepsOnePlace(s, Next(c, s, a), Moves(c, s, a));
  }
}
