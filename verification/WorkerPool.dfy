/**
 The deadline-aware worker pool: the state its mutex guards, what each region of
 code that holds the mutex does to it, and the class whose methods are those regions.

 A region is the code between taking the mutex and the next release of it, a wait on
 the condition variable included. Besides the new state it says whom it woke.
 */
module WorkerPool {

  const REASON_QUEUE_LIMIT := "JSON_QUEUE_LIMIT"
  const REASON_DEADLINE := "JSON_DEADLINE_EXCEEDED"
  const FULL_DROP := "drop"
  const FULL_WAIT := "wait"

  const NANOS_PER_MS := 1_000_000

  /** A task as the pool sees it; `id` stands for the identity of the pointer. Times are in nanoseconds. */
  datatype Task = Task(id: nat, deadlineMS: int, enqueued: int, fill: int)

  /** What `New` fixes for the life of a pool. */
  datatype Config = Config(workers: nat, depth: nat, reserve: int, minBudget: int, full: string)

  function Configure(workers: nat, depth: int, reserveMS: int, minBudgetMS: int, full: string): Config {
    Config(workers, if depth < 1 then 1 else depth, reserveMS * NANOS_PER_MS, minBudgetMS * NANOS_PER_MS,
           if full == "" then FULL_DROP else full)
  }

  /** The state guarded by the mutex, and the counters. */
  datatype Shared = Shared(q: seq<Task>, closed: bool, accepted: nat, shed: nat, expired: nat)

  /** What a region did to the condition variable. */
  datatype Wake = NoWake | WakeOne | WakeAll

  function LeftAt(c: Config, t: Task, now: int): int {
    t.deadlineMS * NANOS_PER_MS - (now - t.enqueued) - c.reserve
  }

  /** Too little time is left to start the task. */
  predicate Late(c: Config, t: Task, now: int) {
    LeftAt(c, t, now) < c.minBudget
  }

  /** The tasks of a queue that are still worth starting, in order. */
  function Live(c: Config, q: seq<Task>, now: int): seq<Task> {
    if q == [] then []
    else Live(c, q[..|q| - 1], now) + if Late(c, q[|q| - 1], now) then [] else [q[|q| - 1]]
  }

  /** The tasks of a queue that are late, in order. */
  function Dead(c: Config, q: seq<Task>, now: int): seq<Task> {
    if q == [] then []
    else Dead(c, q[..|q| - 1], now) + if Late(c, q[|q| - 1], now) then [q[|q| - 1]] else []
  }

  function TakeExpired(c: Config, p: Shared, now: int): (Shared, seq<Task>, Wake) {
    var dead := Dead(c, p.q, now);
    (p.(q := Live(c, p.q, now)), dead, if dead == [] then NoWake else WakeAll)
  }

  function Enqueue(p: Shared, t: Task): Shared {
    p.(q := p.q + [t], accepted := p.accepted + 1)
  }

  function Fill(c: Config, p: Shared): int
    requires c.depth > 0
  {
    if |p.q| >= c.depth then 100 else |p.q| * 100 / c.depth
  }

  /** The fill is the share of the depth in use in whole percent, rounded down, and 100 exactly when the queue is full. */
  lemma FillIsPercent(c: Config, p: Shared)
    requires c.depth > 0
    ensures 0 <= Fill(c, p) <= 100
    ensures Fill(c, p) == 100 <==> |p.q| >= c.depth
    ensures |p.q| < c.depth ==> c.depth * Fill(c, p) <= 100 * |p.q| < c.depth * (Fill(c, p) + 1)
  {
    if |p.q| < c.depth {
      PercentBelow(|p.q|, c.depth);
    }
  }

  lemma PercentBelow(n: nat, d: nat)
    requires n < d
    ensures var f := n * 100 / d; 0 <= f < 100 && d * f <= 100 * n < d * (f + 1)
  {
    var f := n * 100 / d;
    DivisionBounds(n * 100, d);
    LessFromProducts(d, f, 100);
  }

  lemma DivisionBounds(n: nat, d: nat)
    requires d > 0
    ensures n / d >= 0 && d * (n / d) <= n < d * (n / d + 1)
  {
    assert n == d * (n / d) + n % d && 0 <= n % d < d;
    QuotientBounds(n, d, n / d, n % d);
  }

  lemma QuotientBounds(n: nat, d: nat, q: int, r: int)
    requires n == d * q + r && 0 <= r < d
    ensures q >= 0 && d * q <= n < d * (q + 1)
  {
    assert d * (q + 1) == d * q + d;
    LessFromProducts(d, -1, q);
  }

  lemma LessFromProducts(d: nat, a: int, b: int)
    requires d * a < d * b
    ensures a < b
  {
    if b <= a {
      ProductsGrow(d, b, a);
    }
  }

  lemma ProductsGrow(d: nat, a: int, b: int)
    requires a <= b
    ensures d * a <= d * b
  {
  }

  datatype PopResult =
    | Took(t: Task, dead: seq<Task>)
    | Retry(dead: seq<Task>)
    | Leave(dead: seq<Task>)
    | Sleep

  /** One turn of the loop in `pop`. */
  function PopRegion(c: Config, p: Shared, now: int): (Shared, PopResult, Wake) {
    var (p', dead, wake) := TakeExpired(c, p, now);
    if p'.q != [] then (p'.(q := p'.q[1..]), Took(p'.q[0], dead), WakeAll)
    else if p'.closed then (p', Leave(dead), wake)
    else if dead != [] then (p', Retry(dead), wake)
    else (p', Sleep, NoWake)
  }

  datatype SubmitResult =
    | Accepted
    | Block
    | Clean(dead: seq<Task>)
    | GiveUp(left: int)
    | Refuse

  /** `submitWaitLocked` from a test of its loop condition to the next release of the mutex. */
  function LoopRegion(c: Config, p: Shared, t: Task, timedOut: bool, now: int): (Shared, SubmitResult, Wake) {
    if |p.q| >= c.depth && !timedOut && !p.closed then
      var (p', dead, wake) := TakeExpired(c, p, now);
      if dead != [] then (p', Clean(dead), wake) else (p, Block, NoWake)
    else if p.closed then (p, GiveUp(0), NoWake)
    else if |p.q| < c.depth then (Enqueue(p, t), Accepted, WakeOne)
    else (p, GiveUp(0), NoWake)
  }

  /** `Submit` from its own lock; `later` is the clock when the wait loop reads it again. */
  function SubmitRegion(c: Config, p: Shared, t: Task, now: int, later: int): (Shared, Task, SubmitResult, Wake)
    requires c.depth > 0
  {
    if p.closed then (p, t, GiveUp(0), NoWake)
    else
      var t' := t.(fill := Fill(c, p));
      if |p.q| < c.depth then (Enqueue(p, t'), t', Accepted, WakeOne)
      else if c.full == FULL_WAIT then
        if Late(c, t', now) then (p, t', GiveUp(LeftAt(c, t', now)), NoWake)
        else
          var (p', r, wake) := LoopRegion(c, p, t', false, later);
          (p', t', r, wake)
      else (p, t', Refuse, NoWake)
  }

  function CloseRegion(p: Shared): (Shared, Wake) {
    (p.(closed := true), WakeAll)
  }

  // ---------------------------------------------------------------- the class

  /** One more task is looked at. */
  lemma FilterGrows(c: Config, was: seq<Task>, i: nat, now: int)
    requires i < |was|
    ensures Live(c, was[..i + 1], now) == Live(c, was[..i], now) + if Late(c, was[i], now) then [] else [was[i]]
    ensures Dead(c, was[..i + 1], now) == Dead(c, was[..i], now) + if Late(c, was[i], now) then [was[i]] else []
  {
    assert was[..i + 1][..i] == was[..i];
  }

  /** The filter over `b[lo..lo + n]`: survivors move to the front of the same stretch, in order,
      and the late ones are collected. */
  method Compact(c: Config, b: array<Task>, lo: nat, n: nat, now: int) returns (kept: nat, dead: seq<Task>)
    requires lo + n <= b.Length
    modifies b
    ensures kept <= n && b[lo..lo + kept] == Live(c, old(b[lo..lo + n]), now)
    ensures dead == Dead(c, old(b[lo..lo + n]), now)
  {
    ghost var was := b[lo..lo + n];
    kept, dead := 0, [];
    for i := 0 to n
      invariant 0 <= kept <= i
      invariant b[lo..lo + kept] == Live(c, was[..i], now)
      invariant forall k :: i <= k < n ==> b[lo + k] == was[k]
      invariant dead == Dead(c, was[..i], now)
    {
      var t := b[lo + i];
      FilterGrows(c, was, i, now);
      if Late(c, t, now) {
        dead := dead + [t];
      } else {
        b[lo + kept] := t;
        kept := kept + 1;
      }
    }
    assert was[..n] == was;
  }

  /** The queue lives in a slice of a backing array: elements leave at the front by moving
      the start of the slice, and the expiry filter compacts the slice in place. */
  class Pool {
    const c: Config
    var buf: array<Task>
    var start: nat
    var len: nat
    var closed: bool
    var accepted: nat
    var shed: nat
    var expired: nat

    ghost predicate Valid()
      reads this
    {
      start + len <= buf.Length && c.depth > 0
    }

    ghost function View(): Shared
      requires Valid()
      reads this, buf
    {
      Shared(buf[start..start + len], closed, accepted, shed, expired)
    }

    constructor (workers: nat, depth: int, reserveMS: int, minBudgetMS: int, full: string)
      ensures Valid() && fresh(buf)
      ensures c == Configure(workers, depth, reserveMS, minBudgetMS, full)
      ensures c.depth >= 1 && (depth >= 1 ==> c.depth == depth) && c.workers == workers
      ensures c.reserve == 1_000_000 * reserveMS && c.minBudget == 1_000_000 * minBudgetMS
      ensures c.full == FULL_WAIT <==> full == FULL_WAIT
      ensures View() == Shared([], false, 0, 0, 0)
    {
      var cfg := Configure(workers, depth, reserveMS, minBudgetMS, full);
      c := cfg;
      buf := new Task[cfg.depth];
      start, len, closed := 0, 0, false;
      accepted, shed, expired := 0, 0, 0;
    }

    method TakeExpiredLocked(now: int) returns (dead: seq<Task>, wake: Wake)
      requires Valid()
      modifies this, buf
      ensures Valid() && buf == old(buf)
      ensures (View(), dead, wake) == TakeExpired(c, old(View()), now)
    {
      ghost var was := buf[start..start + len];
      if len == 0 {
        return [], NoWake;
      }
      var kept;
      kept, dead := Compact(c, buf, start, len, now);
      len := kept;
      wake := if dead == [] then NoWake else WakeAll;
    }

    method EnqueueLocked(t: Task) returns (wake: Wake)
      requires Valid()
      modifies this, buf
      ensures Valid() && (buf == old(buf) || fresh(buf))
      ensures View() == Enqueue(old(View()), t) && wake == WakeOne
    {
      if start + len == buf.Length {
        Grow();
      }
      ghost var was := View().q;
      buf[start + len] := t;
      len, accepted := len + 1, accepted + 1;
      assert View().q == was + [t];
      wake := WakeOne;
    }

    /** The append that finds no room copies the slice to a larger array. */
    method Grow()
      requires Valid()
      modifies this`buf, this`start
      ensures Valid() && fresh(buf) && start + len < buf.Length && View() == old(View())
    {
      ghost var was := View().q;
      var grown := new Task[2 * len + 1];
      var i := 0;
      while i < len
        invariant 0 <= i <= len && unchanged(this) && unchanged(buf)
        invariant grown[..i] == was[..i]
      {
        assert buf[start + i] == was[i];
        grown[i] := buf[start + i];
        i := i + 1;
      }
      buf, start := grown, 0;
      assert View().q == was;
    }

    method FillLocked() returns (fill: int)
      requires Valid()
      ensures fill == Fill(c, View())
      ensures 0 <= fill <= 100 && (fill == 100 <==> len >= c.depth)
    {
      FillIsPercent(c, View());
      assert |View().q| == len;
      if len >= c.depth {
        return 100;
      }
      return len * 100 / c.depth;
    }

    method PopLocked(now: int) returns (r: PopResult, wake: Wake)
      requires Valid()
      modifies this, buf
      ensures Valid() && buf == old(buf)
      ensures (View(), r, wake) == PopRegion(c, old(View()), now)
    {
      var dead;
      dead, wake := TakeExpiredLocked(now);
      if len > 0 {
        r, wake := Took(buf[start], dead), WakeAll;
        start, len := start + 1, len - 1;
        return;
      }
      if closed {
        return Leave(dead), wake;
      }
      if |dead| > 0 {
        return Retry(dead), wake;
      }
      return Sleep, NoWake;
    }

    method LoopLocked(t: Task, timedOut: bool, now: int) returns (r: SubmitResult, wake: Wake)
      requires Valid()
      modifies this, buf
      ensures Valid() && (buf == old(buf) || fresh(buf))
      ensures (View(), r, wake) == LoopRegion(c, old(View()), t, timedOut, now)
    {
      if len >= c.depth && !timedOut && !closed {
        ghost var was := View();
        var dead;
        dead, wake := TakeExpiredLocked(now);
        if |dead| > 0 {
          return Clean(dead), wake;
        }
        NoneDead(c, was.q, now);
        return Block, NoWake;
      }
      if closed {
        return GiveUp(0), NoWake;
      }
      if len < c.depth {
        wake := EnqueueLocked(t);
        return Accepted, wake;
      }
      return GiveUp(0), NoWake;
    }

    method SubmitLocked(t: Task, now: int, later: int) returns (t': Task, r: SubmitResult, wake: Wake)
      requires Valid()
      modifies this, buf
      ensures Valid() && (buf == old(buf) || fresh(buf))
      ensures (View(), t', r, wake) == SubmitRegion(c, old(View()), t, now, later)
    {
      t' := t;
      if closed {
        return t', GiveUp(0), NoWake;
      }
      var fill := FillLocked();
      t' := t.(fill := fill);
      if len < c.depth {
        wake := EnqueueLocked(t');
        return t', Accepted, wake;
      }
      if c.full == FULL_WAIT {
        var left := LeftAt(c, t', now);
        if left < c.minBudget {
          return t', GiveUp(left), NoWake;
        }
        r, wake := LoopLocked(t', false, later);
        return;
      }
      return t', Refuse, NoWake;
    }

    method CloseLocked() returns (wake: Wake)
      requires Valid()
      modifies this
      ensures Valid() && buf == old(buf) && (View(), wake) == CloseRegion(old(View()))
    {
      closed := true;
      wake := WakeAll;
    }

    /** A worker's last look at the clock before it hands the task over. */
    method Budget(t: Task, now: int) returns (left: int, reason: string)
      requires Valid()
      modifies this`expired
      ensures Valid() && left == LeftAt(c, t, now)
      ensures reason == if Late(c, t, now) then REASON_DEADLINE else ""
      ensures View() == old(View()).(expired := old(expired) + if Late(c, t, now) then 1 else 0)
    {
      left := LeftAt(c, t, now);
      if left < c.minBudget {
        expired := expired + 1;
        return left, REASON_DEADLINE;
      }
      return left, "";
    }
  }

  /** Where nothing is late the filter keeps everything. */
  lemma {:induction false} NoneDead(c: Config, q: seq<Task>, now: int)
    requires Dead(c, q, now) == []
    ensures Live(c, q, now) == q
  {
    if q != [] {
      NoneDead(c, q[..|q| - 1], now);
      assert q == q[..|q| - 1] + [q[|q| - 1]];
    }
  }
}
