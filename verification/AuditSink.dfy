/**
 The audit sink: a bounded buffer of events that drops its oldest items when it overflows,
 is emptied in batches, and publishes every batch regrouped by subject.
 */
module AuditSink {
  import opened Basics

  const MAX_ITEMS := 256
  const MAX_SIZE := 524288
  const MAX_PENDING := 50000

  datatype Item = Item(subject: string, body: Bytes)

  /** What is handed to the bus in one call. */
  datatype Message = Message(subject: string, items: seq<Item>)

  /** The state guarded by the mutex. */
  datatype Buffer = Buffer(pending: seq<Item>, size: nat, dropped: nat)

  /** Two bytes of framing per item. */
  function SizeOf(items: seq<Item>): nat {
    if items == [] then 0 else SizeOf(items[..|items| - 1]) + |items[|items| - 1].body| + 2
  }

  lemma SizeSnoc(items: seq<Item>, it: Item)
    ensures SizeOf(items + [it]) == SizeOf(items) + |it.body| + 2
  {
    assert (items + [it])[..|items|] == items;
  }

  /** The oldest items go, and are counted, when there are too many. */
  function Bounded(b: Buffer): Buffer {
    if |b.pending| > MAX_PENDING then
      var cut := |b.pending| - MAX_PENDING;
      Buffer(b.pending[cut..], SizeOf(b.pending[cut..]), b.dropped + cut)
    else b
  }

  function AddItem(b: Buffer, it: Item): Buffer {
    Bounded(Buffer(b.pending + [it], b.size + |it.body| + 2, b.dropped))
  }

  function BatchSize(b: Buffer): nat {
    if |b.pending| > MAX_ITEMS then MAX_ITEMS else |b.pending|
  }

  function TakeBatch(b: Buffer): (Buffer, seq<Item>) {
    var n := BatchSize(b);
    (b.(pending := b.pending[n..], size := SizeOf(b.pending[n..])), b.pending[..n])
  }

  // ------------------------------------------------ grouping

  /** The items of one subject, in order. */
  function OfSubject(items: seq<Item>, subject: string): seq<Item> {
    if items == [] then []
    else OfSubject(items[..|items| - 1], subject)
         + if items[|items| - 1].subject == subject then [items[|items| - 1]] else []
  }

  /** The subjects of a batch in the order of their first item. */
  function Subjects(items: seq<Item>): seq<string> {
    if items == [] then []
    else
      var before := Subjects(items[..|items| - 1]);
      if items[|items| - 1].subject in before then before else before + [items[|items| - 1].subject]
  }

  function Grouped(items: seq<Item>, order: seq<string>): seq<Message> {
    if order == [] then []
    else Grouped(items, order[..|order| - 1])
         + [Message(order[|order| - 1], OfSubject(items, order[|order| - 1]))]
  }

  /** The calls of the bus for one batch. */
  function Publications(items: seq<Item>): seq<Message> {
    Grouped(items, Subjects(items))
  }

  /** The calls of the bus for a whole flush. */
  function Drained(items: seq<Item>): seq<Message>
    decreases |items|
  {
    if items == [] then []
    else
      var n := if |items| > MAX_ITEMS then MAX_ITEMS else |items|;
      Publications(items[..n]) + Drained(items[n..])
  }

  lemma Regroup(a: seq<Message>, b: seq<Message>, c: seq<Message>)
    ensures (a + b) + c == a + (b + c)
  {
  }

  /** A flush publishes its first batch and then what is left. */
  lemma DrainedTurn(b: Buffer)
    requires b.pending != []
    ensures Drained(b.pending) == Publications(TakeBatch(b).1) + Drained(TakeBatch(b).0.pending)
    ensures TakeBatch(b).1 != [] && |TakeBatch(b).0.pending| < |b.pending|
  {
  }

  /** Everything handed to the bus under one subject, in the order it was handed over. */
  function HandedTo(messages: seq<Message>, subject: string): seq<Item> {
    if messages == [] then []
    else HandedTo(messages[..|messages| - 1], subject)
         + if messages[|messages| - 1].subject == subject then messages[|messages| - 1].items else []
  }

  // ------------------------------------------------ the class

  class Sink {
    var pending: array<Item>
    var len: nat
    var size: nat
    var dropped: nat
    var wake: bool
    var published: seq<Message>

    ghost predicate Valid()
      reads this, pending
    {
      len <= pending.Length && len <= MAX_PENDING && size == SizeOf(pending[..len])
    }

    ghost function View(): Buffer
      requires Valid()
      reads this, pending
    {
      Buffer(pending[..len], size, dropped)
    }

    /** The state as it is, the bound and the cached size not yet right. */
    ghost function Raw(): Buffer
      requires len <= pending.Length
      reads this, pending
    {
      Buffer(pending[..len], size, dropped)
    }

    constructor ()
      ensures Valid() && View() == Buffer([], 0, 0) && !wake && published == []
    {
      pending := new Item[0](_ => Item("", []));
      len, size, dropped, wake, published := 0, 0, 0, false, [];
    }

    /** `subject` and `body` are None when the request asks for no audit or the event does not encode. */
    method Add(subject: Option<string>, body: Option<Bytes>)
      requires Valid()
      modifies this, pending
      ensures Valid() && published == old(published)
      ensures View() == if subject.Some? && subject.value != "" && body.Some?
                        then AddItem(old(View()), Item(subject.value, body.value)) else old(View())
      ensures wake <==> old(wake) || (subject.Some? && subject.value != "" && body.Some?
                                      && (|View().pending| >= MAX_ITEMS || View().size >= MAX_SIZE))
    {
      if subject.None? || subject.value == "" || body.None? {
        return;
      }
      Put(Item(subject.value, body.value));
      if len >= MAX_ITEMS || size >= MAX_SIZE {
        wake := true;
      }
    }

    method Put(it: Item)
      requires Valid()
      modifies this`pending, this`len, this`size, this`dropped, pending
      ensures Valid() && View() == AddItem(old(View()), it)
    {
      SizeSnoc(View().pending, it);
      Append(it);
      DropExcess();
    }

    method Append(it: Item)
      requires len <= pending.Length
      modifies this`pending, this`len, this`size, pending
      ensures len <= pending.Length && (pending == old(pending) || fresh(pending))
      ensures Raw() == Buffer(old(Raw()).pending + [it], old(size) + |it.body| + 2, old(dropped))
    {
      if len == pending.Length {
        var grown := new Item[2 * len + 1](_ => it);
        for i := 0 to len
          invariant unchanged(this) && unchanged(pending)
          invariant grown[..i] == pending[..i]
        {
          grown[i] := pending[i];
        }
        pending := grown;
      }
      pending[len] := it;
      len := len + 1;
      size := size + |it.body| + 2;
    }

    method DropExcess()
      requires len <= pending.Length && Raw().size == SizeOf(Raw().pending)
      modifies this`len, this`size, this`dropped, pending
      ensures Valid() && pending == old(pending) && View() == Bounded(old(Raw()))
    {
      if len > MAX_PENDING {
        var cut := len - MAX_PENDING;
        dropped := dropped + cut;
        DropFront(cut);
        size := Measure();
      }
    }

    /** Moves the tail of the slice to its front, in place. */
    method DropFront(cut: nat)
      requires cut <= len <= pending.Length
      modifies this`len, pending
      ensures len == old(len) - cut && len <= pending.Length && pending[..len] == old(pending[..len])[cut..]
    {
      ghost var was := pending[..len];
      for i := 0 to len - cut
        invariant unchanged(this)
        invariant pending[..i] == was[cut..cut + i]
        invariant forall k :: i <= k < len ==> pending[k] == was[k]
      {
        assert pending[cut + i] == was[cut + i];
        pending[i] := pending[cut + i];
      }
      len := len - cut;
    }

    method Measure() returns (n: nat)
      requires len <= pending.Length
      ensures n == SizeOf(pending[..len])
    {
      n := 0;
      for i := 0 to len
        invariant n == SizeOf(pending[..i])
      {
        assert pending[..i + 1][..i] == pending[..i];
        n := n + |pending[i].body| + 2;
      }
    }

    /** One turn of the loop in flush, up to the release of the mutex. */
    method Take() returns (batch: seq<Item>)
      requires Valid()
      modifies this`len, this`size, pending
      ensures Valid() && (View(), batch) == TakeBatch(old(View()))
      ensures pending == old(pending)
      ensures batch + View().pending == old(View()).pending
      ensures |batch| <= MAX_ITEMS && (|batch| == MAX_ITEMS || View().pending == [])
    {
      var n := if len > MAX_ITEMS then MAX_ITEMS else len;
      batch := pending[..n];
      ghost var was := pending[..len];
      assert batch == was[..n];
      DropFront(n);
      size := Measure();
    }

    method Flush()
      requires Valid()
      modifies this`len, this`size, this`published, pending
      ensures Valid() && View() == Buffer([], 0, old(dropped))
      ensures published == old(published) + Drained(old(View()).pending)
    {
      while len > 0
        invariant Valid() && pending == old(pending) && dropped == old(dropped)
        invariant published + Drained(View().pending) == old(published) + Drained(old(View()).pending)
        decreases len
      {
        FlushOnce();
      }
    }

    /** One turn of the loop in flush. */
    method FlushOnce()
      requires Valid() && len > 0
      modifies this`len, this`size, this`published, pending
      ensures Valid() && pending == old(pending) && len < old(len)
      ensures published + Drained(View().pending) == old(published) + Drained(old(View()).pending)
    {
      ghost var b := View();
      ghost var done := published;
      var batch := Take();
      assert View() == TakeBatch(b).0;
      Publish(batch);
      assert View() == TakeBatch(b).0;
      DrainedTurn(b);
      Regroup(done, Publications(batch), Drained(TakeBatch(b).0.pending));
    }

    method Publish(items: seq<Item>)
      modifies this`published
      ensures published == old(published) + Publications(items)
    {
      if |items| == 1 {
        ShortcutAgrees(items);
        published := published + [Message(items[0].subject, items[..1])];
        return;
      }
      var order, bySubject := GroupBySubject(items);
      for i := 0 to |order|
        invariant published == old(published) + Grouped(items, order[..i])
      {
        assert order[..i + 1][..i] == order[..i];
        published := published + [Message(order[i], bySubject[order[i]])];
      }
      assert order[..|order|] == order;
    }
  }

  method GroupBySubject(items: seq<Item>) returns (order: seq<string>, bySubject: map<string, seq<Item>>)
    ensures order == Subjects(items)
    ensures bySubject.Keys == set s | s in order
    ensures forall s :: s in bySubject ==> bySubject[s] == OfSubject(items, s)
  {
    order, bySubject := [], map[];
    for i := 0 to |items|
      invariant order == Subjects(items[..i])
      invariant bySubject.Keys == set s | s in order
      invariant forall s :: s in bySubject ==> bySubject[s] == OfSubject(items[..i], s)
      invariant forall s :: s !in bySubject ==> OfSubject(items[..i], s) == []
    {
      assert items[..i + 1][..i] == items[..i];
      var s := items[i].subject;
      if s !in bySubject {
        order := order + [s];
        bySubject := bySubject[s := []];
      }
      bySubject := bySubject[s := bySubject[s] + [items[i]]];
    }
    assert items[..|items|] == items;
  }

  /** The shortcut for a batch of one makes the call the general path would make. */
  lemma ShortcutAgrees(items: seq<Item>)
    requires |items| == 1
    ensures Publications(items) == [Message(items[0].subject, items[..1])]
  {
    var x := items[0].subject;
    assert items[..0] == [] && items[..1] == items == [items[0]];
    assert Subjects(items) == [x];
    assert OfSubject(items, x) == [items[0]];
    assert [x][..0] == [];
    assert Grouped(items, [x]) == Grouped(items, []) + [Message(x, OfSubject(items, x))];
  }

  // ------------------------------------------------ grouping partitions a batch

  /** No subject twice, each at the place of its first item, and every subject of the batch. */
  lemma {:induction false} SubjectsInFirstAppearanceOrder(items: seq<Item>)
    ensures forall i, j :: 0 <= i < j < |Subjects(items)| ==> Subjects(items)[i] != Subjects(items)[j]
    ensures forall s :: s in Subjects(items) <==> exists k :: 0 <= k < |items| && items[k].subject == s
    ensures forall i, j, k :: 0 <= i < j < |Subjects(items)| && 0 <= k < |items| && items[k].subject == Subjects(items)[j] ==>
              exists f :: 0 <= f < k && items[f].subject == Subjects(items)[i]
  {
    if items != [] {
      var n := |items| - 1;
      SubjectsInFirstAppearanceOrder(items[..n]);
      var before := Subjects(items[..n]);
      forall s ensures s in Subjects(items) <==> exists k :: 0 <= k < |items| && items[k].subject == s {
        if k :| 0 <= k < |items| && items[k].subject == s {
          if k < n {
            assert items[..n][k].subject == s;
          }
        }
        if s in before {
          var k :| 0 <= k < n && items[..n][k].subject == s;
          assert items[k].subject == s;
        }
      }
      forall i, j, k | 0 <= i < j < |Subjects(items)| && 0 <= k < |items| && items[k].subject == Subjects(items)[j]
        ensures exists f :: 0 <= f < k && items[f].subject == Subjects(items)[i]
      {
        assert before[i] in before;
        if k < n {
          assert items[..n][k].subject == Subjects(items)[j];
          assert Subjects(items)[j] in before;
          assert j < |before|;
          var f :| 0 <= f < k && items[..n][f].subject == before[i];
          assert items[f].subject == Subjects(items)[i];
        } else {
          var f :| 0 <= f < n && items[..n][f].subject == before[i];
          assert items[f].subject == Subjects(items)[i];
        }
      }
    }
  }

  lemma {:induction false} HandedConcat(a: seq<Message>, b: seq<Message>, s: string)
    ensures HandedTo(a + b, s) == HandedTo(a, s) + HandedTo(b, s)
  {
    if b == [] {
      assert a + b == a;
    } else {
      var n := |b| - 1;
      assert (a + b)[..|a| + n] == a + b[..n];
      HandedConcat(a, b[..n], s);
    }
  }

  lemma {:induction false} OfSubjectConcat(a: seq<Item>, b: seq<Item>, s: string)
    ensures OfSubject(a + b, s) == OfSubject(a, s) + OfSubject(b, s)
  {
    if b == [] {
      assert a + b == a;
    } else {
      var n := |b| - 1;
      assert (a + b)[..|a| + n] == a + b[..n];
      OfSubjectConcat(a, b[..n], s);
    }
  }

  lemma HandedSnoc(a: seq<Message>, m: Message, s: string)
    ensures HandedTo(a + [m], s) == HandedTo(a, s) + if m.subject == s then m.items else []
  {
    assert (a + [m])[..|a|] == a;
  }

  /** No subject stands twice. */
  predicate Once(order: seq<string>) {
    order == [] || (order[|order| - 1] !in order[..|order| - 1] && Once(order[..|order| - 1]))
  }

  lemma {:induction false} DistinctIsOnce(order: seq<string>)
    requires forall i, j :: 0 <= i < j < |order| ==> order[i] != order[j]
    ensures Once(order)
  {
    if order != [] {
      DistinctIsOnce(order[..|order| - 1]);
    }
  }

  lemma InSnoc(order: seq<string>, x: string, s: string)
    ensures s in order + [x] <==> s in order || s == x
  {
  }

  lemma GroupedSnoc(items: seq<Item>, before: seq<string>, x: string, s: string)
    ensures HandedTo(Grouped(items, before + [x]), s)
         == HandedTo(Grouped(items, before), s) + if x == s then OfSubject(items, s) else []
  {
    assert (before + [x])[..|before|] == before;
    HandedSnoc(Grouped(items, before), Message(x, OfSubject(items, x)), s);
  }

  lemma {:induction false} GroupedHands(items: seq<Item>, order: seq<string>, s: string)
    requires Once(order)
    ensures HandedTo(Grouped(items, order), s) == if s in order then OfSubject(items, s) else []
  {
    if order != [] {
      var before, x := order[..|order| - 1], order[|order| - 1];
      assert order == before + [x];
      GroupedHands(items, before, s);
      GroupedSnoc(items, before, x, s);
      InSnoc(before, x, s);
    }
  }

  lemma {:induction false} NoneOfSubject(items: seq<Item>, s: string)
    requires forall k :: 0 <= k < |items| ==> items[k].subject != s
    ensures OfSubject(items, s) == []
  {
    if items != [] {
      NoneOfSubject(items[..|items| - 1], s);
    }
  }

  /** Publishing a batch hands every subject exactly its own items, in order. */
  lemma PublishPartitions(items: seq<Item>, s: string)
    ensures HandedTo(Publications(items), s) == OfSubject(items, s)
  {
    SubjectsInFirstAppearanceOrder(items);
    DistinctIsOnce(Subjects(items));
    GroupedHands(items, Subjects(items), s);
    if s !in Subjects(items) {
      NoneOfSubject(items, s);
    }
  }

  /** So does a whole flush, however many batches it takes. */
  lemma {:induction false} FlushPartitions(items: seq<Item>, s: string)
    ensures HandedTo(Drained(items), s) == OfSubject(items, s)
    decreases |items|
  {
    if items != [] {
      var n := if |items| > MAX_ITEMS then MAX_ITEMS else |items|;
      PublishPartitions(items[..n], s);
      FlushPartitions(items[n..], s);
      HandedConcat(Publications(items[..n]), Drained(items[n..]), s);
      OfSubjectConcat(items[..n], items[n..], s);
      assert items == items[..n] + items[n..];
    }
  }
}
