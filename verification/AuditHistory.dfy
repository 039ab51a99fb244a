/** Whole runs of the audit sink: any interleaving of Add with the flusher's turns. */
module AuditHistory {
  import opened Seqs
  import opened AuditSink

  datatype Event = Added(it: Item) | Taken

  /** How an item left the buffer. */
  datatype Gone = Lost(it: Item) | Sent(it: Item)

  /** The buffer, everything ever added, everything that has left it in the order it left,
      and the calls of the bus. */
  datatype History = History(buf: Buffer, added: seq<Item>, gone: seq<Gone>, calls: seq<Message>)

  function All(items: seq<Item>, sent: bool): seq<Gone> {
    seq(|items|, i requires 0 <= i < |items| => if sent then Sent(items[i]) else Lost(items[i]))
  }

  function Step(h: History, e: Event): History {
    match e
    case Added(it) =>
      var b := AddItem(h.buf, it);
      var p := h.buf.pending + [it];
      var cut := if |p| > MAX_PENDING then |p| - MAX_PENDING else 0;
      History(b, h.added + [it], h.gone + All(p[..cut], false), h.calls)
    case Taken =>
      var (b, batch) := TakeBatch(h.buf);
      History(b, h.added, h.gone + All(batch, true), h.calls + Publications(batch))
  }

  function Replay(events: seq<Event>): History {
    if events == [] then History(Buffer([], 0, 0), [], [], [])
    else Step(Replay(events[..|events| - 1]), events[|events| - 1])
  }

  function Items(gone: seq<Gone>): (items: seq<Item>)
    ensures |items| == |gone|
  {
    seq(|gone|, i requires 0 <= i < |gone| => gone[i].it)
  }

  /** What went to the bus, in order. */
  function SentItems(gone: seq<Gone>): seq<Item> {
    if gone == [] then []
    else SentItems(gone[..|gone| - 1]) + if gone[|gone| - 1].Sent? then [gone[|gone| - 1].it] else []
  }

  lemma {:induction false} SentConcat(a: seq<Gone>, b: seq<Gone>)
    ensures SentItems(a + b) == SentItems(a) + SentItems(b)
  {
    if b == [] {
      assert a + b == a;
    } else {
      var n := |b| - 1;
      assert (a + b)[..|a| + n] == a + b[..n];
      SentConcat(a, b[..n]);
    }
  }

  lemma {:induction false} SentAll(items: seq<Item>, sent: bool)
    ensures SentItems(All(items, sent)) == if sent then items else []
  {
    if items != [] {
      var n := |items| - 1;
      SentAll(items[..n], sent);
      assert All(items, sent)[..n] == All(items[..n], sent);
    }
  }

  lemma {:induction false} SentSubseq(gone: seq<Gone>)
    ensures Subseq(SentItems(gone), Items(gone))
  {
    if gone != [] {
      var n := |gone| - 1;
      SentSubseq(gone[..n]);
      assert Items(gone) == Items(gone[..n]) + [gone[n].it];
      if gone[n].Sent? {
        SubseqSnoc(SentItems(gone[..n]), Items(gone[..n]), gone[n].it);
      } else {
        assert SentItems(gone) == SentItems(gone[..n]);
        SubseqGrow(SentItems(gone[..n]), Items(gone[..n]), gone[n].it);
      }
    }
  }

  // ------------------------------------------------ the invariant of every run

  ghost predicate Sound(h: History) {
    && |h.buf.pending| <= MAX_PENDING
    && h.buf.size == SizeOf(h.buf.pending)
    && Items(h.gone) + h.buf.pending == h.added
    && |h.gone| == |SentItems(h.gone)| + h.buf.dropped
    && (forall s :: HandedTo(h.calls, s) == OfSubject(SentItems(h.gone), s))
  }

  lemma AddKeepsSound(h: History, it: Item)
    requires Sound(h)
    ensures Sound(Step(h, Added(it)))
  {
    var h' := Step(h, Added(it));
    var p := h.buf.pending + [it];
    var cut := if |p| > MAX_PENDING then |p| - MAX_PENDING else 0;
    SizeSnoc(h.buf.pending, it);
    SentConcat(h.gone, All(p[..cut], false));
    SentAll(p[..cut], false);
    ItemsGrow(h.gone, p[..cut], false);
    assert h'.buf.pending == p[cut..];
    assert Items(h'.gone) + h'.buf.pending == Items(h.gone) + p;
    assert Items(h.gone) + p == (Items(h.gone) + h.buf.pending) + [it];
    assert SentItems(h'.gone) == SentItems(h.gone);
  }

  lemma ItemsGrow(gone: seq<Gone>, items: seq<Item>, sent: bool)
    ensures Items(gone + All(items, sent)) == Items(gone) + items
  {
  }

  lemma TakeKeepsItems(h: History)
    requires Sound(h)
    ensures var h' := Step(h, Taken); var batch := TakeBatch(h.buf).1;
      && Items(h'.gone) + h'.buf.pending == h'.added
      && SentItems(h'.gone) == SentItems(h.gone) + batch && |h'.gone| == |h.gone| + |batch|
  {
    var (b, batch) := TakeBatch(h.buf);
    SentConcat(h.gone, All(batch, true));
    SentAll(batch, true);
    ItemsGrow(h.gone, batch, true);
    assert batch + b.pending == h.buf.pending;
    assert Items(h.gone) + batch + b.pending == Items(h.gone) + h.buf.pending;
  }

  /** Publishing a batch hands every subject its items of the batch, in order. */
  lemma {:induction false} BatchHands(calls: seq<Message>, sent: seq<Item>, batch: seq<Item>, s: string)
    requires HandedTo(calls, s) == OfSubject(sent, s)
    ensures HandedTo(calls + Publications(batch), s) == OfSubject(sent + batch, s)
  {
    HandedConcat(calls, Publications(batch), s);
    PublishPartitions(batch, s);
    OfSubjectConcat(sent, batch, s);
  }

  lemma TakeKeepsSound(h: History)
    requires Sound(h)
    ensures Sound(Step(h, Taken))
  {
    TakeKeepsItems(h);
    forall s ensures HandedTo(Step(h, Taken).calls, s) == OfSubject(SentItems(Step(h, Taken).gone), s) {
      BatchHands(h.calls, SentItems(h.gone), TakeBatch(h.buf).1, s);
    }
  }

  /** In every run: the buffer is exactly the suffix of what was added that has not left yet, items leave from
      the front only, added = sent + dropped + pending, the cached size is the size of the buffer, the buffer
      respects its bound, and every subject was handed exactly its sent items in the order they were added. */
  lemma {:induction false} EveryRunIsSound(events: seq<Event>)
    ensures Sound(Replay(events))
  {
    if events != [] {
      var n := |events| - 1;
      EveryRunIsSound(events[..n]);
      match events[n]
      case Added(it) => AddKeepsSound(Replay(events[..n]), it);
      case Taken => TakeKeepsSound(Replay(events[..n]));
    }
  }

  lemma NothingIsLostUncounted(events: seq<Event>)
    ensures var h := Replay(events);
      |h.added| == |SentItems(h.gone)| + h.buf.dropped + |h.buf.pending|
  {
    EveryRunIsSound(events);
  }

  lemma {:induction false} OfSubjectSubseq(a: seq<Item>, b: seq<Item>, s: string)
    requires Subseq(a, b)
    ensures Subseq(OfSubject(a, s), OfSubject(b, s))
    decreases |b|
  {
    if a == [] {
    } else if a[|a| - 1] == b[|b| - 1] {
      var x := b[|b| - 1];
      var a', b' := a[..|a| - 1], b[..|b| - 1];
      OfSubjectSubseq(a', b', s);
      if x.subject == s {
        SubseqSnoc(OfSubject(a', s), OfSubject(b', s), x);
      } else {
        assert OfSubject(a, s) == OfSubject(a', s) && OfSubject(b, s) == OfSubject(b', s);
      }
    } else {
      var x, b' := b[|b| - 1], b[..|b| - 1];
      OfSubjectSubseq(a, b', s);
      if x.subject == s {
        SubseqGrow(OfSubject(a, s), OfSubject(b', s), x);
      } else {
        assert OfSubject(b, s) == OfSubject(b', s);
      }
    }
  }

  /** The events handed over for a subject are a subsequence of those added for it. */
  lemma SubjectOrderIsKept(events: seq<Event>, s: string)
    ensures var h := Replay(events); Subseq(HandedTo(h.calls, s), OfSubject(h.added, s))
  {
    var h := Replay(events);
    EveryRunIsSound(events);
    SentSubseq(h.gone);
    SubseqPrefix(SentItems(h.gone), Items(h.gone), h.buf.pending);
    OfSubjectSubseq(SentItems(h.gone), h.added, s);
  }

  /** Every call carries between one and MAX_ITEMS items, all of the subject it names. */
  ghost predicate WellFormed(m: Message) {
    && 1 <= |m.items| <= MAX_ITEMS
    && forall k :: 0 <= k < |m.items| ==> m.items[k].subject == m.subject
  }

  lemma {:induction false} OfSubjectFacts(items: seq<Item>, s: string)
    ensures |OfSubject(items, s)| <= |items|
    ensures forall k :: 0 <= k < |OfSubject(items, s)| ==> OfSubject(items, s)[k].subject == s
    ensures (exists k :: 0 <= k < |items| && items[k].subject == s) ==> OfSubject(items, s) != []
  {
    if items != [] {
      var n := |items| - 1;
      OfSubjectFacts(items[..n], s);
      if items[n].subject != s {
        if k :| 0 <= k < |items| && items[k].subject == s {
          assert items[..n][k].subject == s;
        }
      }
    }
  }

  lemma {:induction false} GroupedWellFormed(items: seq<Item>, order: seq<string>)
    requires |items| <= MAX_ITEMS
    requires forall s :: s in order ==> exists k :: 0 <= k < |items| && items[k].subject == s
    ensures forall m :: m in Grouped(items, order) ==> WellFormed(m)
  {
    if order != [] {
      var n := |order| - 1;
      assert forall s :: s in order[..n] ==> s in order;
      GroupedWellFormed(items, order[..n]);
      assert order[n] in order;
      OfSubjectFacts(items, order[n]);
    }
  }

  lemma {:induction false} CallsAreWellFormed(events: seq<Event>)
    ensures forall m :: m in Replay(events).calls ==> WellFormed(m)
  {
    if events != [] {
      var n := |events| - 1;
      CallsAreWellFormed(events[..n]);
      if events[n].Taken? {
        var batch := TakeBatch(Replay(events[..n]).buf).1;
        SubjectsInFirstAppearanceOrder(batch);
        GroupedWellFormed(batch, Subjects(batch));
      }
    }
  }
}
