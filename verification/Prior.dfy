/** Asks from inspectors that ran earlier, and the scaling of a score by what they asked for. */
module Prior {

  const PERCENT_MIN := -100
  const PERCENT_MAX := 900

  const DO_SKIP := "skip"
  const DO_THRESHOLD := "threshold"
  const APPLY_REQUEST := "request"

  /** An action another inspector addressed to us. */
  datatype Action = Action(do: string, apply: string, code: string, delta: int, value: int) {
    function Scope(): string {
      if apply == "" then APPLY_REQUEST else apply
    }
  }

  datatype PriorVerdict = PriorVerdict(inspector: string, actions: seq<Action>)

  datatype PriorRule = PriorRule(from: string, accept: seq<string>, apply: seq<string>, codes: seq<string>)

  datatype ActionOutcome = ActionOutcome(from: string, act: Action, took: int, applied: bool)

  datatype Ask = Ask(skip: bool, percent: int, outcomes: seq<ActionOutcome>)

  /** The rule lets this action of this sender through. */
  predicate Admits(r: PriorRule, from: string, act: Action) {
    && r.from == from
    && act.do in r.accept
    && (r.apply == [] || act.Scope() in r.apply)
    && (r.codes == [] || act.code in r.codes)
  }

  // ------------------------------------------------ sums

  function Sum<T>(f: T -> int, s: seq<T>): int {
    if s == [] then 0 else Sum(f, s[..|s| - 1]) + f(s[|s| - 1])
  }

  lemma {:induction false} SumConcat<T>(f: T -> int, a: seq<T>, b: seq<T>)
    ensures Sum(f, a + b) == Sum(f, a) + Sum(f, b)
  {
    if b == [] {
      assert a + b == a;
    } else {
      var n := |b| - 1;
      assert (a + b)[..|a| + n] == a + b[..n];
      SumConcat(f, a, b[..n]);
    }
  }

  lemma SumOne<T>(f: T -> int, x: T)
    ensures Sum(f, [x]) == f(x)
  {
    assert [x][..0] == [];
    assert Sum(f, [x][..0]) == 0;
  }

  /** A sum does not depend on the order of its terms. */
  lemma {:induction false} SumPermutes<T>(f: T -> int, a: seq<T>, b: seq<T>)
    requires multiset(a) == multiset(b)
    ensures Sum(f, a) == Sum(f, b)
    decreases |a|
  {
    if a == [] {
      assert multiset(b) == multiset{};
      assert b == [] by {
        assert |b| == |multiset(b)|;
      }
    } else {
      var n := |a| - 1;
      var x := a[n];
      assert a == a[..n] + [x];
      assert x in multiset(b);
      var i :| 0 <= i < |b| && b[i] == x;
      assert b == b[..i] + [x] + b[i + 1..];
      assert multiset(a[..n]) == multiset(a) - multiset{x};
      assert multiset(b[..i] + b[i + 1..]) == multiset(b) - multiset{x};
      SumPermutes(f, a[..n], b[..i] + b[i + 1..]);
      SumConcat(f, b[..i], b[i + 1..]);
      SumConcat(f, b[..i], [x]);
      SumConcat(f, b[..i] + [x], b[i + 1..]);
      SumOne(f, x);
    }
  }

  // ------------------------------------------------ what an ask comes to

  function RuleDelta(from: string, act: Action): PriorRule -> int {
    (r: PriorRule) => if Admits(r, from, act) && act.do == DO_THRESHOLD then act.delta else 0
  }

  function ActionDelta(from: string, rules: seq<PriorRule>): Action -> int {
    (act: Action) => Sum(RuleDelta(from, act), rules)
  }

  function EntryDelta(rules: seq<PriorRule>): PriorVerdict -> int {
    (v: PriorVerdict) => Sum(ActionDelta(v.inspector, rules), v.actions)
  }

  /** The threshold deltas of all admitted actions, once for every rule that admits them. */
  function RawPercent(entries: seq<PriorVerdict>, rules: seq<PriorRule>): int {
    Sum(EntryDelta(rules), entries)
  }

  function Clamp(n: int): int {
    if n < PERCENT_MIN then PERCENT_MIN else if n > PERCENT_MAX then PERCENT_MAX else n
  }

  /** Some sender asks to be skipped and some rule lets it. */
  ghost predicate SkipAsked(entries: seq<PriorVerdict>, rules: seq<PriorRule>) {
    exists v, act, r :: v in entries && act in v.actions && r in rules && SkipsBy(v, act, r)
  }

  predicate SkipsBy(v: PriorVerdict, act: Action, r: PriorRule) {
    act.do == DO_SKIP && Admits(r, v.inspector, act)
  }

  predicate Applies(r: PriorRule, from: string, act: Action) {
    Admits(r, from, act) && (act.do == DO_SKIP || act.do == DO_THRESHOLD)
  }

  function OutcomeOf(from: string, rules: seq<PriorRule>, act: Action): ActionOutcome {
    ActionOutcome(from, act, Sum(RuleDelta(from, act), rules), exists r :: r in rules && Applies(r, from, act))
  }

  function ActionOutcomes(from: string, acts: seq<Action>, rules: seq<PriorRule>): seq<ActionOutcome> {
    seq(|acts|, i requires 0 <= i < |acts| => OutcomeOf(from, rules, acts[i]))
  }

  /** One outcome per action, in the order they came. */
  function Outcomes(entries: seq<PriorVerdict>, rules: seq<PriorRule>): seq<ActionOutcome> {
    if entries == [] then []
    else
      var v := entries[|entries| - 1];
      Outcomes(entries[..|entries| - 1], rules) + ActionOutcomes(v.inspector, v.actions, rules)
  }

  function TookSum(outcomes: seq<ActionOutcome>): int {
    if outcomes == [] then 0 else TookSum(outcomes[..|outcomes| - 1]) + outcomes[|outcomes| - 1].took
  }

  // ------------------------------------------------ the loops

  /** One action against all rules; the accumulator is the ask so far. */
  method Deliver(a: Ask, from: string, act: Action, rules: seq<PriorRule>) returns (a': Ask)
    ensures a'.percent == a.percent + Sum(RuleDelta(from, act), rules)
    ensures a'.skip <==> a.skip || exists r :: r in rules && act.do == DO_SKIP && Admits(r, from, act)
    ensures a'.outcomes == a.outcomes + [OutcomeOf(from, rules, act)]
  {
    var skip, percent := a.skip, a.percent;
    var took, applied := 0, false;
    for i := 0 to |rules|
      invariant took == Sum(RuleDelta(from, act), rules[..i]) && percent == a.percent + took
      invariant applied <==> exists k :: 0 <= k < i && Applies(rules[k], from, act)
      invariant skip <==> a.skip || exists k :: 0 <= k < i && act.do == DO_SKIP && Admits(rules[k], from, act)
    {
      var r := rules[i];
      assert rules[..i + 1][..i] == rules[..i];
      if r.from != from {
        continue;
      }
      if act.do !in r.accept || !(r.apply == [] || act.Scope() in r.apply) || !(r.codes == [] || act.code in r.codes) {
        continue;
      }
      if act.do == DO_SKIP {
        skip, applied := true, true;
      } else if act.do == DO_THRESHOLD {
        percent, took, applied := percent + act.delta, took + act.delta, true;
      }
    }
    assert rules[..|rules|] == rules;
    a' := Ask(skip, percent, a.outcomes + [ActionOutcome(from, act, took, applied)]);
  }

  method DeliverAll(a: Ask, v: PriorVerdict, rules: seq<PriorRule>) returns (a': Ask)
    ensures a'.percent == a.percent + Sum(ActionDelta(v.inspector, rules), v.actions)
    ensures a'.skip <==> a.skip || exists act, r :: act in v.actions && r in rules && SkipsBy(v, act, r)
    ensures a'.outcomes == a.outcomes + ActionOutcomes(v.inspector, v.actions, rules)
  {
    a' := a;
    for i := 0 to |v.actions|
      invariant a'.percent == a.percent + Sum(ActionDelta(v.inspector, rules), v.actions[..i])
      invariant a'.skip <==> a.skip || exists k, r :: 0 <= k < i && r in rules && SkipsBy(v, v.actions[k], r)
      invariant a'.outcomes == a.outcomes + ActionOutcomes(v.inspector, v.actions[..i], rules)
    {
      assert v.actions[..i + 1][..i] == v.actions[..i];
      a' := Deliver(a', v.inspector, v.actions[i], rules);
      assert ActionOutcomes(v.inspector, v.actions[..i + 1], rules)
          == ActionOutcomes(v.inspector, v.actions[..i], rules) + [OutcomeOf(v.inspector, rules, v.actions[i])];
    }
    assert v.actions[..|v.actions|] == v.actions;
  }

  method EvaluatePrior(entries: seq<PriorVerdict>, rules: seq<PriorRule>) returns (a: Ask)
    ensures a.percent == Clamp(RawPercent(entries, rules))
    ensures a.skip <==> SkipAsked(entries, rules)
    ensures a.outcomes == Outcomes(entries, rules)
  {
    a := Ask(false, 0, []);
    for i := 0 to |entries|
      invariant a.percent == RawPercent(entries[..i], rules)
      invariant a.skip <==> SkipAsked(entries[..i], rules)
      invariant a.outcomes == Outcomes(entries[..i], rules)
    {
      assert entries[..i + 1][..i] == entries[..i];
      assert forall v :: v in entries[..i + 1] <==> v in entries[..i] || v == entries[i];
      a := DeliverAll(a, entries[i], rules);
    }
    assert entries[..|entries|] == entries;
    a := a.(percent := Clamp(a.percent));
  }

  // ------------------------------------------------ properties

  lemma {:induction false} TookSumConcat(a: seq<ActionOutcome>, b: seq<ActionOutcome>)
    ensures TookSum(a + b) == TookSum(a) + TookSum(b)
  {
    if b == [] {
      assert a + b == a;
    } else {
      var n := |b| - 1;
      assert (a + b)[..|a| + n] == a + b[..n];
      TookSumConcat(a, b[..n]);
    }
  }

  lemma {:induction false} TookOfActions(from: string, acts: seq<Action>, rules: seq<PriorRule>)
    ensures TookSum(ActionOutcomes(from, acts, rules)) == Sum(ActionDelta(from, rules), acts)
  {
    if acts != [] {
      var n := |acts| - 1;
      TookOfActions(from, acts[..n], rules);
      assert ActionOutcomes(from, acts, rules)[..n] == ActionOutcomes(from, acts[..n], rules);
    }
  }

  /** The Took fields account for the whole percentage before it is clamped. */
  lemma {:induction false} TookAddsUp(entries: seq<PriorVerdict>, rules: seq<PriorRule>)
    ensures TookSum(Outcomes(entries, rules)) == RawPercent(entries, rules)
  {
    if entries != [] {
      var n := |entries| - 1;
      TookAddsUp(entries[..n], rules);
      TookOfActions(entries[n].inspector, entries[n].actions, rules);
      TookSumConcat(Outcomes(entries[..n], rules), ActionOutcomes(entries[n].inspector, entries[n].actions, rules));
    }
  }

  lemma {:induction false} SumEqual<T>(f: T -> int, g: T -> int, s: seq<T>)
    requires forall k :: 0 <= k < |s| ==> f(s[k]) == g(s[k])
    ensures Sum(f, s) == Sum(g, s)
  {
    if s != [] {
      SumEqual(f, g, s[..|s| - 1]);
    }
  }

  /** What is asked for depends neither on the order of the senders nor on the order of the rules. */
  lemma OrderDoesNotMatter(entries: seq<PriorVerdict>, entries': seq<PriorVerdict>,
                           rules: seq<PriorRule>, rules': seq<PriorRule>)
    requires multiset(entries) == multiset(entries') && multiset(rules) == multiset(rules')
    ensures RawPercent(entries, rules) == RawPercent(entries', rules')
    ensures SkipAsked(entries, rules) <==> SkipAsked(entries', rules')
  {
    SumPermutes(EntryDelta(rules), entries, entries');
    forall k | 0 <= k < |entries'| ensures EntryDelta(rules)(entries'[k]) == EntryDelta(rules')(entries'[k]) {
      var v := entries'[k];
      forall j | 0 <= j < |v.actions|
        ensures ActionDelta(v.inspector, rules)(v.actions[j]) == ActionDelta(v.inspector, rules')(v.actions[j])
      {
        SumPermutes(RuleDelta(v.inspector, v.actions[j]), rules, rules');
      }
      SumEqual(ActionDelta(v.inspector, rules), ActionDelta(v.inspector, rules'), v.actions);
    }
    SumEqual(EntryDelta(rules), EntryDelta(rules'), entries');
    forall v ensures v in entries <==> v in entries' {
      assert v in entries <==> v in multiset(entries);
    }
    forall r ensures r in rules <==> r in rules' {
      assert r in rules <==> r in multiset(rules);
    }
  }

  // ------------------------------------------------ one by one

  /** A rule lets an action of a sender through: it names the sender, accepts the verb, and where it lists axes or codes
      the action's are among them. An action without an axis is about the request. */
  predicate LetsThrough(r: PriorRule, from: string, act: Action) {
    && r.from == from && act.do in r.accept
    && (|r.apply| == 0 || (if act.apply == "" then "request" else act.apply) in r.apply)
    && (|r.codes| == 0 || act.code in r.codes)
  }

  /** One action under one rule: a threshold that is let through adds its delta, a skip asks to skip. */
  lemma OneAskOneRule(from: string, act: Action, r: PriorRule)
    ensures RawPercent([PriorVerdict(from, [act])], [r])
         == if LetsThrough(r, from, act) && act.do == "threshold" then act.delta else 0
    ensures SkipAsked([PriorVerdict(from, [act])], [r]) <==> LetsThrough(r, from, act) && act.do == "skip"
  {
    var v := PriorVerdict(from, [act]);
    SumOne(RuleDelta(from, act), r);
    SumOne(ActionDelta(from, [r]), act);
    SumOne(EntryDelta([r]), v);
    assert v in [v] && act in v.actions && r in [r];
    assert SkipsBy(v, act, r) <==> LetsThrough(r, from, act) && act.do == "skip";
  }

  lemma {:induction false} SumAdds<T>(f: T -> int, g: T -> int, h: T -> int, s: seq<T>)
    requires forall k :: 0 <= k < |s| ==> h(s[k]) == f(s[k]) + g(s[k])
    ensures Sum(h, s) == Sum(f, s) + Sum(g, s)
  {
    if s != [] {
      SumAdds(f, g, h, s[..|s| - 1]);
    }
  }

  /** Nothing else matters: entries, the actions of an entry, and rules each count on their own. */
  lemma AsksAddUp(entries: seq<PriorVerdict>, entries': seq<PriorVerdict>, rules: seq<PriorRule>, rules': seq<PriorRule>,
                  from: string, acts: seq<Action>, acts': seq<Action>)
    ensures RawPercent(entries + entries', rules) == RawPercent(entries, rules) + RawPercent(entries', rules)
    ensures RawPercent([PriorVerdict(from, acts + acts')], rules)
         == RawPercent([PriorVerdict(from, acts)], rules) + RawPercent([PriorVerdict(from, acts')], rules)
    ensures RawPercent(entries, rules + rules') == RawPercent(entries, rules) + RawPercent(entries, rules')
    ensures RawPercent([], rules) == RawPercent(entries, []) == 0
  {
    SumConcat(EntryDelta(rules), entries, entries');
    SumConcat(ActionDelta(from, rules), acts, acts');
    SumOne(EntryDelta(rules), PriorVerdict(from, acts));
    SumOne(EntryDelta(rules), PriorVerdict(from, acts'));
    SumOne(EntryDelta(rules), PriorVerdict(from, acts + acts'));
    RulesAddUp(entries, rules, rules');
    var none: seq<PriorRule> := [];
    assert none + none == none;
    RulesAddUp(entries, none, none);
  }

  lemma RulesAddUp(entries: seq<PriorVerdict>, rules: seq<PriorRule>, rules': seq<PriorRule>)
    ensures RawPercent(entries, rules + rules') == RawPercent(entries, rules) + RawPercent(entries, rules')
  {
    forall k | 0 <= k < |entries|
      ensures EntryDelta(rules + rules')(entries[k]) == EntryDelta(rules)(entries[k]) + EntryDelta(rules')(entries[k])
    {
      var v := entries[k];
      forall j | 0 <= j < |v.actions|
        ensures ActionDelta(v.inspector, rules + rules')(v.actions[j])
             == ActionDelta(v.inspector, rules)(v.actions[j]) + ActionDelta(v.inspector, rules')(v.actions[j])
      {
        SumConcat(RuleDelta(v.inspector, v.actions[j]), rules, rules');
      }
      SumAdds(ActionDelta(v.inspector, rules), ActionDelta(v.inspector, rules'), ActionDelta(v.inspector, rules + rules'), v.actions);
    }
    SumAdds(EntryDelta(rules), EntryDelta(rules'), EntryDelta(rules + rules'), entries);
  }

  /** A skip is asked for exactly when some sender's action asks for it and some rule lets that through. */
  lemma SkipIsAskedExactly(entries: seq<PriorVerdict>, rules: seq<PriorRule>)
    ensures SkipAsked(entries, rules) <==>
      exists v, act, r :: v in entries && act in v.actions && r in rules && LetsThrough(r, v.inspector, act) && act.do == "skip"
  {
    assert forall v, act, r :: SkipsBy(v, act, r) <==> LetsThrough(r, v.inspector, act) && act.do == "skip";
  }

  /** The outcome of an action says who sent it, what it was, what it took by itself, and whether any rule applied it. */
  lemma OutcomeSays(from: string, rules: seq<PriorRule>, act: Action)
    ensures var o := OutcomeOf(from, rules, act);
      && o.from == from && o.act == act && o.took == RawPercent([PriorVerdict(from, [act])], rules)
      && (o.applied <==> (act.do == "skip" || act.do == "threshold") && exists r :: r in rules && LetsThrough(r, from, act))
  {
    SumOne(ActionDelta(from, rules), act);
    SumOne(EntryDelta(rules), PriorVerdict(from, [act]));
    assert forall r :: Applies(r, from, act) <==> LetsThrough(r, from, act) && (act.do == "skip" || act.do == "threshold");
  }

  // ------------------------------------------------ scaling

  /** `up` decides the half-way cases, where the rounding of the binary product may go either way. */
  function ScaleScore(up: (int, int) -> bool, score: int, percent: int): int {
    if percent == 0 || score <= 0 then if score > 0 then score else 0
    else
      var scaled := Round(score * (100 + percent), up(score, percent));
      if scaled < 0 then 0 else if scaled > 100 then 100 else scaled
  }

  /** The nearest integer to n/100. */
  function Round(n: int, up: bool): (r: int)
    ensures -50 <= 100 * r - n <= 50
  {
    var q := n / 100;
    var rest := n % 100;
    if rest > 50 || (rest == 50 && up) then q + 1 else q
  }

  /** A hundredfold score brought back into 0..100. */
  function Capped(n: int, up: bool): (r: int)
    requires n >= 0
    ensures 0 <= r <= 100
    ensures n <= 10000 ==> -50 <= 100 * r - n <= 50
    ensures n > 10000 ==> r == 100
  {
    var r := Round(n, up);
    if r > 100 then 100 else r
  }

  lemma CappedGrows(n: int, up: bool, n': int, up': bool)
    requires 0 <= n < n' || (0 <= n == n' && up == up')
    ensures Capped(n, up) <= Capped(n', up')
  {
  }

  /** Both ways through ScaleScore are the capped product. */
  lemma ScaleIsCapped(up: (int, int) -> bool, score: int, percent: int)
    requires 0 <= score <= 100 && PERCENT_MIN <= percent <= PERCENT_MAX
    ensures score * (100 + percent) >= 0
    ensures ScaleScore(up, score, percent) == Capped(score * (100 + percent), up(score, percent))
  {
    if score == 0 {
      assert score * (100 + percent) == 0;
    } else if percent == 0 {
      assert score * (100 + percent) == 100 * score;
    } else {
      NonNegProduct(score, 100 + percent);
    }
  }

  lemma NonNegProduct(a: int, b: int)
    requires a >= 0 && b >= 0
    ensures a * b >= 0
  {
  }

  /** Scaling stays in range and, below the cap, is within one half of the exact product. */
  lemma ScaleIsNearest(up: (int, int) -> bool, score: int, percent: int)
    requires 0 <= score <= 100 && PERCENT_MIN <= percent <= PERCENT_MAX
    ensures var r, x := ScaleScore(up, score, percent), score * (100 + percent);
      && 0 <= r <= 100
      && (x <= 10000 ==> -50 <= 100 * r - x <= 50)
      && (x > 10000 ==> r == 100)
  {
    ScaleIsCapped(up, score, percent);
  }

  /** A higher score or a higher percentage never scales to less. */
  lemma ScaleIsMonotone(up: (int, int) -> bool, s: int, p: int, s': int, p': int)
    requires 0 <= s <= s' <= 100 && PERCENT_MIN <= p <= p' <= PERCENT_MAX
    ensures ScaleScore(up, s, p) <= ScaleScore(up, s', p')
  {
    ScaleIsCapped(up, s, p);
    ScaleIsCapped(up, s', p');
    if s * (100 + p) == 0 {
      assert Capped(0, up(s, p)) == 0;
    } else if s != s' || p != p' {
      ProductGrows(s, 100 + p, s', 100 + p');
      CappedGrows(s * (100 + p), up(s, p), s' * (100 + p'), up(s', p'));
    }
  }

  lemma ProductGrows(a: int, b: int, a': int, b': int)
    requires 0 <= a <= a' && 0 <= b <= b' && a * b != 0 && (a != a' || b != b')
    ensures 0 <= a * b < a' * b'
  {
    if a < a' {
      assert a * b < a' * b;
      assert a' * b <= a' * b';
    } else {
      assert a * b < a * b';
    }
  }
}
