/**
 A profile's policy: the rule tables of its phases, what a rule makes of an outcome in enforce
 and in observe mode, and the outcomes a verdict fires.
 */
module Policy {
  import opened Basics
  import opened Text

  const ENFORCE := "enforce"
  const OBSERVE := "observe"
  const OFF := "off"

  const ACTION_DENY := "deny"
  const ACTION_SCORE := "score"
  const ACTION_ALLOW := "allow"

  const ON_OVERLOAD := "overload"
  const AT_MIN := 25
  const AT_MAX := 100
  const MARKER_MAX := 128

  const CODE_OBSERVE := "JSON_OBSERVE"

  /** What validating a message comes to. */
  datatype Kind =
    | Ok | Mismatch | TooDeep | Unparsable | Truncated | TooLarge | UnknownOperation
    | ContentType | Status | BodyUnavailable | ArgsUnavailable | Opcode

  /** The keys of the rule tables. */
  datatype Key =
    | KInvalid | KUnparsable | KTruncated | KUnknownOperation | KContentType | KUnavailable | KStatus | KOpcode

  datatype Rule = Rule(action: string, score: int)

  datatype RequestRules = RequestRules(
    invalid: Rule, unparsable: Rule, truncated: Rule, unknownOperation: Rule, contentType: Rule, unavailable: Rule)

  datatype ResponseRules = ResponseRules(base: RequestRules, status: Rule)

  datatype FrameRules = FrameRules(
    invalid: Rule, unparsable: Rule, truncated: Rule, unknownOperation: Rule, opcode: Rule, unavailable: Rule)

  datatype NamedRule = NamedRule(key: Key, rule: Rule)

  function RequestTable(r: RequestRules): seq<NamedRule> {
    [NamedRule(KInvalid, r.invalid), NamedRule(KUnparsable, r.unparsable), NamedRule(KTruncated, r.truncated),
     NamedRule(KUnknownOperation, r.unknownOperation), NamedRule(KContentType, r.contentType),
     NamedRule(KUnavailable, r.unavailable)]
  }

  function ResponseTable(r: ResponseRules): seq<NamedRule> {
    RequestTable(r.base) + [NamedRule(KStatus, r.status)]
  }

  function FrameTable(r: FrameRules): seq<NamedRule> {
    [NamedRule(KInvalid, r.invalid), NamedRule(KUnparsable, r.unparsable), NamedRule(KTruncated, r.truncated),
     NamedRule(KUnknownOperation, r.unknownOperation), NamedRule(KOpcode, r.opcode),
     NamedRule(KUnavailable, r.unavailable)]
  }

  predicate GoodRule(r: Rule) {
    r.action in [ACTION_DENY, ACTION_SCORE, ACTION_ALLOW] && 0 <= r.score <= 100
  }

  /** validateRules: every action known, every score in range, and a named response if anything denies. */
  method ValidateRules(table: seq<NamedRule>, denyResponse: string) returns (ok: bool)
    ensures ok <==> GoodTable(table, denyResponse)
  {
    var denies := false;
    for i := 0 to |table|
      invariant forall k :: 0 <= k < i ==> GoodRule(table[k].rule)
      invariant denies <==> exists k :: 0 <= k < i && table[k].rule.action == ACTION_DENY
    {
      var r := table[i].rule;
      if r.action != ACTION_DENY && r.action != ACTION_SCORE && r.action != ACTION_ALLOW {
        return false;
      }
      if r.score < 0 || r.score > 100 {
        return false;
      }
      if r.action == ACTION_DENY {
        denies := true;
      }
    }
    return !denies || denyResponse != "";
  }

  predicate GoodTable(table: seq<NamedRule>, denyResponse: string) {
    && (forall k :: 0 <= k < |table| ==> GoodRule(table[k].rule))
    && ((exists k :: 0 <= k < |table| && table[k].rule.action == ACTION_DENY) ==> denyResponse != "")
  }

  // ------------------------------------------------ outcomes

  datatype Outcome = Outcome(
    on: string, at: Option<int>, below: bool, eq: bool,
    to: string, do: string, apply: string, phase: string, delta: Option<int>, value: Option<int>,
    counter: string, group: string, switch: string, marker: string,
    headers: Option<ObjectSpec>, args: Option<ObjectSpec>, body: Option<ObjectSpec>, when_: seq<string>,
    list: string, write: string, ttl: int, code: string)

  /** What an audit or archive ask keeps of a message. */
  datatype ObjectSpec = ObjectSpec(switch: string, limit: int, source: string)

  predicate Asks(o: Outcome) { o.do != "" }

  function Subject(o: Outcome): string { if o.write == "" then "addr" else o.write }

  predicate AuditVerb(do: string) { do == "audit" || do == "archive" }

  predicate RecordVerb(do: string) { AuditVerb(do) || do == "mark" || do == "score" }

  /** The axes a verb can take; the first is its default where it has one. */
  function Axes(do: string): seq<string> {
    if do in ["challenge", "threshold", "skip", "mutate", "mark", "score"] then ["request"]
    else if do == "reauth" then ["session"]
    else if do == "note" then ["request", "ip", "asn", "session"]
    else if do in ["active", "passive", "off", "vote"] then ["request", "conn"]
    else if AuditVerb(do) then ["request", "response"]
    else []
  }

  function Axis(o: Outcome): string {
    if o.apply != "" then o.apply
    else if |Axes(o.do)| == 1 || AuditVerb(o.do) then Axes(o.do)[0]
    else ""
  }

  datatype Verdict = Allow | Deny | Score | Error

  predicate Matches(o: Outcome, verdict: Verdict, score: int) {
    if o.on == ACTION_ALLOW then verdict.Allow?
    else if o.on == ACTION_DENY then verdict.Deny?
    else if o.on == ACTION_SCORE then
      verdict.Score? && o.at.Some?
      && if o.eq then score == o.at.value else if o.below then score < o.at.value else score >= o.at.value
    else false
  }

  predicate ControlVerb(do: string) { do in ["active", "passive", "off", "vote"] }

  /** Nobody in particular. */
  predicate ToNobody(to: string) { to == "" || to == "*" }

  predicate OnOrOff(switch: string) { switch == "on" || switch == "off" }

  /** The amounts an ask may carry, and the verbs that need one. */
  predicate GoodAmounts(o: Outcome) {
    && (o.delta.Some? ==> -100 <= o.delta.value <= 900)
    && (o.value.Some? ==> -100 <= o.value.value <= 100)
    && (o.do == "threshold" ==> o.delta.Some? && o.delta.value != 0)
    && (o.do == "note" || o.do == "score" ==> o.value.Some? && o.value.value != 0)
  }

  /** Whom an ask is for: records are the route's own, and a switch turns one call. */
  predicate GoodAddressee(o: Outcome) {
    && (o.do == "score" || o.do == "mark" || AuditVerb(o.do) ==> ToNobody(o.to))
    && (ControlVerb(o.do) ==> !ToNobody(o.to))
  }

  /** checkPhaseAsk. */
  predicate GoodPhaseAsk(do: string, phase: string, axis: string) {
    phase == "" || (ControlVerb(do) && phase in ["request", "response", "frame"] && (axis == "conn" ==> phase == "frame"))
  }

  predicate GoodMarker(marker: string) {
    && marker != "" && ByteLen(marker) <= MARKER_MAX
    && (forall k :: 0 <= k < |marker| ==> marker[k] >= ' ' && marker[k] != '\U{7F}')
    && marker[0] != ' ' && marker[|marker| - 1] != ' '
  }

  /** The counter, group and marker of an ask go with one verb each. */
  predicate GoodLabels(o: Outcome) {
    && (o.counter != "" ==> o.do == "note" && ObjectName(o.counter))
    && (if o.do == "mutate" then ObjectName(o.group) && OnOrOff(o.switch) else o.group == "")
    && (if o.do == "mark" then GoodMarker(o.marker) else o.marker == "")
  }

  predicate GoodSpec(spec: Option<ObjectSpec>) {
    spec.Some? ==>
      && spec.value.switch in ["", "on", "off"] && spec.value.limit >= 0 && spec.value.source in ["", "store", "original"]
  }

  predicate NoObjects(o: Outcome) {
    o.headers.None? && o.args.None? && o.body.None?
  }

  /** What an audit or archive ask may say, and that no other ask says it. */
  predicate GoodRecord(o: Outcome) {
    if AuditVerb(o.do) then
      && OnOrOff(o.switch)
      && (o.switch == "off" ==> o.ttl == 0 && o.when_ == [] && NoObjects(o))
      && (o.do == "audit" ==> o.ttl == 0 && o.when_ == [])
      && GoodWhen(o.when_) && (o.apply == "response" ==> o.args.None?)
      && GoodSpec(o.headers) && GoodSpec(o.args) && GoodSpec(o.body)
    else o.when_ == [] && NoObjects(o) && (o.do != "mutate" ==> o.switch == "")
  }

  /** A word of `when`, read. */
  function When(word: string): string { Lower(Trim(word)) }

  /** Only allow and deny, neither twice. */
  predicate GoodWhen(words: seq<string>) {
    && (forall k :: 0 <= k < |words| ==> When(words[k]) in [ACTION_ALLOW, ACTION_DENY])
    && (forall j, k :: 0 <= j < k < |words| ==> When(words[j]) != When(words[k]))
  }

  /** What the words say. */
  function Said(words: seq<string>): set<string> {
    set k | 0 <= k < |words| :: When(words[k])
  }

  /** What is said, in its fixed order. */
  function WhenOf(words: seq<string>): seq<string> {
    (if ACTION_ALLOW in Said(words) then [ACTION_ALLOW] else []) + (if ACTION_DENY in Said(words) then [ACTION_DENY] else [])
  }

  /** protocol.CheckArchiveWhen. */
  method CheckArchiveWhen(words: seq<string>) returns (r: Option<seq<string>>)
    ensures r == if GoodWhen(words) then Some(WhenOf(words)) else None
  {
    var seen: set<string> := {};
    for i := 0 to |words|
      invariant GoodWhen(words[..i]) && seen == Said(words[..i])
    {
      var name := When(words[i]);
      WhenSnoc(words, i);
      if name != ACTION_ALLOW && name != ACTION_DENY {
        return None;
      }
      if name in seen {
        return None;
      }
      seen := seen + {name};
    }
    assert words[..|words|] == words;
    return Some((if ACTION_ALLOW in seen then [ACTION_ALLOW] else []) + (if ACTION_DENY in seen then [ACTION_DENY] else []));
  }

  /** One more word: what it adds, when the list stays good, and that a bad prefix stays bad. */
  lemma WhenSnoc(words: seq<string>, i: nat)
    requires i < |words| && GoodWhen(words[..i])
    ensures Said(words[..i + 1]) == Said(words[..i]) + {When(words[i])}
    ensures GoodWhen(words[..i + 1]) <==> When(words[i]) in [ACTION_ALLOW, ACTION_DENY] && When(words[i]) !in Said(words[..i])
    ensures !GoodWhen(words[..i + 1]) ==> !GoodWhen(words)
  {
    var before, all := words[..i], words[..i + 1];
    assert all == before + [words[i]];
    forall name ensures name in Said(all) <==> name in Said(before) || name == When(words[i]) {
      if name in Said(before) {
        var k :| 0 <= k < i && When(before[k]) == name;
        assert When(all[k]) == name;
      }
      assert When(all[i]) == When(words[i]);
    }
    WordsDiffer(before, words[i]);
    if GoodWhen(words) {
      assert forall j :: 0 <= j <= i ==> all[j] == words[j];
    }
  }

  lemma WordsDiffer(words: seq<string>, word: string)
    requires GoodWhen(words)
    ensures GoodWhen(words + [word]) <==> When(word) in [ACTION_ALLOW, ACTION_DENY] && When(word) !in Said(words)
  {
    var all := words + [word];
    assert all[|words|] == word;
    forall k | 0 <= k < |words| ensures all[k] == words[k] {
    }
    if When(word) in Said(words) {
      var k :| 0 <= k < |words| && When(words[k]) == When(word);
      assert When(all[k]) == When(all[|words|]);
    }
  }

  /** validateOutcomeAsk. */
  predicate GoodAsk(o: Outcome) {
    && (o.on == ACTION_DENY ==> RecordVerb(o.do))
    && Axes(o.do) != [] && (o.apply != "" ==> o.apply in Axes(o.do))
    && (o.apply == "" ==> |Axes(o.do)| == 1 || AuditVerb(o.do))
    && GoodAmounts(o) && GoodAddressee(o) && GoodPhaseAsk(o.do, o.phase, Axis(o)) && GoodLabels(o) && GoodRecord(o)
  }

  /** When an outcome fires. */
  predicate GoodOccasion(section: string, o: Outcome) {
    if o.on == ACTION_DENY || o.on == ACTION_ALLOW then o.at.None? && !o.below && !o.eq
    else if o.on == ACTION_SCORE then o.at.Some? && 0 <= o.at.value <= 100 && !(o.below && o.eq)
    else o.on == ON_OVERLOAD && section == "request" && !o.below && !o.eq
         && (o.at.Some? ==> AT_MIN <= o.at.value <= AT_MAX)
  }

  /** validateOutcome: an outcome asks, or writes to a dataset. */
  predicate GoodOutcome(section: string, o: Outcome) {
    && GoodOccasion(section, o) && (o.code == "" || ReasonCode(o.code))
    && (if Asks(o) then o.list == "" && GoodAsk(o)
        else ObjectName(o.list) && o.write in ["", "addr", "net", "net_all", "asn"] && o.ttl > 0)
  }

  // ------------------------------------------------ decision

  datatype Phase = Phase(mode: string, rules: map<Key, Rule>, denyResponse: string, outcomes: seq<Outcome>)

  function TableMap(table: seq<NamedRule>): map<Key, Rule> {
    if table == [] then map[]
    else TableMap(table[..|table| - 1])[table[|table| - 1].key := table[|table| - 1].rule]
  }

  method RulesOf(table: seq<NamedRule>) returns (out: map<Key, Rule>)
    ensures out == TableMap(table)
  {
    out := map[];
    for i := 0 to |table|
      invariant out == TableMap(table[..i])
    {
      assert table[..i + 1][..i] == table[..i];
      out := out[table[i].key := table[i].rule];
    }
    assert table[..|table|] == table;
  }

  datatype Decision = Decision(
    verdict: Verdict, score: int, code: string, denyResponse: string,
    would: Option<Verdict>, wouldScore: int, wouldCode: string)

  function PolicyKey(k: Kind): Key
    requires !k.Ok?
  {
    match k
    case Mismatch => KInvalid
    case TooDeep => KInvalid
    case Unparsable => KUnparsable
    case Truncated => KTruncated
    case TooLarge => KTruncated
    case UnknownOperation => KUnknownOperation
    case ContentType => KContentType
    case Status => KStatus
    case BodyUnavailable => KUnavailable
    case ArgsUnavailable => KUnavailable
    case Opcode => KOpcode
  }

  function PolicyCode(k: Kind): string {
    match k
    case Ok => ""
    case Mismatch => "JSON_SCHEMA_MISMATCH"
    case TooDeep => "JSON_TOO_DEEP"
    case Unparsable => "JSON_UNPARSABLE"
    case Truncated => "JSON_BODY_TRUNCATED"
    case TooLarge => "JSON_BODY_TOO_LARGE"
    case UnknownOperation => "JSON_UNKNOWN_OPERATION"
    case ContentType => "JSON_CONTENT_TYPE"
    case Status => "JSON_STATUS_UNDECLARED"
    case BodyUnavailable => "JSON_BODY_UNAVAILABLE"
    case ArgsUnavailable => "JSON_ARGS_UNAVAILABLE"
    case Opcode => "JSON_FRAME_OPCODE"
  }

  /** A rule the table does not hold reads as the zero rule, which allows. */
  function RuleFor(ph: Phase, k: Kind): Rule
    requires !k.Ok?
  {
    if PolicyKey(k) in ph.rules then ph.rules[PolicyKey(k)] else Rule("", 0)
  }

  function From(ph: Phase, k: Kind): Decision {
    if k.Ok? then Decision(Allow, 0, "", "", None, 0, "")
    else
      var rule := RuleFor(ph, k);
      var d :=
        if rule.action == ACTION_DENY then Decision(Deny, 0, PolicyCode(k), ph.denyResponse, None, 0, "")
        else if rule.action == ACTION_SCORE then Decision(Score, rule.score, PolicyCode(k), "", None, 0, "")
        else Decision(Allow, 0, PolicyCode(k), "", None, 0, "");
      if ph.mode == OBSERVE && !d.verdict.Allow?
      then Decision(Allow, 0, CODE_OBSERVE, "", Some(d.verdict), d.score, d.code)
      else d
  }

  // ------------------------------------------------ what fires

  datatype Action = Action(
    to: string, do: string, apply: string, phase: string, code: string, counter: string, marker: string,
    group: string, switch: string, headers: Option<ObjectSpec>, args: Option<ObjectSpec>, body: Option<ObjectSpec>,
    ttl: Option<int>, when_: seq<string>, delta: int, value: int)

  datatype Ban = Ban(dataset: string, write: string, addr: string, ttl: int, reason: string)

  datatype Fired = Fired(actions: seq<Action>, bans: seq<Ban>, names: seq<string>)

  const NOTHING := Fired([], [], [])

  function Reason(o: Outcome, code: string): string { if o.code != "" then o.code else code }

  /** The words of `when` are those CheckArchiveWhen gives; a bad list gives none. */
  function AskOf(o: Outcome, code: string): Action {
    var kept := o.do == "archive" && o.switch == "on";
    Action(o.to, o.do, Axis(o), o.phase, Reason(o, code), o.counter, o.marker, o.group, o.switch,
           o.headers, o.args, o.body,
           if kept && o.ttl > 0 then Some(o.ttl) else None,
           if kept && GoodWhen(o.when_) then WhenOf(o.when_) else [],
           if o.delta.Some? then o.delta.value else 0, if o.value.Some? then o.value.value else 0)
  }

  function BanOf(o: Outcome, addr: string, code: string): Ban {
    Ban(o.list, Subject(o), addr, o.ttl, Reason(o, code))
  }

  /** What one outcome adds once it is known to fire; a dataset write needs an address. */
  function Add(f: Fired, o: Outcome, addr: string, code: string): Fired {
    if Asks(o) then Fired(f.actions + [AskOf(o, code)], f.bans, f.names + [o.do])
    else if addr == "" then f
    else Fired(f.actions, f.bans + [BanOf(o, addr, code)], f.names + [o.list])
  }

  /** What the chosen outcomes add, in their order. */
  function Collect(outcomes: seq<Outcome>, chosen: Outcome -> bool, addr: string, code: string): Fired {
    if outcomes == [] then NOTHING
    else
      var f := Collect(outcomes[..|outcomes| - 1], chosen, addr, code);
      var o := outcomes[|outcomes| - 1];
      if chosen(o) then Add(f, o, addr, code) else f
  }

  function ByVerdict(verdict: Verdict, score: int): Outcome -> bool {
    (o: Outcome) => Matches(o, verdict, score)
  }

  function FireAll(outcomes: seq<Outcome>, verdict: Verdict, score: int, addr: string, code: string): Fired {
    Collect(outcomes, ByVerdict(verdict, score), addr, code)
  }

  /** In observe mode what fires is what would have fired. */
  function FireOf(ph: Phase, d: Decision, addr: string): Fired {
    if d.would.Some? then FireAll(ph.outcomes, d.would.value, d.wouldScore, addr, d.wouldCode)
    else FireAll(ph.outcomes, d.verdict, d.score, addr, d.code)
  }

  method Fire(ph: Phase, d: Decision, addr: string) returns (out: Fired)
    ensures out == FireOf(ph, d, addr)
  {
    if |ph.outcomes| == 0 {
      return NOTHING;
    }
    var verdict, score, code := d.verdict, d.score, d.code;
    if d.would.Some? {
      verdict, score, code := d.would.value, d.wouldScore, d.wouldCode;
    }
    out := NOTHING;
    for i := 0 to |ph.outcomes|
      invariant out == FireAll(ph.outcomes[..i], verdict, score, addr, code)
    {
      var o := ph.outcomes[i];
      assert ph.outcomes[..i + 1][..i] == ph.outcomes[..i];
      if !Matches(o, verdict, score) {
        continue;
      }
      if Asks(o) {
        out := Fired(out.actions + [AskOf(o, code)], out.bans, out.names + [o.do]);
        continue;
      }
      if addr == "" {
        continue;
      }
      out := Fired(out.actions, out.bans + [BanOf(o, addr, code)], out.names + [o.list]);
    }
    assert ph.outcomes[..|ph.outcomes|] == ph.outcomes;
  }

  /** When the queue is this full an overload outcome fires; a refused task fires it whatever its mark. */
  predicate OverloadFires(at: int, fill: int, shed: bool) {
    shed || (at < AT_MAX && fill >= at)
  }

  predicate OverloadMatches(o: Outcome, fill: int, shed: bool) {
    o.on == ON_OVERLOAD && OverloadFires(if o.at.None? then AT_MAX else o.at.value, fill, shed)
  }

  function ByFill(fill: int, shed: bool): Outcome -> bool {
    (o: Outcome) => OverloadMatches(o, fill, shed)
  }

  function OverloadAll(outcomes: seq<Outcome>, fill: int, shed: bool, addr: string, code: string): Fired {
    Collect(outcomes, ByFill(fill, shed), addr, code)
  }

  method FireOverload(outcomes: seq<Outcome>, fill: int, shed: bool, addr: string, code: string) returns (out: Fired)
    ensures out == OverloadAll(outcomes, fill, shed, addr, code)
  {
    out := NOTHING;
    for i := 0 to |outcomes|
      invariant out == OverloadAll(outcomes[..i], fill, shed, addr, code)
    {
      var o := outcomes[i];
      assert outcomes[..i + 1][..i] == outcomes[..i];
      if o.on != ON_OVERLOAD || !OverloadFires(if o.at.None? then AT_MAX else o.at.value, fill, shed) {
        continue;
      }
      if Asks(o) {
        out := Fired(out.actions + [AskOf(o, code)], out.bans, out.names + [o.do]);
        continue;
      }
      if addr == "" {
        continue;
      }
      out := Fired(out.actions, out.bans + [BanOf(o, addr, code)], out.names + [o.list]);
    }
    assert outcomes[..|outcomes|] == outcomes;
  }

  // ------------------------------------------------ properties

  /** An outcome in the list, chosen, that asks for a. */
  ghost predicate AsksFor(outcomes: seq<Outcome>, chosen: Outcome -> bool, code: string, a: Action) {
    exists o :: o in outcomes && chosen(o) && Asks(o) && a == AskOf(o, code)
  }

  /** An outcome in the list, chosen, that writes b. */
  ghost predicate Bans(outcomes: seq<Outcome>, chosen: Outcome -> bool, addr: string, code: string, b: Ban) {
    exists o :: o in outcomes && chosen(o) && !Asks(o) && b == BanOf(o, addr, code)
  }

  lemma InSnoc(outcomes: seq<Outcome>, o: Outcome)
    requires outcomes != []
    ensures o in outcomes <==> o in outcomes[..|outcomes| - 1] || o == outcomes[|outcomes| - 1]
  {
    assert outcomes == outcomes[..|outcomes| - 1] + [outcomes[|outcomes| - 1]];
  }

  /** Exactly the chosen outcomes fire: each one that asks gives its action, and each of the others its ban
      when there is an address; every one that fires is named. */
  lemma {:induction false} FiresExactly(outcomes: seq<Outcome>, chosen: Outcome -> bool, addr: string, code: string)
    ensures var f := Collect(outcomes, chosen, addr, code);
      && (forall a :: a in f.actions <==> AsksFor(outcomes, chosen, code, a))
      && (forall b :: b in f.bans <==> addr != "" && Bans(outcomes, chosen, addr, code, b))
      && |f.names| == |f.actions| + |f.bans|
  {
    if outcomes != [] {
      var before, last := outcomes[..|outcomes| - 1], outcomes[|outcomes| - 1];
      FiresExactly(before, chosen, addr, code);
      forall a ensures AsksFor(outcomes, chosen, code, a) <==>
        AsksFor(before, chosen, code, a) || (chosen(last) && Asks(last) && a == AskOf(last, code))
      {
        forall o ensures o in outcomes <==> o in before || o == last {
          InSnoc(outcomes, o);
        }
      }
      forall b ensures Bans(outcomes, chosen, addr, code, b) <==>
        Bans(before, chosen, addr, code, b) || (chosen(last) && !Asks(last) && b == BanOf(last, addr, code))
      {
        forall o ensures o in outcomes <==> o in before || o == last {
          InSnoc(outcomes, o);
        }
      }
    }
  }

  /** A deny of a validated profile asks only for records: it ends the phase, so no other ask has anywhere to go. */
  lemma DenyOnlyRecords(section: string, outcomes: seq<Outcome>, score: int, addr: string, code: string)
    requires forall k :: 0 <= k < |outcomes| ==> GoodOutcome(section, outcomes[k])
    ensures forall a :: a in FireAll(outcomes, Deny, score, addr, code).actions ==> RecordVerb(a.do)
  {
    FiresExactly(outcomes, ByVerdict(Deny, score), addr, code);
  }

  /** Every ask of a validated profile names an axis its verb can take, and its amounts are in range. */
  lemma AsksHaveAnAxis(section: string, outcomes: seq<Outcome>, chosen: Outcome -> bool, addr: string, code: string)
    requires forall k :: 0 <= k < |outcomes| ==> GoodOutcome(section, outcomes[k])
    ensures forall a :: a in Collect(outcomes, chosen, addr, code).actions ==>
      a.apply in Axes(a.do) && -100 <= a.delta <= 900 && -100 <= a.value <= 100
  {
    FiresExactly(outcomes, chosen, addr, code);
    forall o | o in outcomes && Asks(o) ensures Axis(o) in Axes(o.do) {
      assert GoodAsk(o);
    }
  }

  /** A fuller queue fires at least as much, and a refusal fires everything there is to fire. */
  lemma {:induction false} OverloadGrows(outcomes: seq<Outcome>, fill: int, fill': int, addr: string, code: string)
    requires fill <= fill'
    ensures multiset(OverloadAll(outcomes, fill, false, addr, code).names)
         <= multiset(OverloadAll(outcomes, fill', false, addr, code).names)
         <= multiset(OverloadAll(outcomes, fill', true, addr, code).names)
  {
    if outcomes != [] {
      OverloadGrows(outcomes[..|outcomes| - 1], fill, fill', addr, code);
    }
  }

  /** The two kinds of outcome never fire on the same occasion: an overload outcome answers no verdict. */
  lemma OverloadAnswersNoVerdict(o: Outcome, verdict: Verdict, score: int, fill: int, shed: bool)
    ensures !(Matches(o, verdict, score) && OverloadMatches(o, fill, shed))
  {
  }

  lemma {:induction false} TableMapHolds(table: seq<NamedRule>, i: nat)
    requires i < |table| && forall j, k :: 0 <= j < k < |table| ==> table[j].key != table[k].key
    ensures table[i].key in TableMap(table) && TableMap(table)[table[i].key] == table[i].rule
  {
    if i < |table| - 1 {
      TableMapHolds(table[..|table| - 1], i);
    }
  }
}
