/**
 Why a profile is refused, fault by fault. A profile is good exactly when it has none of these: the list is the
 reverse of the predicate that validation decides.
 */
module ProfileLaws {
  import opened Basics
  import opened Text
  import opened Policy
  import opened Profiles
  import Prior

  // ------------------------------------------------ outcomes

  datatype OutcomeFault =
    | UnknownOn | MarkWithoutScore | NoMark | MarkOutOfRange | BelowAndEq | NotInThisSection | OverloadMark
    | BadCode | AskAndList | NoAskNorList | BadDataset | BadWrite | NoTtl
    | DenyEndsPhase | UnknownVerb | WrongAxis | NoAxis | DeltaOutOfRange | ValueOutOfRange | NoDelta | NoValue
    | NoAddressee | AddresseeOfRecord | PhaseOfOther | UnknownPhase | ConnectionOutsideFrames
    | CounterOfOther | BadCounter | BadGroup | GroupOfOther | NoSwitch | SwitchOfOther | BadMark | MarkOfOther
    | OffWithDetails | AuditWithDetails | BadWhen | ArgsOfResponse | BadObject | DetailsOfOther

  predicate NoDetails(o: Outcome) {
    |o.when_| == 0 && o.headers.None? && o.args.None? && o.body.None?
  }

  predicate BadSpec(spec: Option<ObjectSpec>) {
    && spec.Some?
    && (spec.value.switch !in ["", "on", "off"] || spec.value.limit < 0 || spec.value.source !in ["", "store", "original"])
  }

  predicate Records(do: string) { do == "audit" || do == "archive" }

  predicate Controls(do: string) { do == "active" || do == "passive" || do == "off" || do == "vote" }

  /** The verbs that ask about one thing only, which may then go unsaid. */
  predicate AxisGoesUnsaid(do: string) {
    do in ["challenge", "threshold", "skip", "mutate", "reauth", "mark", "score", "audit", "archive"]
  }

  predicate TakesAxis(do: string, apply: string) {
    if do == "reauth" then apply == "session"
    else if do == "note" then apply in ["request", "ip", "asn", "session"]
    else if Controls(do) then apply in ["request", "conn"]
    else if Records(do) then apply in ["request", "response"]
    else apply == "request"
  }

  predicate KnownVerb(do: string) {
    AxisGoesUnsaid(do) || do == "note" || Controls(do)
  }

  predicate HasOutcomeFault(section: string, o: Outcome, f: OutcomeFault) {
    match f
    case UnknownOn => o.on !in ["deny", "allow", "score", "overload"]
    case MarkWithoutScore => (o.on == "deny" || o.on == "allow") && o.at.Some?
    case NoMark => o.on == "score" && o.at.None?
    case MarkOutOfRange => o.on == "score" && o.at.Some? && (o.at.value < 0 || o.at.value > 100)
    case BelowAndEq => (o.below && o.eq) || (o.on != "score" && (o.below || o.eq))
    case NotInThisSection => o.on == "overload" && section != "request"
    case OverloadMark => o.on == "overload" && o.at.Some? && (o.at.value < 25 || o.at.value > 100)
    case BadCode => o.code != "" && !ReasonCode(o.code)
    case AskAndList => o.do != "" && o.list != ""
    case NoAskNorList => o.do == "" && o.list == ""
    case BadDataset => o.do == "" && !ObjectName(o.list)
    case BadWrite => o.do == "" && o.write !in ["", "addr", "net", "net_all", "asn"]
    case NoTtl => o.do == "" && o.ttl <= 0
    case DenyEndsPhase => o.do != "" && o.on == "deny" && !(Records(o.do) || o.do == "mark" || o.do == "score")
    case UnknownVerb => o.do != "" && !KnownVerb(o.do)
    case WrongAxis => o.do != "" && o.apply != "" && !TakesAxis(o.do, o.apply)
    case NoAxis => o.do != "" && o.apply == "" && !AxisGoesUnsaid(o.do)
    case DeltaOutOfRange => o.do != "" && o.delta.Some? && (o.delta.value < -100 || o.delta.value > 900)
    case ValueOutOfRange => o.do != "" && o.value.Some? && (o.value.value < -100 || o.value.value > 100)
    case NoDelta => o.do == "threshold" && (o.delta.None? || o.delta.value == 0)
    case NoValue => (o.do == "note" || o.do == "score") && (o.value.None? || o.value.value == 0)
    case NoAddressee => Controls(o.do) && (o.to == "" || o.to == "*")
    case AddresseeOfRecord => (Records(o.do) || o.do == "mark" || o.do == "score") && o.to != "" && o.to != "*"
    case PhaseOfOther => o.do != "" && o.phase != "" && !Controls(o.do)
    case UnknownPhase => o.do != "" && o.phase !in ["", "request", "response", "frame"]
    case ConnectionOutsideFrames => Controls(o.do) && o.apply == "conn" && o.phase != "" && o.phase != "frame"
    case CounterOfOther => o.do != "" && o.counter != "" && o.do != "note"
    case BadCounter => o.do == "note" && o.counter != "" && !ObjectName(o.counter)
    case BadGroup => o.do == "mutate" && !ObjectName(o.group)
    case GroupOfOther => o.do != "" && o.do != "mutate" && o.group != ""
    case NoSwitch => (o.do == "mutate" || Records(o.do)) && o.switch != "on" && o.switch != "off"
    case SwitchOfOther => o.do != "" && o.do != "mutate" && !Records(o.do) && o.switch != ""
    case BadMark => o.do == "mark" && !GoodMarker(o.marker)
    case MarkOfOther => o.do != "" && o.do != "mark" && o.marker != ""
    case OffWithDetails => Records(o.do) && o.switch == "off" && (o.ttl != 0 || !NoDetails(o))
    case AuditWithDetails => o.do == "audit" && (o.ttl != 0 || |o.when_| != 0)
    case BadWhen => Records(o.do) && !GoodWhen(o.when_)
    case ArgsOfResponse => Records(o.do) && o.apply == "response" && o.args.Some?
    case BadObject => Records(o.do) && (BadSpec(o.headers) || BadSpec(o.args) || BadSpec(o.body))
    case DetailsOfOther => o.do != "" && !Records(o.do) && !NoDetails(o)
  }

  ghost predicate NoOutcomeFault(section: string, o: Outcome) {
    forall f :: !HasOutcomeFault(section, o, f)
  }

  /** The verbs with their axes. */
  lemma VerbsAndAxes(o: Outcome)
    requires o.do != ""
    ensures Axes(o.do) != [] <==> KnownVerb(o.do)
    ensures KnownVerb(o.do) ==> (o.apply in Axes(o.do) <==> TakesAxis(o.do, o.apply))
    ensures KnownVerb(o.do) ==> (|Axes(o.do)| == 1 || AuditVerb(o.do) <==> AxisGoesUnsaid(o.do))
    ensures Controls(o.do) ==> (Axis(o) == "conn" <==> o.apply == "conn")
  {
  }

  /** The faults in where an outcome is recorded and how. */
  predicate OfRecords(f: OutcomeFault) {
    || f.NoSwitch? || f.SwitchOfOther? || f.OffWithDetails? || f.AuditWithDetails? || f.BadWhen? || f.ArgsOfResponse?
    || f.BadObject? || f.DetailsOfOther?
  }

  lemma GoodHasNoFault(section: string, o: Outcome, f: OutcomeFault)
    requires GoodOutcome(section, o)
    ensures !HasOutcomeFault(section, o, f)
  {
    if o.do != "" {
      if OfRecords(f) {
        GoodRecordHasNoFault(o, section, f);
      } else {
        VerbsAndAxes(o);
      }
    }
  }

  lemma GoodRecordHasNoFault(o: Outcome, section: string, f: OutcomeFault)
    requires o.do != "" && GoodRecord(o) && GoodLabels(o) && OfRecords(f)
    ensures !HasOutcomeFault(section, o, f)
  {
    FaultlessSpecs(o);
  }

  lemma FaultlessOccasion(section: string, o: Outcome)
    requires NoOutcomeFault(section, o)
    ensures GoodOccasion(section, o) && (o.code == "" || ReasonCode(o.code))
  {
    assert !HasOutcomeFault(section, o, UnknownOn) && !HasOutcomeFault(section, o, MarkWithoutScore);
    assert !HasOutcomeFault(section, o, NoMark) && !HasOutcomeFault(section, o, MarkOutOfRange);
    assert !HasOutcomeFault(section, o, BelowAndEq) && !HasOutcomeFault(section, o, NotInThisSection);
    assert !HasOutcomeFault(section, o, OverloadMark) && !HasOutcomeFault(section, o, BadCode);
  }

  lemma FaultlessVerb(section: string, o: Outcome)
    requires NoOutcomeFault(section, o) && o.do != ""
    ensures o.list == "" && (o.on == "deny" ==> RecordVerb(o.do))
    ensures Axes(o.do) != [] && (o.apply != "" ==> o.apply in Axes(o.do))
    ensures o.apply == "" ==> |Axes(o.do)| == 1 || AuditVerb(o.do)
  {
    VerbsAndAxes(o);
    assert !HasOutcomeFault(section, o, AskAndList) && !HasOutcomeFault(section, o, DenyEndsPhase);
    assert !HasOutcomeFault(section, o, UnknownVerb) && !HasOutcomeFault(section, o, WrongAxis);
    assert !HasOutcomeFault(section, o, NoAxis);
  }

  lemma FaultlessAmounts(section: string, o: Outcome)
    requires NoOutcomeFault(section, o) && o.do != ""
    ensures GoodAmounts(o)
  {
    assert !HasOutcomeFault(section, o, DeltaOutOfRange) && !HasOutcomeFault(section, o, ValueOutOfRange);
    assert !HasOutcomeFault(section, o, NoDelta) && !HasOutcomeFault(section, o, NoValue);
  }

  lemma FaultlessAddressee(section: string, o: Outcome)
    requires NoOutcomeFault(section, o) && o.do != ""
    ensures GoodAddressee(o)
  {
    assert !HasOutcomeFault(section, o, NoAddressee) && !HasOutcomeFault(section, o, AddresseeOfRecord);
  }

  lemma FaultlessPhase(section: string, o: Outcome)
    requires NoOutcomeFault(section, o) && o.do != "" && KnownVerb(o.do)
    ensures GoodPhaseAsk(o.do, o.phase, Axis(o))
  {
    assert !HasOutcomeFault(section, o, PhaseOfOther) && !HasOutcomeFault(section, o, UnknownPhase);
    assert !HasOutcomeFault(section, o, ConnectionOutsideFrames);
    if Controls(o.do) {
      VerbsAndAxes(o);
    }
  }

  lemma FaultlessLabels(section: string, o: Outcome)
    requires NoOutcomeFault(section, o) && o.do != ""
    ensures GoodLabels(o)
  {
    assert !HasOutcomeFault(section, o, CounterOfOther) && !HasOutcomeFault(section, o, BadCounter);
    assert o.counter != "" ==> o.do == "note" && ObjectName(o.counter);
    FaultlessGroup(section, o);
    FaultlessMark(section, o);
  }

  lemma FaultlessGroup(section: string, o: Outcome)
    requires NoOutcomeFault(section, o) && o.do != ""
    ensures if o.do == "mutate" then ObjectName(o.group) && OnOrOff(o.switch) else o.group == ""
  {
    assert !HasOutcomeFault(section, o, BadGroup) && !HasOutcomeFault(section, o, GroupOfOther);
    assert !HasOutcomeFault(section, o, NoSwitch);
  }

  lemma FaultlessMark(section: string, o: Outcome)
    requires NoOutcomeFault(section, o) && o.do != ""
    ensures if o.do == "mark" then GoodMarker(o.marker) else o.marker == ""
  {
    assert !HasOutcomeFault(section, o, BadMark) && !HasOutcomeFault(section, o, MarkOfOther);
  }

  lemma FaultlessSpecs(o: Outcome)
    ensures GoodSpec(o.headers) && GoodSpec(o.args) && GoodSpec(o.body)
       <==> !BadSpec(o.headers) && !BadSpec(o.args) && !BadSpec(o.body)
  {
  }

  lemma FaultlessRecord(section: string, o: Outcome)
    requires NoOutcomeFault(section, o) && o.do != ""
    ensures GoodRecord(o)
  {
    if Records(o.do) {
      FaultlessSwitch(section, o);
      FaultlessDetails(section, o);
    } else {
      FaultlessOther(section, o);
    }
  }

  lemma FaultlessDetails(section: string, o: Outcome)
    requires NoOutcomeFault(section, o) && Records(o.do)
    ensures GoodWhen(o.when_) && (o.apply == "response" ==> o.args.None?)
    ensures GoodSpec(o.headers) && GoodSpec(o.args) && GoodSpec(o.body)
  {
    assert !HasOutcomeFault(section, o, BadWhen) && !HasOutcomeFault(section, o, ArgsOfResponse);
    FaultlessObjects(section, o);
  }

  lemma FaultlessObjects(section: string, o: Outcome)
    requires NoOutcomeFault(section, o) && Records(o.do)
    ensures GoodSpec(o.headers) && GoodSpec(o.args) && GoodSpec(o.body)
  {
    FaultlessSpecs(o);
    assert !HasOutcomeFault(section, o, BadObject);
  }

  lemma FaultlessOther(section: string, o: Outcome)
    requires NoOutcomeFault(section, o) && o.do != "" && !Records(o.do)
    ensures (o.do != "mutate" ==> o.switch == "") && NoDetails(o)
  {
    assert !HasOutcomeFault(section, o, SwitchOfOther) && !HasOutcomeFault(section, o, DetailsOfOther);
  }

  lemma FaultlessSwitch(section: string, o: Outcome)
    requires NoOutcomeFault(section, o) && Records(o.do)
    ensures OnOrOff(o.switch) && (o.switch == "off" ==> o.ttl == 0 && o.when_ == [] && NoObjects(o))
    ensures o.do == "audit" ==> o.ttl == 0 && o.when_ == []
  {
    assert !HasOutcomeFault(section, o, NoSwitch);
    assert !HasOutcomeFault(section, o, OffWithDetails) && !HasOutcomeFault(section, o, AuditWithDetails);
  }

  lemma FaultlessWrite(section: string, o: Outcome)
    requires NoOutcomeFault(section, o) && o.do == ""
    ensures ObjectName(o.list) && o.write in ["", "addr", "net", "net_all", "asn"] && o.ttl > 0
  {
    assert !HasOutcomeFault(section, o, BadDataset) && !HasOutcomeFault(section, o, BadWrite) && !HasOutcomeFault(section, o, NoTtl);
  }

  /** An outcome is good exactly when it has no fault. */
  lemma OutcomesAreRefusedExactly(section: string, o: Outcome)
    ensures GoodOutcome(section, o) <==> NoOutcomeFault(section, o)
  {
    if GoodOutcome(section, o) {
      forall f ensures !HasOutcomeFault(section, o, f) {
        GoodHasNoFault(section, o, f);
      }
    }
    if NoOutcomeFault(section, o) {
      FaultlessOccasion(section, o);
      if o.do != "" {
        FaultlessVerb(section, o);
        FaultlessAmounts(section, o);
        assert !HasOutcomeFault(section, o, UnknownVerb);
        FaultlessAddressee(section, o);
        FaultlessPhase(section, o);
        FaultlessLabels(section, o);
        FaultlessRecord(section, o);
      } else {
        FaultlessWrite(section, o);
      }
    }
  }

  // ------------------------------------------------ profiles

  /** The parts of a profile that have rules and outcomes of their own. */
  datatype Part = Requests | Responses | FromClient | FromServer

  function SectionOf(part: Part): string {
    match part
    case Requests => "request"
    case Responses => "response"
    case FromClient => "frame.c2s"
    case FromServer => "frame.s2c"
  }

  /** Faults of any profile, and those of one that is not off. */
  datatype ProfileFault =
    | UnknownMode | PriorFault(i: nat) | OfOutcome(part: Part, i: nat, f: OutcomeFault)
    | UnknownKind | NothingToCheck | BadSource | BadBasePath | AllPhasesOff
    | RuleFault(part: Part, i: nat) | NoDenyResponse(part: Part)
    | BindingsWithOpenApi | BindingFault(i: nat) | FramesWithOpenApi | NoFrameSchema | FrameBindingFault(i: nat)
    | BadAuditValues | BadBodyLimit | BadDepthLimit | BadErrorLimit | BadCacheLimit

  function Outcomes(p: Profile, part: Part): seq<Outcome> {
    match part
    case Requests => p.request.outcomes
    case Responses => p.response.outcomes
    case FromClient => p.frame.c2s.outcomes
    case FromServer => p.frame.s2c.outcomes
  }

  function Common(r: RequestRules): seq<Rule> {
    [r.invalid, r.unparsable, r.truncated, r.unknownOperation, r.contentType, r.unavailable]
  }

  function OfFrames(r: FrameRules): seq<Rule> {
    [r.invalid, r.unparsable, r.truncated, r.unknownOperation, r.opcode, r.unavailable]
  }

  /** The rules of a part that is on. */
  function Table(p: Profile, part: Part): seq<Rule> {
    match part
    case Requests => if p.request.enabled then Common(p.request.rules) else []
    case Responses => if p.response.enabled then Common(p.response.rules.base) + [p.response.rules.status] else []
    case FromClient => if p.frame.enabled then OfFrames(p.frame.c2s.rules) else []
    case FromServer => if p.frame.enabled then OfFrames(p.frame.s2c.rules) else []
  }

  function ResponseOf(p: Profile, part: Part): string {
    match part
    case Requests => p.request.denyResponse
    case Responses => p.response.denyResponse
    case FromClient => p.frame.c2s.denyResponse
    case FromServer => p.frame.s2c.denyResponse
  }

  predicate BadPriorRule(r: Prior.PriorRule) {
    || r.from == "" || r.from == "*" || |r.accept| == 0
    || (exists v :: v in r.accept && v != "threshold" && v != "skip") || (exists a :: a in r.apply && a != "request")
  }

  predicate BadPath(path: string, match_: string) {
    path == "" || path[0] != '/' || (match_ != "exact" && match_ != "prefix")
  }

  predicate BadRule(r: Rule) { r.action !in ["deny", "score", "allow"] || r.score < 0 || r.score > 100 }

  predicate Denies(rules: seq<Rule>) { exists i :: 0 <= i < |rules| && rules[i].action == "deny" }

  predicate BadBinding(b: Binding) {
    !ObjectName(b.schema) || BadPath(b.path, b.match_) || exists m :: m in b.methods && !MethodName(m)
  }

  predicate BadFrameBinding(b: FrameBinding) {
    || !ObjectName(b.schema) || BadPath(b.path, b.match_) || b.direction !in ["c2s", "s2c", "any"]
    || (b.discriminator.Some?
        && (b.discriminator.value.pointer == "" || b.discriminator.value.pointer[0] != '/' || b.discriminator.value.value == ""))
  }

  predicate HasFault(p: Profile, f: ProfileFault) {
    match f
    case UnknownMode => p.mode !in ["enforce", "observe", "off"]
    case PriorFault(i) => i < |p.prior| && BadPriorRule(p.prior[i])
    case OfOutcome(part, i, of) => i < |Outcomes(p, part)| && HasOutcomeFault(SectionOf(part), Outcomes(p, part)[i], of)
    case UnknownKind => p.kind != "openapi" && p.kind != "jsonschema"
    case NothingToCheck => p.source == "" && |p.bindings| == 0 && |p.frame.bindings| == 0
    case BadSource => p.source != "" && !ObjectName(p.source)
    case BadBasePath => p.basePath != "" && p.basePath[0] != '/'
    case AllPhasesOff => !p.request.enabled && !p.response.enabled && !p.frame.enabled
    case RuleFault(part, i) => i < |Table(p, part)| && BadRule(Table(p, part)[i])
    case NoDenyResponse(part) => ResponseOf(p, part) == "" && Denies(Table(p, part))
    case BindingsWithOpenApi => |p.bindings| > 0 && p.kind == "openapi"
    case BindingFault(i) => i < |p.bindings| && BadBinding(p.bindings[i])
    case FramesWithOpenApi => p.frame.enabled && p.kind != "jsonschema"
    case NoFrameSchema => p.frame.enabled && |p.frame.bindings| == 0 && p.source == ""
    case FrameBindingFault(i) => p.frame.enabled && i < |p.frame.bindings| && BadFrameBinding(p.frame.bindings[i])
    case BadAuditValues => p.auditValues != "off" && p.auditValues != "hash"
    case BadBodyLimit => p.limits.maxBody <= 0
    case BadDepthLimit => p.limits.maxDepth < 1
    case BadErrorLimit => p.limits.maxErrors < 0
    case BadCacheLimit => p.limits.cache < 0
  }

  /** Faults that count also in a profile that is off. */
  predicate Always(f: ProfileFault) {
    f.UnknownMode? || f.PriorFault? || f.OfOutcome?
  }

  ghost predicate Faultless(p: Profile) {
    forall f :: HasFault(p, f) ==> p.mode == "off" && !Always(f)
  }

  function Rules(table: seq<NamedRule>): seq<Rule> {
    seq(|table|, k requires 0 <= k < |table| => table[k].rule)
  }

  lemma TableRules(p: Profile)
    ensures p.request.enabled ==> Rules(RequestTable(p.request.rules)) == Table(p, Requests)
    ensures p.response.enabled ==> Rules(ResponseTable(p.response.rules)) == Table(p, Responses)
    ensures p.frame.enabled ==> Rules(FrameTable(p.frame.c2s.rules)) == Table(p, FromClient)
    ensures p.frame.enabled ==> Rules(FrameTable(p.frame.s2c.rules)) == Table(p, FromServer)
  {
  }

  lemma TableIsGood(table: seq<NamedRule>, denyResponse: string)
    ensures GoodTable(table, denyResponse) <==>
      && (forall i :: 0 <= i < |table| ==> !BadRule(Rules(table)[i]))
      && (Denies(Rules(table)) ==> denyResponse != "")
  {
    forall i | 0 <= i < |table| ensures GoodRule(table[i].rule) <==> !BadRule(Rules(table)[i]) {
    }
    assert Denies(Rules(table)) <==> exists k :: 0 <= k < |table| && table[k].rule.action == ACTION_DENY by {
      if k :| 0 <= k < |table| && table[k].rule.action == ACTION_DENY {
        assert Rules(table)[k].action == "deny";
      }
    }
  }

  predicate PartGood(p: Profile, part: Part) {
    && (forall i :: 0 <= i < |Table(p, part)| ==> !BadRule(Table(p, part)[i]))
    && (Denies(Table(p, part)) ==> ResponseOf(p, part) != "")
  }

  lemma RequestIsGood(p: Profile)
    ensures PartGood(p, Requests) <==>
            (p.request.enabled ==> GoodTable(RequestTable(p.request.rules), p.request.denyResponse))
    ensures PartGood(p, Responses) <==>
            (p.response.enabled ==> GoodTable(ResponseTable(p.response.rules), p.response.denyResponse))
  {
    TableRules(p);
    TableIsGood(RequestTable(p.request.rules), p.request.denyResponse);
    TableIsGood(ResponseTable(p.response.rules), p.response.denyResponse);
  }

  lemma FrameIsGood(p: Profile)
    ensures PartGood(p, FromClient) <==>
            (p.frame.enabled ==> GoodTable(FrameTable(p.frame.c2s.rules), p.frame.c2s.denyResponse))
    ensures PartGood(p, FromServer) <==>
            (p.frame.enabled ==> GoodTable(FrameTable(p.frame.s2c.rules), p.frame.s2c.denyResponse))
  {
    TableRules(p);
    TableIsGood(FrameTable(p.frame.c2s.rules), p.frame.c2s.denyResponse);
    TableIsGood(FrameTable(p.frame.s2c.rules), p.frame.s2c.denyResponse);
  }

  lemma TablesAreGood(p: Profile)
    ensures GoodTables(p) <==>
      (p.request.enabled || p.response.enabled || p.frame.enabled) && forall part :: PartGood(p, part)
  {
    RequestIsGood(p);
    FrameIsGood(p);
    assert (forall part :: PartGood(p, part)) <==>
      PartGood(p, Requests) && PartGood(p, Responses) && PartGood(p, FromClient) && PartGood(p, FromServer);
  }

  lemma PriorRuleIsGood(r: Prior.PriorRule)
    ensures GoodPrior(r) <==> !BadPriorRule(r)
  {
  }

  ghost predicate PartFaultless(p: Profile, part: Part) {
    !HasFault(p, NoDenyResponse(part)) && forall i: nat :: !HasFault(p, RuleFault(part, i))
  }

  lemma PartHasNoFault(p: Profile, part: Part)
    ensures PartGood(p, part) <==> PartFaultless(p, part)
  {
    if PartFaultless(p, part) {
      forall i: nat | i < |Table(p, part)| ensures !BadRule(Table(p, part)[i]) {
        assert !HasFault(p, RuleFault(part, i));
      }
    }
  }

  lemma BindingsHaveNoFault(p: Profile)
    ensures (forall b :: b in p.bindings ==> GoodBinding(b)) <==> forall i: nat :: !HasFault(p, BindingFault(i))
  {
    forall b: Binding ensures GoodBinding(b) <==> !BadBinding(b) {
    }
    if forall i: nat :: !HasFault(p, BindingFault(i)) {
      forall b | b in p.bindings ensures GoodBinding(b) {
        var i :| 0 <= i < |p.bindings| && p.bindings[i] == b;
        assert !HasFault(p, BindingFault(i));
      }
    }
  }

  lemma FrameBindingsHaveNoFault(p: Profile)
    requires p.frame.enabled
    ensures (forall b :: b in p.frame.bindings ==> GoodFrameBinding(b)) <==>
            forall i: nat :: !HasFault(p, FrameBindingFault(i))
  {
    forall b: FrameBinding ensures GoodFrameBinding(b) <==> !BadFrameBinding(b) {
      FrameBindingIsGood(b);
    }
    if forall i: nat :: !HasFault(p, FrameBindingFault(i)) {
      forall b | b in p.frame.bindings ensures GoodFrameBinding(b) {
        var i :| 0 <= i < |p.frame.bindings| && p.frame.bindings[i] == b;
        assert !HasFault(p, FrameBindingFault(i));
      }
    }
  }

  lemma FrameBindingIsGood(b: FrameBinding)
    ensures GoodFrameBinding(b) <==> !BadFrameBinding(b)
  {
  }

  lemma ContractHasNoFault(p: Profile)
    ensures GoodContract(p) <==>
      && !HasFault(p, UnknownKind) && !HasFault(p, NothingToCheck) && !HasFault(p, BadSource) && !HasFault(p, BadBasePath)
      && !HasFault(p, BindingsWithOpenApi) && (forall i: nat :: !HasFault(p, BindingFault(i)))
      && !HasFault(p, FramesWithOpenApi) && !HasFault(p, NoFrameSchema)
      && (forall i: nat :: !HasFault(p, FrameBindingFault(i)))
  {
    BindingsHaveNoFault(p);
    if p.frame.enabled {
      FrameBindingsHaveNoFault(p);
    }
  }

  lemma LimitsHaveNoFault(p: Profile)
    ensures GoodLimits(p) <==>
      && !HasFault(p, BadAuditValues) && !HasFault(p, BadBodyLimit) && !HasFault(p, BadDepthLimit)
      && !HasFault(p, BadErrorLimit) && !HasFault(p, BadCacheLimit)
  {
  }

  /** What is checked in every profile. */
  predicate GoodAlways(p: Profile) {
    && p.mode in [ENFORCE, OBSERVE, OFF]
    && (forall k :: 0 <= k < |p.prior| ==> GoodPrior(p.prior[k]))
    && GoodOutcomes("request", p.request.outcomes) && GoodOutcomes("response", p.response.outcomes)
    && GoodOutcomes("frame.c2s", p.frame.c2s.outcomes) && GoodOutcomes("frame.s2c", p.frame.s2c.outcomes)
  }

  lemma OutcomesHaveNoFault(p: Profile, part: Part)
    ensures GoodOutcomes(SectionOf(part), Outcomes(p, part)) <==>
            forall i: nat, f :: !HasFault(p, OfOutcome(part, i, f))
  {
    forall i: nat | i < |Outcomes(p, part)|
      ensures GoodOutcome(SectionOf(part), Outcomes(p, part)[i]) <==> forall f :: !HasFault(p, OfOutcome(part, i, f))
    {
      OutcomesAreRefusedExactly(SectionOf(part), Outcomes(p, part)[i]);
      OneOutcomeHasNoFault(p, part, i);
    }
  }

  lemma OneOutcomeHasNoFault(p: Profile, part: Part, i: nat)
    requires i < |Outcomes(p, part)|
    ensures NoOutcomeFault(SectionOf(part), Outcomes(p, part)[i]) <==> forall f :: !HasFault(p, OfOutcome(part, i, f))
  {
    if forall f :: !HasFault(p, OfOutcome(part, i, f)) {
      forall f ensures !HasOutcomeFault(SectionOf(part), Outcomes(p, part)[i], f) {
        assert !HasFault(p, OfOutcome(part, i, f));
      }
    }
  }

  lemma PriorHasNoFault(p: Profile)
    ensures (forall k :: 0 <= k < |p.prior| ==> GoodPrior(p.prior[k])) <==> forall i: nat :: !HasFault(p, PriorFault(i))
  {
    forall r: Prior.PriorRule ensures GoodPrior(r) <==> !BadPriorRule(r) {
      PriorRuleIsGood(r);
    }
    if forall i: nat :: !HasFault(p, PriorFault(i)) {
      forall k: nat | k < |p.prior| ensures GoodPrior(p.prior[k]) {
        assert !HasFault(p, PriorFault(k));
      }
    }
  }

  lemma AlwaysHasNoFault(p: Profile)
    ensures GoodAlways(p) <==> forall f :: Always(f) ==> !HasFault(p, f)
  {
    PriorHasNoFault(p);
    PartsHaveNoFault(p);
    FourParts(p);
    assert p.mode in [ENFORCE, OBSERVE, OFF] <==> !HasFault(p, UnknownMode);
    if GoodAlways(p) {
      forall f | Always(f) ensures !HasFault(p, f) {
        if f.OfOutcome? {
          assert OutcomesFaultless(p, f.part);
          assert !HasFault(p, OfOutcome(f.part, f.i, f.f));
        } else if f.PriorFault? {
          assert !HasFault(p, PriorFault(f.i));
        }
      }
    }
    if forall f :: Always(f) ==> !HasFault(p, f) {
      forall part ensures OutcomesFaultless(p, part) {
        assert forall i: nat, f :: Always(OfOutcome(part, i, f)) && !HasFault(p, OfOutcome(part, i, f));
      }
      assert forall i: nat :: Always(PriorFault(i)) && !HasFault(p, PriorFault(i));
    }
  }

  predicate OutcomesGood(p: Profile, part: Part) {
    GoodOutcomes(SectionOf(part), Outcomes(p, part))
  }

  ghost predicate OutcomesFaultless(p: Profile, part: Part) {
    forall i: nat, f :: !HasFault(p, OfOutcome(part, i, f))
  }

  lemma FourParts(p: Profile)
    ensures GoodOutcomes("request", p.request.outcomes) && GoodOutcomes("response", p.response.outcomes)
            && GoodOutcomes("frame.c2s", p.frame.c2s.outcomes) && GoodOutcomes("frame.s2c", p.frame.s2c.outcomes)
       <==> forall part :: OutcomesGood(p, part)
  {
    assert (forall part :: OutcomesGood(p, part)) <==>
      OutcomesGood(p, Requests) && OutcomesGood(p, Responses) && OutcomesGood(p, FromClient) && OutcomesGood(p, FromServer);
  }

  lemma PartsHaveNoFault(p: Profile)
    ensures (forall part :: OutcomesGood(p, part)) <==> forall part :: OutcomesFaultless(p, part)
  {
    forall part ensures OutcomesGood(p, part) <==> OutcomesFaultless(p, part) {
      OutcomesHaveNoFault(p, part);
    }
  }

  /** What is checked in a profile that is not off. */
  predicate GoodWhenOn(p: Profile) {
    GoodContract(p) && GoodTables(p) && GoodLimits(p)
  }

  lemma TablesHaveNoFault(p: Profile)
    ensures GoodTables(p) <==> !HasFault(p, AllPhasesOff) && forall part :: PartFaultless(p, part)
  {
    TablesAreGood(p);
    forall part ensures PartGood(p, part) <==> PartFaultless(p, part) {
      PartHasNoFault(p, part);
    }
  }

  ghost predicate FaultlessOn(p: Profile) {
    forall f :: HasFault(p, f) ==> Always(f)
  }

  lemma OnHasNoFault(p: Profile)
    ensures GoodWhenOn(p) <==> FaultlessOn(p)
  {
    if GoodWhenOn(p) {
      forall f | HasFault(p, f) ensures Always(f) {
        if !Always(f) {
          SingleFaults(p, f);
        }
      }
    }
    if FaultlessOn(p) {
      FaultlessWhenOn(p);
    }
  }

  lemma SingleFaults(p: Profile, f: ProfileFault)
    requires GoodContract(p) && GoodTables(p) && GoodLimits(p) && !Always(f)
    ensures !HasFault(p, f)
  {
    ContractHasNoFault(p);
    LimitsHaveNoFault(p);
    TablesHaveNoFault(p);
    if f.RuleFault? {
      assert PartFaultless(p, f.part) && !HasFault(p, RuleFault(f.part, f.i));
    } else if f.NoDenyResponse? {
      assert PartFaultless(p, f.part);
    } else if f.BindingFault? {
      assert !HasFault(p, BindingFault(f.i));
    } else if f.FrameBindingFault? {
      assert !HasFault(p, FrameBindingFault(f.i));
    }
  }

  lemma FaultlessWhenOn(p: Profile)
    requires FaultlessOn(p)
    ensures GoodWhenOn(p)
  {
    FaultlessContract(p);
    FaultlessTables(p);
    assert !HasFault(p, BadAuditValues) && !HasFault(p, BadBodyLimit) && !HasFault(p, BadDepthLimit);
    assert !HasFault(p, BadErrorLimit) && !HasFault(p, BadCacheLimit);
    LimitsHaveNoFault(p);
  }

  lemma FaultlessContract(p: Profile)
    requires FaultlessOn(p)
    ensures GoodContract(p)
  {
    assert !HasFault(p, UnknownKind) && !HasFault(p, NothingToCheck) && !HasFault(p, BadSource) && !HasFault(p, BadBasePath);
    assert !HasFault(p, BindingsWithOpenApi) && !HasFault(p, FramesWithOpenApi) && !HasFault(p, NoFrameSchema);
    forall i: nat ensures !HasFault(p, BindingFault(i)) && !HasFault(p, FrameBindingFault(i)) {
      assert !Always(BindingFault(i)) && !Always(FrameBindingFault(i));
    }
    ContractHasNoFault(p);
  }

  lemma FaultlessTables(p: Profile)
    requires FaultlessOn(p)
    ensures GoodTables(p)
  {
    assert !HasFault(p, AllPhasesOff);
    forall part ensures PartFaultless(p, part) {
      assert !Always(NoDenyResponse(part)) && forall i: nat :: !Always(RuleFault(part, i));
    }
    TablesHaveNoFault(p);
  }

  /** Validation accepts a profile exactly when it has no fault, where one that is off is only looked at for its mode, its
      prior rules and its outcomes. */
  lemma ProfilesAreRefusedExactly(p: Profile)
    ensures GoodProfile(p) <==> Faultless(p)
  {
    AlwaysHasNoFault(p);
    OnHasNoFault(p);
  }
}
