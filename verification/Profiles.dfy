/** A profile and the checks it passes before it is used. */
module Profiles {
  import opened Basics
  import opened Text
  import opened Policy
  import Prior

  const KIND_OPENAPI := "openapi"
  const KIND_JSONSCHEMA := "jsonschema"
  const MATCH_EXACT := "exact"
  const MATCH_PREFIX := "prefix"
  const C2S := "c2s"
  const S2C := "s2c"
  const ANY_DIRECTION := "any"

  datatype Binding = Binding(methods: seq<string>, path: string, match_: string, schema: string)

  datatype Discriminator = Discriminator(pointer: string, value: string)

  datatype FrameBinding = FrameBinding(
    path: string, match_: string, direction: string, subprotocol: string,
    discriminator: Option<Discriminator>, schema: string)

  datatype RequestChecks = RequestChecks(body: bool, query: bool, pathParams: bool, headers: bool)

  datatype ResponseChecks = ResponseChecks(body: bool, status: bool, contentType: bool)

  datatype RequestPhase = RequestPhase(
    enabled: bool, checks: RequestChecks, rules: RequestRules, denyResponse: string, outcomes: seq<Outcome>)

  datatype ResponsePhase = ResponsePhase(
    enabled: bool, checks: ResponseChecks, rules: ResponseRules, denyResponse: string, outcomes: seq<Outcome>)

  datatype FrameDirection = FrameDirection(
    body: bool, rules: FrameRules, denyResponse: string, outcomes: seq<Outcome>)

  datatype FramePhase = FramePhase(enabled: bool, bindings: seq<FrameBinding>, c2s: FrameDirection, s2c: FrameDirection)

  datatype Limits = Limits(maxBody: int, maxDepth: int, maxErrors: int, cache: int)

  datatype Profile = Profile(
    name: string, mode: string, kind: string, source: string, basePath: string,
    prior: seq<Prior.PriorRule>, request: RequestPhase, response: ResponsePhase, frame: FramePhase,
    bindings: seq<Binding>, limits: Limits, auditValues: string, documents: map<string, Bytes>)

  function Direction(f: FramePhase, name: string): FrameDirection {
    if name == S2C then f.s2c else f.c2s
  }

  // ------------------------------------------------ validation

  predicate Rooted(path: string) { path != "" && path[0] == '/' }

  predicate GoodPrior(r: Prior.PriorRule) {
    && r.from != "" && r.from != "*"
    && r.accept != [] && (forall v :: v in r.accept ==> v == Prior.DO_THRESHOLD || v == Prior.DO_SKIP)
    && (forall a :: a in r.apply ==> a == Prior.APPLY_REQUEST)
  }

  predicate GoodBinding(b: Binding) {
    && ObjectName(b.schema) && Rooted(b.path)
    && (b.match_ == MATCH_EXACT || b.match_ == MATCH_PREFIX)
    && forall m :: m in b.methods ==> MethodName(m)
  }

  predicate GoodFrameBinding(b: FrameBinding) {
    && ObjectName(b.schema) && Rooted(b.path)
    && (b.match_ == MATCH_EXACT || b.match_ == MATCH_PREFIX)
    && b.direction in [C2S, S2C, ANY_DIRECTION]
    && (b.discriminator.Some? ==> Rooted(b.discriminator.value.pointer) && b.discriminator.value.value != "")
  }

  predicate GoodOutcomes(section: string, outcomes: seq<Outcome>) {
    forall k :: 0 <= k < |outcomes| ==> GoodOutcome(section, outcomes[k])
  }

  /** Validate: a profile that is off is checked for its mode, its prior rules and its outcomes only. */
  predicate GoodProfile(p: Profile) {
    && p.mode in [ENFORCE, OBSERVE, OFF]
    && (forall k :: 0 <= k < |p.prior| ==> GoodPrior(p.prior[k]))
    && GoodOutcomes("request", p.request.outcomes) && GoodOutcomes("response", p.response.outcomes)
    && GoodOutcomes("frame.c2s", p.frame.c2s.outcomes) && GoodOutcomes("frame.s2c", p.frame.s2c.outcomes)
    && (p.mode != OFF ==> GoodContract(p) && GoodTables(p) && GoodLimits(p))
  }

  predicate GoodContract(p: Profile) {
    && (p.kind == KIND_OPENAPI || p.kind == KIND_JSONSCHEMA)
    && (p.source != "" || p.bindings != [] || p.frame.bindings != [])
    && (p.source != "" ==> ObjectName(p.source))
    && (p.basePath != "" ==> p.basePath[0] == '/')
    && (p.bindings != [] ==> p.kind != KIND_OPENAPI && forall b :: b in p.bindings ==> GoodBinding(b))
    && (p.frame.enabled ==>
          && p.kind == KIND_JSONSCHEMA && (p.frame.bindings != [] || p.source != "")
          && forall b :: b in p.frame.bindings ==> GoodFrameBinding(b))
  }

  predicate GoodTables(p: Profile) {
    && (p.request.enabled || p.response.enabled || p.frame.enabled)
    && (p.request.enabled ==> GoodTable(RequestTable(p.request.rules), p.request.denyResponse))
    && (p.response.enabled ==> GoodTable(ResponseTable(p.response.rules), p.response.denyResponse))
    && (p.frame.enabled ==>
          && GoodTable(FrameTable(p.frame.c2s.rules), p.frame.c2s.denyResponse)
          && GoodTable(FrameTable(p.frame.s2c.rules), p.frame.s2c.denyResponse))
  }

  predicate GoodLimits(p: Profile) {
    && (p.auditValues == "off" || p.auditValues == "hash")
    && p.limits.maxBody > 0 && p.limits.maxDepth >= 1 && p.limits.maxErrors >= 0 && p.limits.cache >= 0
  }

  method ValidateOutcomes(section: string, outcomes: seq<Outcome>) returns (ok: bool)
    ensures ok <==> GoodOutcomes(section, outcomes)
  {
    for i := 0 to |outcomes|
      invariant forall k :: 0 <= k < i ==> GoodOutcome(section, outcomes[k])
    {
      if !GoodOutcome(section, outcomes[i]) {
        return false;
      }
    }
    return true;
  }

  method ValidateAllOutcomes(p: Profile) returns (ok: bool)
    ensures ok <==>
      && GoodOutcomes("request", p.request.outcomes) && GoodOutcomes("response", p.response.outcomes)
      && GoodOutcomes("frame.c2s", p.frame.c2s.outcomes) && GoodOutcomes("frame.s2c", p.frame.s2c.outcomes)
  {
    ok := ValidateOutcomes("request", p.request.outcomes);
    if ok {
      ok := ValidateOutcomes("response", p.response.outcomes);
    }
    if ok {
      ok := ValidateOutcomes("frame.c2s", p.frame.c2s.outcomes);
    }
    if ok {
      ok := ValidateOutcomes("frame.s2c", p.frame.s2c.outcomes);
    }
  }

  method ValidateTables(p: Profile) returns (ok: bool)
    ensures ok <==> GoodTables(p)
  {
    if !p.request.enabled && !p.response.enabled && !p.frame.enabled {
      return false;
    }
    ok := true;
    if p.request.enabled {
      ok := ValidateRules(RequestTable(p.request.rules), p.request.denyResponse);
    }
    if ok && p.response.enabled {
      ok := ValidateRules(ResponseTable(p.response.rules), p.response.denyResponse);
    }
    if ok && p.frame.enabled {
      ok := ValidateRules(FrameTable(p.frame.c2s.rules), p.frame.c2s.denyResponse);
      if ok {
        ok := ValidateRules(FrameTable(p.frame.s2c.rules), p.frame.s2c.denyResponse);
      }
    }
  }

  method Validate(p: Profile) returns (ok: bool)
    ensures ok <==> GoodProfile(p)
  {
    if p.mode != ENFORCE && p.mode != OBSERVE && p.mode != OFF {
      return false;
    }
    for i := 0 to |p.prior|
      invariant forall k :: 0 <= k < i ==> GoodPrior(p.prior[k])
    {
      if !GoodPrior(p.prior[i]) {
        return false;
      }
    }
    ok := ValidateAllOutcomes(p);
    if !ok || p.mode == OFF {
      return;
    }
    ok := ValidateTables(p);
    return ok && GoodContract(p) && GoodLimits(p);
  }

  // ------------------------------------------------ the schemas a profile needs

  /** Every name the profile mentions, the empty one excepted. */
  function MentionSet(p: Profile): set<string> {
    ({p.source} + (set b | b in p.bindings :: b.schema) + (set b | b in p.frame.bindings :: b.schema)) - {""}
  }

  predicate Mentions(p: Profile, name: string) {
    name in MentionSet(p)
  }

  function AddSource(out: seq<string>, name: string): seq<string> {
    if name == "" || name in out then out else out + [name]
  }

  predicate NoRepeats(s: seq<string>) {
    forall j, k :: 0 <= j < k < |s| ==> s[j] != s[k]
  }

  method Sources(p: Profile) returns (out: seq<string>)
    ensures NoRepeats(out)
    ensures forall name :: name in out <==> Mentions(p, name)
  {
    out := AddSource([], p.source);
    for i := 0 to |p.bindings|
      invariant NoRepeats(out)
      invariant forall name :: name in out <==>
        name != "" && (p.source == name || exists k :: 0 <= k < i && p.bindings[k].schema == name)
    {
      out := AddSource(out, p.bindings[i].schema);
    }
    for i := 0 to |p.frame.bindings|
      invariant NoRepeats(out)
      invariant forall name :: name in out <==>
        name != "" && (p.source == name || (exists k :: 0 <= k < |p.bindings| && p.bindings[k].schema == name)
                       || exists k :: 0 <= k < i && p.frame.bindings[k].schema == name)
    {
      out := AddSource(out, p.frame.bindings[i].schema);
    }
    forall name ensures name in out <==> Mentions(p, name) {
      assert (exists k :: 0 <= k < |p.bindings| && p.bindings[k].schema == name)
        <==> name in set b | b in p.bindings :: b.schema;
      assert (exists k :: 0 <= k < |p.frame.bindings| && p.frame.bindings[k].schema == name)
        <==> name in set b | b in p.frame.bindings :: b.schema;
    }
  }

  // ------------------------------------------------ matching

  /** The letters strings.EqualFold takes for the same as an ASCII letter. */
  function FoldChar(c: char): char {
    if 'A' <= c <= 'Z' then (c as int + 32) as char
    else if c == '\U{212A}' then 'k'
    else if c == '\U{017F}' then 's'
    else c
  }

  predicate EqualFold(a: string, b: string) {
    |a| == |b| && forall k :: 0 <= k < |a| ==> FoldChar(a[k]) == FoldChar(b[k])
  }

  predicate PathMatches(match_: string, path: string, at: string) {
    && (match_ == MATCH_EXACT ==> path == at)
    && (match_ == MATCH_PREFIX ==> path <= at)
  }

  predicate Matches(b: Binding, method_: string, path: string) {
    && (b.methods == [] || exists m :: m in b.methods && EqualFold(m, method_))
    && PathMatches(b.match_, b.path, path)
  }

  predicate FrameMatches(b: FrameBinding, path: string, direction: string, subprotocol: string) {
    && (b.direction == ANY_DIRECTION || b.direction == "" || b.direction == direction)
    && (b.subprotocol == "" || b.subprotocol == subprotocol)
    && PathMatches(b.match_, b.path, path)
  }
}
