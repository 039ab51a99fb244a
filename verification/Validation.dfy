/**
 Validating one message against the contract of its profile: the phases, the checks of the body, and the
 result of the contract. Of the OpenAPI library only the shapes of its answers are known.
 */
module Validation {
  import opened Basics
  import opened Policy
  import opened Profiles
  import opened Contracts
  import BodyLoader
  import JsonPointer
  import JsonScan

  const OPCODE_TEXT := "text"
  const OPCODE_BINARY := "binary"

  datatype PhaseName = InRequest | InResponse | InFrame

  datatype Stream = Stream(direction: string, opcode: string, subprotocol: string)

  datatype Message = Message(
    phase: PhaseName, method_: string, uri: string, argsSize: int, needsArgs: bool, stream: Option<Stream>)

  /** What the contract of a profile is called with. */
  datatype Call = Call(profile: string, msg: Message, headers: Bytes, args: Bytes, body: Bytes)

  /** What the OpenAPI library answers: the route, and how many findings each validator has. */
  datatype RequestFacts =
    | NoOperation
    | Operation(pathParams: nat, query: nat, headers: nat, declaresBody: bool, requiresBody: bool, typed: bool, body: nat)

  datatype ResponseFacts =
    | NoResponseOperation
    | ResponseOperation(statusFound: bool, declaresContent: bool, typed: bool, body: nat)

  /** The lexer's tokens of a body, how they end, and whether the body is only white space. */
  datatype Lexed = Lexed(toks: seq<JsonScan.Token>, tail: JsonScan.Tail, blank: bool)

  datatype Library = Library(
    lex: Bytes -> Lexed,
    request: Call -> RequestFacts,
    response: Call -> ResponseFacts,
    typeAllowed: Call -> bool)

  /** What is assumed of the lexer: its tokens are a decoder's, and a blank body has none. */
  ghost predicate GoodLexer(lib: Library) {
    forall b: Bytes :: GoodLexed(lib.lex(b))
  }

  predicate GoodLexed(x: Lexed) {
    JsonScan.Delivered(x.toks) && (x.blank ==> x.toks == [])
  }

  datatype Checked = Checked(kind: Kind, errors: nat, skipped: string, fault: string)

  const CLEAN := Checked(Ok, 0, "", "")

  function Found(kind: Kind, errors: nat): Checked {
    Checked(kind, errors, "", "")
  }

  // ------------------------------------------------ findings

  /** The leaves of an error are its findings. */
  function Leaves(e: SchemaError): nat
    decreases e, 0
  {
    if e.causes == [] then 1 else LeavesOf(e.causes)
  }

  function LeavesOf(causes: seq<SchemaError>): nat
    decreases causes, 1
  {
    if causes == [] then 0 else LeavesOf(causes[..|causes| - 1]) + Leaves(causes[|causes| - 1])
  }

  /** How many findings are listed: at most max of them and one that says there are more. */
  function Trimmed(n: nat, max: int): nat {
    if max <= 0 || n <= max then n else max + 1
  }

  lemma {:induction false} ErrorsHaveLeaves(e: SchemaError)
    ensures Leaves(e) >= 1
  {
    if e.causes != [] {
      ErrorsHaveLeaves(e.causes[|e.causes| - 1]);
    }
  }

  // ------------------------------------------------ the body

  /** Nothing, or the result that ends the validation before the contract is asked. */
  function BodyState(lib: Library, b: BodyLoader.Body, limits: Limits): Option<Checked> {
    if b.unavailable != "" then Some(Checked(BodyUnavailable, 1, "", if b.fault then b.unavailable else ""))
    else if b.truncated then Some(Found(Truncated, 1))
    else if b.data == [] then None
    else if limits.maxBody > 0 && |b.data| > limits.maxBody then Some(Found(TooLarge, 1))
    else
      var x := lib.lex(b.data);
      match JsonScan.ScanOutcome(x.toks, x.tail, x.blank, limits.maxDepth)
      case Accepted => None
      case TooDeep => Some(Found(Kind.TooDeep, 1))
      case Trailing => Some(Found(Unparsable, 1))
      case Unfinished => Some(Found(Unparsable, 1))
      case Empty => Some(Found(Unparsable, 1))
      case Malformed => Some(Found(Unparsable, 1))
  }

  function Decoded(lib: Library, body: Bytes): Option<JsonPointer.Doc> {
    match JsonScan.Decode(lib.lex(body).toks)
    case None => None
    case Some(v) => Some(JsonScan.DocOf(v))
  }

  function ByValue(sch: Schema, value: JsonPointer.Doc, limits: Limits): Checked {
    match sch.validate(value)
    case None => CLEAN
    case Some(e) => Found(Mismatch, Trimmed(Leaves(e), limits.maxErrors))
  }

  function BySchema(lib: Library, c: Contract, call: Call, limits: Limits): Checked {
    match PickFrom(c, 0, call.msg.method_, PathOf(call.msg.uri))
    case None => Found(UnknownOperation, 1)
    case Some(sch) =>
      if call.body == [] then CLEAN
      else match Decoded(lib, call.body)
        case None => Found(Mismatch, 1)
        case Some(value) => ByValue(sch, value, limits)
  }

  /** The findings of an OpenAPI check; one that only says the content type is undescribed is a kind of its own. */
  function Finish(n: nat, undescribed: bool): Checked {
    if n == 0 then CLEAN
    else if undescribed && n == 1 then Found(Kind.ContentType, 1)
    else Found(Mismatch, n)
  }

  function ByRequest(lib: Library, c: Contract, call: Call, ch: RequestChecks, limits: Limits): Checked {
    if c.kind == KIND_JSONSCHEMA then (if ch.body then BySchema(lib, c, call, limits) else CLEAN)
    else match lib.request(call)
      case NoOperation => Found(UnknownOperation, 1)
      case Operation(pathParams, query, headers, declaresBody, requiresBody, typed, body) =>
        var max := limits.maxErrors;
        var (n, undescribed) :=
          if !ch.body then (0, false)
          else if call.body == [] then (if declaresBody && requiresBody then 1 else 0, false)
          else if !declaresBody || !typed then (1, true)
          else (Trimmed(body, max), false);
        Finish((if ch.pathParams then Trimmed(pathParams, max) else 0) + (if ch.query then Trimmed(query, max) else 0)
               + (if ch.headers then Trimmed(headers, max) else 0) + n, undescribed)
  }

  function ByResponse(lib: Library, c: Contract, call: Call, ch: ResponseChecks, limits: Limits): Checked {
    if c.kind == KIND_JSONSCHEMA then (if ch.body then BySchema(lib, c, call, limits) else CLEAN)
    else match lib.response(call)
      case NoResponseOperation => Found(UnknownOperation, 1)
      case ResponseOperation(statusFound, declaresContent, typed, body) =>
        if !statusFound then (if ch.status then Found(Kind.Status, 1) else CLEAN)
        else if ch.contentType && call.body != [] && declaresContent && !typed then Finish(1, true)
        else if !ch.body || call.body == [] || !declaresContent || !typed then CLEAN
        else Finish(Trimmed(body, limits.maxErrors), false)
  }

  function ByFrame(lib: Library, c: Contract, call: Call, body: bool, limits: Limits): Checked {
    if !body || call.body == [] then CLEAN
    else match Decoded(lib, call.body)
      case None => Found(Mismatch, 1)
      case Some(value) =>
        match PickFrameFrom(c, 0, FrameOf(call.msg), value)
        case None => Found(UnknownOperation, 1)
        case Some(sch) => ByValue(sch, value, limits)
  }

  // ------------------------------------------------ the phases

  function PathOf(uri: string): string {
    if uri == "" || uri[0] == '?' then "" else [uri[0]] + PathOf(uri[1..])
  }

  function DirectionOf(msg: Message): string {
    if msg.stream.None? || msg.stream.value.direction == "" then C2S else msg.stream.value.direction
  }

  function OpcodeOf(msg: Message): string {
    if msg.stream.None? || msg.stream.value.opcode == "" then OPCODE_TEXT else msg.stream.value.opcode
  }

  function FrameOf(msg: Message): Contracts.Frame {
    Contracts.Frame(PathOf(msg.uri), DirectionOf(msg), if msg.stream.None? then "" else msg.stream.value.subprotocol)
  }

  datatype Input = Input(msg: Message, profile: Profile, contract: Contract,
                         headers: BodyLoader.Body, body: BodyLoader.Body, args: BodyLoader.Body)

  function CallOf(i: Input): Call {
    Call(i.profile.name, i.msg, if i.headers.unavailable == "" then i.headers.data else [], i.args.data, i.body.data)
  }

  /** The query string is to be checked but was not captured. */
  predicate ArgsMissing(i: Input) {
    i.profile.request.checks.query && i.msg.argsSize > 0 && (i.args.unavailable != "" || !i.msg.needsArgs)
  }

  /** A missing query string shows only when nothing else is wrong. */
  function Merge(c: Checked, deferred: bool): Checked {
    if c.kind.Ok? && deferred then c.(kind := ArgsUnavailable, errors := 1) else c
  }

  function RequestRun(lib: Library, i: Input): Checked {
    var p := i.profile;
    var stop := if p.request.checks.body then BodyState(lib, i.body, p.limits) else None;
    if stop.Some? then stop.value
    else Merge(ByRequest(lib, i.contract, CallOf(i), p.request.checks, p.limits), ArgsMissing(i))
         .(fault := if ArgsMissing(i) && i.args.fault then i.args.unavailable else "")
  }

  function ResponseRun(lib: Library, i: Input): Checked {
    var p := i.profile;
    if i.body.data != [] && !lib.typeAllowed(CallOf(i)) then Checked(Ok, 0, "content_type_filtered", "")
    else
      var stop := if p.response.checks.body then BodyState(lib, i.body, p.limits) else None;
      if stop.Some? then stop.value
      else ByResponse(lib, i.contract, CallOf(i), p.response.checks, p.limits)
  }

  function FrameRun(lib: Library, i: Input): Checked {
    var dir := Direction(i.profile.frame, DirectionOf(i.msg));
    if !dir.body then Checked(Ok, 0, "body_check_off", "")
    else if OpcodeOf(i.msg) == OPCODE_BINARY then Found(Kind.Opcode, 1)
    else
      var stop := BodyState(lib, i.body, i.profile.limits);
      if stop.Some? then stop.value
      else ByFrame(lib, i.contract, CallOf(i), dir.body, i.profile.limits)
  }

  function Run(lib: Library, i: Input): Checked {
    match i.msg.phase
    case InRequest => RequestRun(lib, i)
    case InResponse => ResponseRun(lib, i)
    case InFrame => FrameRun(lib, i)
  }

  // ------------------------------------------------ which rule answers

  predicate PhaseEnabled(p: Profile, phase: PhaseName) {
    match phase
    case InRequest => p.request.enabled
    case InResponse => p.response.enabled
    case InFrame => p.frame.enabled
  }

  function TableOf(p: Profile, msg: Message): seq<NamedRule> {
    match msg.phase
    case InRequest => RequestTable(p.request.rules)
    case InResponse => ResponseTable(p.response.rules)
    case InFrame => FrameTable(Direction(p.frame, DirectionOf(msg)).rules)
  }

  function DenyName(p: Profile, msg: Message): string {
    match msg.phase
    case InRequest => p.request.denyResponse
    case InResponse => p.response.denyResponse
    case InFrame => Direction(p.frame, DirectionOf(msg)).denyResponse
  }

  function OutcomesOf(p: Profile, msg: Message): seq<Outcome> {
    match msg.phase
    case InRequest => p.request.outcomes
    case InResponse => p.response.outcomes
    case InFrame => Direction(p.frame, DirectionOf(msg)).outcomes
  }

  /** The kinds a phase can come to. */
  predicate KindOf(phase: PhaseName, k: Kind) {
    match phase
    case InRequest => !k.Status? && !k.Opcode?
    case InResponse => !k.ArgsUnavailable? && !k.Opcode?
    case InFrame => !k.ContentType? && !k.Status? && !k.ArgsUnavailable?
  }

  lemma RunGivesKindOfPhase(lib: Library, i: Input)
    ensures KindOf(i.msg.phase, Run(lib, i).kind)
  {
  }

  /** The profile's rule for an outcome, field by field; a phase has none for the outcomes it cannot have. */
  function RequestRule(r: RequestRules, k: Kind): Option<Rule> {
    if k.Mismatch? || k.TooDeep? then Some(r.invalid)
    else if k.Unparsable? then Some(r.unparsable)
    else if k.Truncated? || k.TooLarge? then Some(r.truncated)
    else if k.UnknownOperation? then Some(r.unknownOperation)
    else if k.ContentType? then Some(r.contentType)
    else if k.BodyUnavailable? || k.ArgsUnavailable? then Some(r.unavailable)
    else None
  }

  function ResponseRule(r: ResponseRules, k: Kind): Option<Rule> {
    if k.Status? then Some(r.status) else RequestRule(r.base, k)
  }

  function FrameRule(r: FrameRules, k: Kind): Option<Rule> {
    if k.Mismatch? || k.TooDeep? then Some(r.invalid)
    else if k.Unparsable? then Some(r.unparsable)
    else if k.Truncated? || k.TooLarge? then Some(r.truncated)
    else if k.UnknownOperation? then Some(r.unknownOperation)
    else if k.Opcode? then Some(r.opcode)
    else if k.BodyUnavailable? then Some(r.unavailable)
    else None
  }

  /** The settings of the direction a frame goes: the server's only where the stream says so. */
  function DirectionSettings(p: Profile, msg: Message): FrameDirection {
    if msg.stream.Some? && msg.stream.value.direction == "s2c" then p.frame.s2c else p.frame.c2s
  }

  function RuleOf(p: Profile, msg: Message, k: Kind): Option<Rule> {
    match msg.phase
    case InRequest => RequestRule(p.request.rules, k)
    case InResponse => ResponseRule(p.response.rules, k)
    case InFrame => FrameRule(DirectionSettings(p, msg).rules, k)
  }

  function ResponseName(p: Profile, msg: Message): string {
    match msg.phase
    case InRequest => p.request.denyResponse
    case InResponse => p.response.denyResponse
    case InFrame => DirectionSettings(p, msg).denyResponse
  }

  /** The place of a kind's rule in the table of its phase. */
  function Place(phase: PhaseName, k: Kind): nat
    requires !k.Ok?
  {
    match PolicyKey(k)
    case KInvalid => 0
    case KUnparsable => 1
    case KTruncated => 2
    case KUnknownOperation => 3
    case KContentType => 4
    case KOpcode => 4
    case KUnavailable => 5
    case KStatus => 6
  }

  /** Every kind of a phase has its place in the phase's table. */
  lemma KindHasPlace(p: Profile, msg: Message, k: Kind)
    requires !k.Ok? && KindOf(msg.phase, k)
    ensures Place(msg.phase, k) < |TableOf(p, msg)| && TableOf(p, msg)[Place(msg.phase, k)].key == PolicyKey(k)
    ensures forall i, j :: 0 <= i < j < |TableOf(p, msg)| ==> TableOf(p, msg)[i].key != TableOf(p, msg)[j].key
  {
  }

  lemma PlaceIsField(p: Profile, msg: Message, k: Kind)
    requires !k.Ok? && KindOf(msg.phase, k) && Place(msg.phase, k) < |TableOf(p, msg)|
    ensures RuleOf(p, msg, k) == Some(TableOf(p, msg)[Place(msg.phase, k)].rule)
    ensures DenyName(p, msg) == ResponseName(p, msg)
  {
  }

  lemma GoodPhase(p: Profile, msg: Message)
    requires GoodProfile(p) && p.mode != OFF && PhaseEnabled(p, msg.phase)
    ensures GoodTable(TableOf(p, msg), DenyName(p, msg))
  {
  }

  /** Whatever validation comes to, other than ok, the table of the phase has a rule for it; in a validated
      profile with the phase enabled that rule is a good one, and a denying one comes with a response name. */
  lemma RunHasRule(lib: Library, i: Input)
    requires !Run(lib, i).kind.Ok?
    ensures var k, table := Run(lib, i).kind, TableOf(i.profile, i.msg);
      && Place(i.msg.phase, k) < |table|
      && table[Place(i.msg.phase, k)].key == PolicyKey(k)
      && PolicyKey(k) in TableMap(table)
      && TableMap(table)[PolicyKey(k)] == table[Place(i.msg.phase, k)].rule
      && RuleOf(i.profile, i.msg, k) == Some(table[Place(i.msg.phase, k)].rule)
    ensures GoodProfile(i.profile) && i.profile.mode != OFF && PhaseEnabled(i.profile, i.msg.phase) ==>
      var r := RuleOf(i.profile, i.msg, Run(lib, i).kind).value;
      GoodRule(r) && (r.action == ACTION_DENY ==> ResponseName(i.profile, i.msg) != "")
  {
    RunGivesKindOfPhase(lib, i);
    KindHasRule(i.profile, i.msg, Run(lib, i).kind);
  }

  lemma KindHasRule(p: Profile, msg: Message, k: Kind)
    requires !k.Ok? && KindOf(msg.phase, k)
    ensures var table := TableOf(p, msg);
      && Place(msg.phase, k) < |table|
      && table[Place(msg.phase, k)].key == PolicyKey(k)
      && PolicyKey(k) in TableMap(table)
      && TableMap(table)[PolicyKey(k)] == table[Place(msg.phase, k)].rule
      && RuleOf(p, msg, k) == Some(table[Place(msg.phase, k)].rule)
    ensures GoodProfile(p) && p.mode != OFF && PhaseEnabled(p, msg.phase) ==>
      var r := TableMap(TableOf(p, msg))[PolicyKey(k)];
      GoodRule(r) && (r.action == ACTION_DENY ==> DenyName(p, msg) != "")
  {
    KindHasPlace(p, msg, k);
    PlaceIsField(p, msg, k);
    TableMapHolds(TableOf(p, msg), Place(msg.phase, k));
    if GoodProfile(p) && p.mode != OFF && PhaseEnabled(p, msg.phase) {
      GoodPhase(p, msg);
    }
  }

  // ------------------------------------------------ what ok means

  /** The body is one JSON value within the limits. */
  ghost predicate IsValue(lib: Library, b: Bytes, limits: Limits, v: JsonScan.Json) {
    var x := lib.lex(b);
    && (limits.maxBody > 0 ==> |b| <= limits.maxBody)
    && x.tail.Eof? && JsonScan.Serialises(x.toks, v, limits.maxDepth)
  }

  /** The value does not nest deeper than the decoder takes. */
  predicate Decodable(v: JsonScan.Json) {
    JsonScan.Depth(v) <= JsonScan.MAX_NESTING
  }

  /** The body can be read at all. */
  predicate Readable(b: BodyLoader.Body) {
    b.unavailable == "" && !b.truncated
  }

  /** The scan accepts a body of allowed size exactly when it is blank or one value within the limits. */
  lemma ScannedIsValue(lib: Library, b: Bytes, limits: Limits)
    requires GoodLexed(lib.lex(b)) && (limits.maxBody > 0 ==> |b| <= limits.maxBody)
    ensures var x := lib.lex(b);
      JsonScan.ScanOutcome(x.toks, x.tail, x.blank, limits.maxDepth).Accepted?
      <==> BlankWithin(lib, b, limits) || exists v :: IsValue(lib, b, limits, v)
  {
    var x := lib.lex(b);
    JsonScan.ScanAcceptsExactly(x.toks, x.tail, x.blank, limits.maxDepth);
    if JsonScan.ScanOutcome(x.toks, x.tail, x.blank, limits.maxDepth).Accepted? && !x.blank {
      var v :| JsonScan.Serialises(x.toks, v, limits.maxDepth);
      assert IsValue(lib, b, limits, v);
    }
    if v :| IsValue(lib, b, limits, v) {
      assert JsonScan.Serialises(x.toks, v, limits.maxDepth);
    }
  }

  /** A body that gets past the checks is empty, blank, or one value within the limits, which is the one decoded
      unless it nests deeper than the decoder takes. */
  lemma PassedBodyIsValue(lib: Library, b: BodyLoader.Body, limits: Limits)
    requires GoodLexer(lib)
    ensures BodyState(lib, b, limits).None? <==>
      Readable(b) && (b.data == [] || BlankWithin(lib, b.data, limits) || exists v :: IsValue(lib, b.data, limits, v))
    ensures forall v :: IsValue(lib, b.data, limits, v) ==>
      Decoded(lib, b.data) == if Decodable(v) then Some(JsonScan.DocOf(v)) else None
    ensures lib.lex(b.data).blank ==> Decoded(lib, b.data).None?
  {
    assert GoodLexed(lib.lex(b.data));
    if limits.maxBody > 0 ==> |b.data| <= limits.maxBody {
      ScannedIsValue(lib, b.data, limits);
    }
    forall v | IsValue(lib, b.data, limits, v)
      ensures Decoded(lib, b.data) == if Decodable(v) then Some(JsonScan.DocOf(v)) else None
    {
      JsonScan.DecodeInvertsTokens(v);
    }
  }

  /** Why a body stops the validation: the first of these that holds. A value that nests too deep is told as
      such whatever follows it, as long as the body is not too large to look at. */
  lemma StoppedBody(lib: Library, b: BodyLoader.Body, limits: Limits, v: JsonScan.Json, more: seq<JsonScan.Token>)
    ensures var large := limits.maxBody > 0 && |b.data| > limits.maxBody;
      && (b.unavailable != "" <==> KindAfter(lib, b, limits) == Some(BodyUnavailable))
      && (b.unavailable == "" && b.truncated <==> KindAfter(lib, b, limits) == Some(Truncated))
      && (Readable(b) && b.data != [] && large <==> KindAfter(lib, b, limits) == Some(TooLarge))
      && ((Readable(b) && b.data != [] && !large && Deeper(lib, b.data, limits, v, more))
          ==> KindAfter(lib, b, limits) == Some(Kind.TooDeep))
  {
    if Deeper(lib, b.data, limits, v, more) {
      var x := lib.lex(b.data);
      JsonScan.TooDeepIsReported(v, more, x.tail, x.blank, limits.maxDepth);
    }
  }

  /** The body starts with a value that nests deeper than it may. */
  predicate Deeper(lib: Library, b: Bytes, limits: Limits, v: JsonScan.Json, more: seq<JsonScan.Token>) {
    lib.lex(b).toks == JsonScan.Tokens(v) + more && 0 < limits.maxDepth < JsonScan.Depth(v)
  }

  function KindAfter(lib: Library, b: BodyLoader.Body, limits: Limits): Option<Kind> {
    match BodyState(lib, b, limits)
    case None => None
    case Some(c) => Some(c.kind)
  }

  ghost predicate BlankWithin(lib: Library, b: Bytes, limits: Limits) {
    lib.lex(b).blank && lib.lex(b).tail.Eof? && (limits.maxBody > 0 ==> |b| <= limits.maxBody)
  }

  ghost predicate Conforms(lib: Library, b: Bytes, limits: Limits, sch: Schema) {
    b == [] || exists v :: IsValue(lib, b, limits, v) && Decodable(v) && sch.validate(JsonScan.DocOf(v)).None?
  }

  /** Under a JSON Schema contract a request whose body is checked is ok exactly when its body can be read,
      some schema is bound to the call, the body is empty or one value within the limits that satisfies
      this schema, and no query string is missing that was to be checked. */
  lemma RequestOkMeansConforms(lib: Library, i: Input)
    requires GoodLexer(lib)
    requires i.msg.phase.InRequest? && i.contract.kind == KIND_JSONSCHEMA && i.profile.request.checks.body
    ensures Run(lib, i).kind.Ok? <==>
      var sch := PickFrom(i.contract, 0, i.msg.method_, PathOf(i.msg.uri));
      && Readable(i.body) && sch.Some?
      && Conforms(lib, i.body.data, i.profile.limits, sch.value)
      && !ArgsMissing(i)
  {
    PassedBodyIsValue(lib, i.body, i.profile.limits);
  }

  predicate FrameFits(i: Input, value: JsonPointer.Doc) {
    var sch := PickFrameFrom(i.contract, 0, FrameOf(i.msg), value);
    sch.Some? && sch.value.validate(value).None?
  }

  /** The same for a frame, whose schema is picked by what the frame says. */
  lemma FrameOkMeansConforms(lib: Library, i: Input)
    requires GoodLexer(lib)
    requires i.msg.phase.InFrame? && Direction(i.profile.frame, DirectionOf(i.msg)).body
    ensures Run(lib, i).kind.Ok? <==>
      && OpcodeOf(i.msg) != OPCODE_BINARY && Readable(i.body)
      && (i.body.data == [] || exists v :: IsValue(lib, i.body.data, i.profile.limits, v) && Decodable(v) && FrameFits(i, JsonScan.DocOf(v)))
  {
    PassedBodyIsValue(lib, i.body, i.profile.limits);
  }

  predicate Consistent(c: Checked) {
    c.kind.Ok? <==> c.errors == 0
  }

  lemma ByValueIsConsistent(sch: Schema, value: JsonPointer.Doc, limits: Limits)
    ensures Consistent(ByValue(sch, value, limits))
  {
    if sch.validate(value).Some? {
      ErrorsHaveLeaves(sch.validate(value).value);
    }
  }

  lemma BySchemaIsConsistent(lib: Library, c: Contract, call: Call, limits: Limits)
    ensures Consistent(BySchema(lib, c, call, limits))
  {
    var sch := PickFrom(c, 0, call.msg.method_, PathOf(call.msg.uri));
    var value := Decoded(lib, call.body);
    if sch.Some? && value.Some? {
      ByValueIsConsistent(sch.value, value.value, limits);
    }
  }

  lemma ByFrameIsConsistent(lib: Library, c: Contract, call: Call, body: bool, limits: Limits)
    ensures Consistent(ByFrame(lib, c, call, body, limits))
  {
    var value := Decoded(lib, call.body);
    if value.Some? && PickFrameFrom(c, 0, FrameOf(call.msg), value.value).Some? {
      ByValueIsConsistent(PickFrameFrom(c, 0, FrameOf(call.msg), value.value).value, value.value, limits);
    }
  }

  lemma BodyStateIsConsistent(lib: Library, b: BodyLoader.Body, limits: Limits)
    ensures BodyState(lib, b, limits).Some? ==> Consistent(BodyState(lib, b, limits).value)
  {
  }

  /** Something is reported exactly when the result is not ok. */
  lemma NotOkMeansFindings(lib: Library, i: Input)
    ensures Consistent(Run(lib, i))
  {
    BodyStateIsConsistent(lib, i.body, i.profile.limits);
    BySchemaIsConsistent(lib, i.contract, CallOf(i), i.profile.limits);
    if i.msg.phase.InFrame? {
      ByFrameIsConsistent(lib, i.contract, CallOf(i), Direction(i.profile.frame, DirectionOf(i.msg)).body, i.profile.limits);
    }
  }

  /** A store failure is reported exactly when a body that was needed failed to load: the body when it is
      looked at, or the query string when the body did not already end the validation. */
  lemma FaultMeansStoreFailed(lib: Library, i: Input)
    requires (i.body.fault ==> i.body.unavailable != "" && i.body.data == [])
    requires (i.args.fault ==> i.args.unavailable != "")
    ensures Run(lib, i).fault != "" <==>
      match i.msg.phase
      case InRequest =>
        if i.profile.request.checks.body && BodyState(lib, i.body, i.profile.limits).Some? then i.body.fault
        else i.profile.request.checks.query && i.msg.argsSize > 0 && i.args.fault
      case InResponse => i.profile.response.checks.body && i.body.fault
      case InFrame =>
        Direction(i.profile.frame, DirectionOf(i.msg)).body && OpcodeOf(i.msg) != OPCODE_BINARY && i.body.fault
  {
  }
}
