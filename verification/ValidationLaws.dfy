/** What validating a message comes to, kind by kind, for every phase and for both kinds of contract. */
module ValidationLaws {
  import opened Basics
  import opened Policy
  import opened Profiles
  import opened Contracts
  import opened Validation
  import BodyLoader
  import JsonScan

  // ------------------------------------------------ what the checks are told

  /** The part of the address before the question mark. */
  lemma {:induction false} PathEndsAtQuestionMark(uri: string)
    ensures '?' !in PathOf(uri) && |PathOf(uri)| <= |uri| && uri[..|PathOf(uri)|] == PathOf(uri)
    ensures |PathOf(uri)| < |uri| ==> uri[|PathOf(uri)|] == '?'
  {
    if uri != "" && uri[0] != '?' {
      PathEndsAtQuestionMark(uri[1..]);
    }
  }

  /** A stream without a direction is a client's, one without an opcode carries text, and a message without a stream
      is both. */
  lemma StreamDefaults(msg: Message)
    ensures DirectionOf(msg) == if msg.stream.Some? && msg.stream.value.direction != "" then msg.stream.value.direction else "c2s"
    ensures OpcodeOf(msg) == if msg.stream.Some? && msg.stream.value.opcode != "" then msg.stream.value.opcode else "text"
    ensures FrameOf(msg).direction == DirectionOf(msg) && FrameOf(msg).path == PathOf(msg.uri)
    ensures FrameOf(msg).subprotocol == if msg.stream.Some? then msg.stream.value.subprotocol else ""
  {
  }

  /** What the library is asked about: headers only if they could be loaded. */
  function Asked(i: Input): Call {
    Call(i.profile.name, i.msg, if i.headers.unavailable == "" then i.headers.data else [], i.args.data, i.body.data)
  }

  /** The body is there, whole, and empty, blank or one value within the limits. */
  ghost predicate Passes(lib: Library, b: BodyLoader.Body, limits: Limits) {
    && b.unavailable == "" && !b.truncated
    && (b.data == [] || BlankWithin(lib, b.data, limits) || exists v :: IsValue(lib, b.data, limits, v))
  }

  /** The query string is to be checked and there is one, but it was not loaded or not asked for. */
  predicate QueryMissing(i: Input) {
    i.profile.request.checks.query && i.msg.argsSize > 0 && !(i.args.unavailable == "" && i.msg.needsArgs)
  }

  lemma StopsUnlessPasses(lib: Library, b: BodyLoader.Body, limits: Limits)
    requires GoodLexer(lib)
    ensures BodyState(lib, b, limits).None? <==> Passes(lib, b, limits)
    ensures BodyState(lib, b, limits).Some? ==>
      BodyState(lib, b, limits).value.kind in {BodyUnavailable, Truncated, TooLarge, TooDeep, Unparsable}
  {
    PassedBodyIsValue(lib, b, limits);
  }

  /** What a schema that is asked makes of a body that passed. */
  datatype Judgement = Fine | Unbound | Violated

  ghost function JudgedBySchema(lib: Library, body: Bytes, limits: Limits, sch: Option<Schema>): Judgement {
    if sch.None? then Unbound else if Conforms(lib, body, limits, sch.value) then Fine else Violated
  }

  ghost predicate ComesTo(k: Kind, j: Judgement) {
    match j
    case Fine => k.Ok?
    case Unbound => k.UnknownOperation?
    case Violated => k.Mismatch?
  }

  lemma SchemaJudges(lib: Library, c: Contract, call: Call, b: BodyLoader.Body, limits: Limits)
    requires GoodLexer(lib) && call.body == b.data && Passes(lib, b, limits)
    ensures ComesTo(BySchema(lib, c, call, limits).kind,
                    JudgedBySchema(lib, b.data, limits, PickFrom(c, 0, call.msg.method_, PathOf(call.msg.uri))))
  {
    PassedBodyIsValue(lib, b, limits);
    if b.data != [] && BlankWithin(lib, b.data, limits) {
      BlankIsNoValue(lib, b.data, limits);
    }
  }

  lemma BlankIsNoValue(lib: Library, b: Bytes, limits: Limits)
    requires GoodLexer(lib) && lib.lex(b).blank
    ensures forall v :: !IsValue(lib, b, limits, v)
  {
    assert GoodLexed(lib.lex(b));
    forall v ensures !IsValue(lib, b, limits, v) {
      JsonScan.DecodeInvertsTokens(v);
    }
  }

  /** A readable body of allowed size is too deep exactly when its first value opens more brackets than it may, and
      unparsable exactly when it neither does that nor passes. */
  lemma DeepOrUnparsable(lib: Library, b: BodyLoader.Body, limits: Limits)
    requires GoodLexer(lib) && Readable(b) && b.data != [] && (limits.maxBody > 0 ==> |b.data| <= limits.maxBody)
    ensures KindAfter(lib, b, limits) == Some(Kind.TooDeep) <==>
      limits.maxDepth > 0 && JsonScan.OpensDeeper(lib.lex(b.data).toks, limits.maxDepth)
    ensures KindAfter(lib, b, limits) == Some(Unparsable) <==>
      !Passes(lib, b, limits) && KindAfter(lib, b, limits) != Some(Kind.TooDeep)
  {
    assert GoodLexed(lib.lex(b.data));
    StopsUnlessPasses(lib, b, limits);
    JsonScan.TooDeepExactly(lib.lex(b.data).toks, limits.maxDepth);
  }

  // ------------------------------------------------ JSON Schema

  /** A request under a JSON Schema contract whose body is checked: the body decides first, then the schema bound to the
      call, and a missing query string only where nothing else is wrong. */
  lemma RequestBySchema(lib: Library, i: Input)
    requires GoodLexer(lib)
    requires i.msg.phase.InRequest? && i.contract.kind == "jsonschema" && i.profile.request.checks.body
    ensures var k := Run(lib, i).kind;
      var j := JudgedBySchema(lib, i.body.data, i.profile.limits, PickFrom(i.contract, 0, i.msg.method_, PathOf(i.msg.uri)));
      && (!Passes(lib, i.body, i.profile.limits) <==> k in {BodyUnavailable, Truncated, TooLarge, TooDeep, Unparsable})
      && (Passes(lib, i.body, i.profile.limits) ==>
            if j.Fine? && QueryMissing(i) then k.ArgsUnavailable? else ComesTo(k, j))
  {
    StopsUnlessPasses(lib, i.body, i.profile.limits);
    if Passes(lib, i.body, i.profile.limits) {
      SchemaJudges(lib, i.contract, CallOf(i), i.body, i.profile.limits);
    }
  }

  /** A response, the same, if its content type is one to check. */
  lemma ResponseBySchema(lib: Library, i: Input)
    requires GoodLexer(lib)
    requires i.msg.phase.InResponse? && i.contract.kind == "jsonschema" && i.profile.response.checks.body
    requires i.body.data == [] || lib.typeAllowed(Asked(i))
    ensures var k := Run(lib, i).kind;
      && (!Passes(lib, i.body, i.profile.limits) <==> k in {BodyUnavailable, Truncated, TooLarge, TooDeep, Unparsable})
      && (Passes(lib, i.body, i.profile.limits) ==>
            ComesTo(k, JudgedBySchema(lib, i.body.data, i.profile.limits,
                                      PickFrom(i.contract, 0, i.msg.method_, PathOf(i.msg.uri)))))
  {
    StopsUnlessPasses(lib, i.body, i.profile.limits);
    if Passes(lib, i.body, i.profile.limits) {
      SchemaJudges(lib, i.contract, CallOf(i), i.body, i.profile.limits);
    }
  }

  /** Under a JSON Schema contract a response whose body is checked and whose content type is one to check is ok exactly
      when its body can be read, a schema is bound to the call, and the body is empty or one value within the limits
      that satisfies it. */
  lemma ResponseOkMeansConforms(lib: Library, i: Input)
    requires GoodLexer(lib)
    requires i.msg.phase.InResponse? && i.contract.kind == "jsonschema" && i.profile.response.checks.body
    requires i.body.data == [] || lib.typeAllowed(Asked(i))
    ensures Run(lib, i).kind.Ok? <==>
      var sch := PickFrom(i.contract, 0, i.msg.method_, PathOf(i.msg.uri));
      Readable(i.body) && sch.Some? && Conforms(lib, i.body.data, i.profile.limits, sch.value)
  {
    ResponseBySchema(lib, i);
  }

  /** What is listed of n findings: all of them, or as many as allowed and one that says there are more. */
  predicate ListedOf(n: nat, max: int, listed: nat) {
    if 0 < max < n then listed == max + 1 else listed == n
  }

  /** A value that violates its schema is counted by the leaves of the violation, up to the limit of the profile. */
  lemma ViolationsAreListed(lib: Library, i: Input, v: JsonScan.Json)
    requires GoodLexer(lib) && !i.msg.phase.InFrame? && i.contract.kind == "jsonschema" && Readable(i.body)
    requires if i.msg.phase.InRequest? then i.profile.request.checks.body
             else i.profile.response.checks.body && lib.typeAllowed(Asked(i))
    requires i.body.data != [] && IsValue(lib, i.body.data, i.profile.limits, v) && Decodable(v)
    ensures var sch := PickFrom(i.contract, 0, i.msg.method_, PathOf(i.msg.uri));
      sch.Some? && sch.value.validate(JsonScan.DocOf(v)).Some? ==>
        && Run(lib, i).kind.Mismatch?
        && ListedOf(Leaves(sch.value.validate(JsonScan.DocOf(v)).value), i.profile.limits.maxErrors, Run(lib, i).errors)
  {
    PassedBodyIsValue(lib, i.body, i.profile.limits);
    var sch := PickFrom(i.contract, 0, i.msg.method_, PathOf(i.msg.uri));
    if sch.Some? && sch.value.validate(JsonScan.DocOf(v)).Some? {
      ErrorsHaveLeaves(sch.value.validate(JsonScan.DocOf(v)).value);
    }
  }

  /** What is not checked is ok: a response of another content type, and under a JSON Schema contract a message whose
      body check is off, a missing query string apart; a frame whose body check is off under any contract. */
  lemma UncheckedIsOk(lib: Library, i: Input)
    ensures i.msg.phase.InResponse? && i.body.data != [] && !lib.typeAllowed(Asked(i)) ==>
      Run(lib, i).kind.Ok? && Run(lib, i).skipped == "content_type_filtered"
    ensures i.msg.phase.InResponse? && i.contract.kind == "jsonschema" && !i.profile.response.checks.body ==>
      Run(lib, i).kind.Ok?
    ensures i.msg.phase.InRequest? && i.contract.kind == "jsonschema" && !i.profile.request.checks.body ==>
      if QueryMissing(i) then Run(lib, i).kind.ArgsUnavailable? else Run(lib, i).kind.Ok?
    ensures i.msg.phase.InFrame? && !FrameSettings(i).body ==>
      Run(lib, i).kind.Ok? && Run(lib, i).skipped == "body_check_off"
  {
  }

  /** The settings of the direction a frame goes. */
  function FrameSettings(i: Input): FrameDirection {
    if i.msg.stream.Some? && i.msg.stream.value.direction == "s2c" then i.profile.frame.s2c else i.profile.frame.c2s
  }

  /** A frame whose body is checked: a binary one is refused as such, then the body decides, then the schema its own
      content selects. */
  lemma FrameBySchema(lib: Library, i: Input, v: JsonScan.Json)
    requires GoodLexer(lib) && i.msg.phase.InFrame? && FrameSettings(i).body
    ensures var k := Run(lib, i).kind; var b, limits := i.body, i.profile.limits;
      && (OpcodeOf(i.msg) == "binary" <==> k.Opcode?)
      && (OpcodeOf(i.msg) != "binary" ==>
            (!Passes(lib, b, limits) <==> k in {BodyUnavailable, Truncated, TooLarge, TooDeep, Unparsable}))
      && (OpcodeOf(i.msg) != "binary" && Passes(lib, b, limits) ==>
            && (b.data == [] ==> k.Ok?)
            && (b.data != [] && IsValue(lib, b.data, limits, v) ==>
                  if !Decodable(v) then k.Mismatch?
                  else
                    var sch := PickFrameFrom(i.contract, 0, FrameOf(i.msg), JsonScan.DocOf(v));
                    if sch.None? then k.UnknownOperation?
                    else if sch.value.validate(JsonScan.DocOf(v)).None? then k.Ok? else k.Mismatch?)
            && (b.data != [] && BlankWithin(lib, b.data, limits) ==> k.Mismatch?))
  {
    StopsUnlessPasses(lib, i.body, i.profile.limits);
    PassedBodyIsValue(lib, i.body, i.profile.limits);
  }

  // ------------------------------------------------ OpenAPI

  /** What a request has wrong by the switched-on checks of parameters. */
  predicate ParametersWrong(f: RequestFacts, ch: RequestChecks)
    requires f.Operation?
  {
    (ch.pathParams && f.pathParams > 0) || (ch.query && f.query > 0) || (ch.headers && f.headers > 0)
  }

  /** A body was sent that the operation does not describe. */
  predicate BodyUndescribed(f: RequestFacts, ch: RequestChecks, body: Bytes)
    requires f.Operation?
  {
    ch.body && body != [] && !(f.declaresBody && f.typed)
  }

  /** A required body is missing, or the one that is there violates what the operation says. */
  predicate BodyWrong(f: RequestFacts, ch: RequestChecks, body: Bytes)
    requires f.Operation?
  {
    ch.body && if body == [] then f.declaresBody && f.requiresBody else f.declaresBody && f.typed && f.body > 0
  }

  lemma OpenApiRequestKinds(lib: Library, c: Contract, call: Call, ch: RequestChecks, limits: Limits)
    requires c.kind != "jsonschema"
    ensures var k, f := ByRequest(lib, c, call, ch, limits).kind, lib.request(call);
      && (k.UnknownOperation? <==> f.NoOperation?)
      && (f.Operation? ==>
            && (k.Ok? <==> !ParametersWrong(f, ch) && !BodyUndescribed(f, ch, call.body) && !BodyWrong(f, ch, call.body))
            && (k.ContentType? <==> !ParametersWrong(f, ch) && BodyUndescribed(f, ch, call.body))
            && (k.Mismatch? <==> ParametersWrong(f, ch) || BodyWrong(f, ch, call.body)))
  {
  }

  /** A request under an OpenAPI contract that gets as far as the contract: unknown exactly when no operation is found,
      ok exactly when no switched-on check found anything and no query string is missing, and so on. */
  lemma RequestByOpenApi(lib: Library, i: Input)
    requires GoodLexer(lib) && i.msg.phase.InRequest? && i.contract.kind != "jsonschema"
    requires i.profile.request.checks.body ==> Passes(lib, i.body, i.profile.limits)
    ensures var k, f, ch := Run(lib, i).kind, lib.request(Asked(i)), i.profile.request.checks;
      && (k.UnknownOperation? <==> f.NoOperation?)
      && (f.Operation? ==>
            var wrong, undescribed :=
              ParametersWrong(f, ch) || BodyWrong(f, ch, i.body.data), BodyUndescribed(f, ch, i.body.data);
            && (k.Mismatch? <==> wrong)
            && (k.ContentType? <==> undescribed && !ParametersWrong(f, ch))
            && (k.ArgsUnavailable? <==> !wrong && !undescribed && QueryMissing(i))
            && (k.Ok? <==> !wrong && !undescribed && !QueryMissing(i)))
  {
    StopsUnlessPasses(lib, i.body, i.profile.limits);
    OpenApiRequestKinds(lib, i.contract, CallOf(i), i.profile.request.checks, i.profile.limits);
  }

  /** A response under an OpenAPI contract that gets as far as the contract. */
  lemma ResponseByOpenApi(lib: Library, i: Input)
    requires GoodLexer(lib) && i.msg.phase.InResponse? && i.contract.kind != "jsonschema"
    requires i.body.data == [] || lib.typeAllowed(Asked(i))
    requires i.profile.response.checks.body ==> Passes(lib, i.body, i.profile.limits)
    ensures var k, f, ch := Run(lib, i).kind, lib.response(Asked(i)), i.profile.response.checks;
      && (k.UnknownOperation? <==> f.NoResponseOperation?)
      && (f.ResponseOperation? ==>
            var described := f.statusFound && f.declaresContent && i.body.data != [];
            && (k.Status? <==> !f.statusFound && ch.status)
            && (k.ContentType? <==> described && !f.typed && ch.contentType)
            && (k.Mismatch? <==> described && f.typed && ch.body && f.body > 0)
            && (k.Ok? <==> !k.Status? && !k.ContentType? && !k.Mismatch?))
  {
    StopsUnlessPasses(lib, i.body, i.profile.limits);
  }

  /** Under any contract a body that is checked and does not pass decides alone. */
  lemma BodyDecidesFirst(lib: Library, i: Input)
    requires GoodLexer(lib) && !Passes(lib, i.body, i.profile.limits)
    requires match i.msg.phase
      case InRequest => i.profile.request.checks.body
      case InResponse => i.profile.response.checks.body && (i.body.data == [] || lib.typeAllowed(Asked(i)))
      case InFrame => FrameSettings(i).body && OpcodeOf(i.msg) != "binary"
    ensures Some(Run(lib, i).kind) == KindAfter(lib, i.body, i.profile.limits)
    ensures Run(lib, i).kind in {BodyUnavailable, Truncated, TooLarge, TooDeep, Unparsable}
  {
    StopsUnlessPasses(lib, i.body, i.profile.limits);
  }
}
