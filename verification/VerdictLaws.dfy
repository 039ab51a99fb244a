/**
 Which rule of the profile answers which outcome, and which outcomes of the profile fire, spelled out over the
 fields of the profile, phase by phase.
 */
module VerdictLaws {
  import opened Basics
  import opened Policy
  import opened Profiles
  import opened Contracts
  import opened Validation
  import opened Inspection
  import BodyLoader
  import Prior
  import Snapshots

  // ------------------------------------------------ the profile, field by field

  function OutcomesIn(p: Profile, msg: Message): seq<Outcome> {
    match msg.phase
    case InRequest => p.request.outcomes
    case InResponse => p.response.outcomes
    case InFrame => DirectionSettings(p, msg).outcomes
  }

  function CodeOf(k: Kind): string {
    if k.Ok? then ""
    else if k.Mismatch? then "JSON_SCHEMA_MISMATCH"
    else if k.TooDeep? then "JSON_TOO_DEEP"
    else if k.Unparsable? then "JSON_UNPARSABLE"
    else if k.Truncated? then "JSON_BODY_TRUNCATED"
    else if k.TooLarge? then "JSON_BODY_TOO_LARGE"
    else if k.UnknownOperation? then "JSON_UNKNOWN_OPERATION"
    else if k.ContentType? then "JSON_CONTENT_TYPE"
    else if k.Status? then "JSON_STATUS_UNDECLARED"
    else if k.BodyUnavailable? then "JSON_BODY_UNAVAILABLE"
    else if k.ArgsUnavailable? then "JSON_ARGS_UNAVAILABLE"
    else "JSON_FRAME_OPCODE"
  }

  lemma PhaseIsFields(p: Profile, msg: Message)
    ensures PhaseOf(p, msg).mode == p.mode && PhaseOf(p, msg).denyResponse == DenyName(p, msg) == ResponseName(p, msg)
    ensures PhaseOf(p, msg).outcomes == OutcomesIn(p, msg)
  {
  }

  lemma CodeIsKinds(k: Kind)
    ensures PolicyCode(k) == CodeOf(k)
  {
  }

  // ------------------------------------------------ the verdict

  /** The reply does what the rule says, under this reason code. */
  predicate Obeys(r: Reply, rule: Rule, code: string, name: string, score: int) {
    && r.code == code
    && (r.verdict.Deny? <==> rule.action == "deny")
    && (r.verdict.Score? <==> rule.action == "score")
    && (r.verdict.Allow? <==> rule.action == "allow")
    && (if r.verdict.Deny? then r.response == Some(name) && name != "" else r.response.None?)
    && (if r.verdict.Score? then r.score == Some(score) else r.score.None?)
  }

  lemma FromObeys(ph: Phase, k: Kind)
    requires ph.mode == ENFORCE && (k.Ok? || GoodRule(RuleFor(ph, k)))
    ensures var d := From(ph, k);
      && d.code == PolicyCode(k) && d.would.None?
      && (k.Ok? ==> d.verdict.Allow?)
      && (!k.Ok? ==>
            && (d.verdict.Deny? <==> RuleFor(ph, k).action == "deny")
            && (d.verdict.Score? <==> RuleFor(ph, k).action == "score")
            && (d.verdict.Allow? <==> RuleFor(ph, k).action == "allow")
            && (d.verdict.Score? ==> d.score == RuleFor(ph, k).score))
  {
  }

  lemma ReplyObeys(env: Env, p: Profile, msg: Message, k: Kind, percent: int)
    requires p.mode == ENFORCE && Ruled(p, msg, k) && KindOf(msg.phase, k)
    requires Prior.PERCENT_MIN <= percent <= Prior.PERCENT_MAX
    ensures var r := ReplyOf(p, msg, DecisionOf(env, p, msg, k, percent));
      && (k.Ok? ==> r == Plain(Allow, ""))
      && (!k.Ok? ==>
            && RuleOf(p, msg, k).Some?
            && var rule := RuleOf(p, msg, k).value;
               Obeys(r, rule, CodeOf(k), ResponseName(p, msg), Prior.ScaleScore(env.up, rule.score, percent)))
  {
    PhaseIsFields(p, msg);
    CodeIsKinds(k);
    ReplyIsWellFormed(env, p, msg, k, percent);
    FromObeys(PhaseOf(p, msg), k);
    ReplyKeepsVerdict(env, p, msg, k, percent);
    if !k.Ok? {
      RuleForIsField(p, msg, k);
    }
  }

  /** What a message that is judged in enforce mode is answered, given what validation came to. */
  ghost predicate Decided(env: Env, p: Profile, t: Task, out: Checked, a: Answer) {
    && (out.fault != "" ==> a.reply == Plain(Error, "JSON_STORE_UNAVAILABLE"))
    && (out.fault == "" && WriteFails(env, a.bans) ==> a.reply == Plain(Error, "JSON_GEO_UNAVAILABLE"))
    && (out.fault == "" && !WriteFails(env, a.bans) ==>
          && (out.kind.Ok? ==> a.reply.(actions := []) == Plain(Allow, ""))
          && (!out.kind.Ok? ==>
                && RuleOf(p, t.msg, out.kind).Some?
                && var rule := RuleOf(p, t.msg, out.kind).value;
                   Obeys(a.reply, rule, CodeOf(out.kind), ResponseName(p, t.msg),
                         Prior.ScaleScore(env.up, rule.score, AskPercent(t, p)))))
  }

  lemma JudgedIsDecided(env: Env, p: Profile, t: Task, out: Checked)
    requires p.mode == ENFORCE && Ruled(p, t.msg, out.kind) && KindOf(t.msg.phase, out.kind)
    ensures Decided(env, p, t, out, Judged(env, p, t, out, AskPercent(t, p), Prior.Outcomes(t.prior, p.prior)))
  {
    if out.fault == "" {
      JudgedIsAssembled(env, p, t, out, AskPercent(t, p), Prior.Outcomes(t.prior, p.prior));
      ReplyObeys(env, p, t.msg, out.kind, AskPercent(t, p));
    }
  }

  /** In a complete snapshot, for every message that is judged in enforce mode: a mismatch and too deep a document are
      answered by the phase's rule `invalid`, an unparsable body by `unparsable`, a truncated and too large one by
      `truncated`, and so on for every outcome and every phase and direction; a denial names the phase's response, a
      score is the rule's scaled, and the reason is the outcome's. */
  lemma RulesDecide(env: Env, s: Snapshots.Content, t: Task)
    requires Complete(s) && Judges(s, t) && s.byName[NameOf(t)].mode == ENFORCE
    ensures Decided(env, s.byName[NameOf(t)], t, OutcomeOf(env, s, t), AnswerOf(env, s, t))
  {
    OutcomeIsRuled(env, s, t);
    OutcomeIsOfPhase(env, s, t);
    AnswerToIsJudged(env, s, t, OutcomeOf(env, s, t));
    JudgedIsDecided(env, s.byName[NameOf(t)], t, OutcomeOf(env, s, t));
  }

  // ------------------------------------------------ before the policy

  function ProfileName(t: Task): string { if t.profile == "" then "default" else t.profile }

  predicate Enabled(p: Profile, phase: PhaseName) {
    (phase.InRequest? && p.request.enabled) || (phase.InResponse? && p.response.enabled)
    || (phase.InFrame? && p.frame.enabled)
  }

  /** A message is judged unless its profile is unknown, off, or off for the phase, or an earlier inspector asked to
      skip it and may; and then the reply says which. */
  lemma EarlyAnswers(env: Env, s: Snapshots.Content, t: Task, out: Checked)
    requires Complete(s)
    ensures var r := AnswerTo(env, s, t, out).reply;
      && (ProfileName(t) !in s.byName ==> r == Plain(Error, "JSON_UNKNOWN_PROFILE"))
      && (ProfileName(t) in s.byName ==>
            var p := s.byName[ProfileName(t)];
            && (p.mode == "off" ==> r == Plain(Allow, "JSON_PROFILE_OFF"))
            && (p.mode != "off" && !Enabled(p, t.msg.phase) ==> r == Plain(Allow, "JSON_PHASE_DISABLED"))
            && (p.mode != "off" && Enabled(p, t.msg.phase) && Prior.SkipAsked(t.prior, p.prior) ==>
                  r == Plain(Allow, "JSON_SKIPPED"))
            && (Judges(s, t) <==> p.mode != "off" && Enabled(p, t.msg.phase) && !Prior.SkipAsked(t.prior, p.prior)))
  {
  }

  /** The validation is given each body under its own locator; frames have no headers, and only requests a query. */
  lemma InputIsLoaded(env: Env, p: Profile, c: Contract, t: Task)
    ensures var i := InputOf(env, p, c, t);
      && i.msg == t.msg && i.profile == p && i.contract == c
      && i.body == BodyLoader.Load(env.loader, t.body)
      && (!t.msg.phase.InFrame? ==> i.headers == BodyLoader.Load(env.loader, t.headers))
      && (t.msg.phase.InFrame? ==> i.headers == BodyLoader.NO_BODY)
      && (t.msg.phase.InRequest? ==> i.args == BodyLoader.Load(env.loader, t.args))
  {
  }

  // ------------------------------------------------ what fires

  function ScoreIn(r: Reply): int { if r.score.Some? then r.score.value else 0 }

  lemma JoinedIn(a: Fired, b: Fired)
    ensures forall x :: x in Join(a, b).actions <==> x in a.actions || x in b.actions
    ensures forall x :: x in Join(a, b).bans <==> x in a.bans || x in b.bans
  {
  }

  /** Fires because of the verdict, or in the request phase because of the fill of the queue. */
  ghost predicate FiresHere(p: Profile, t: Task, verdict: Verdict, score: int, code: string, x: Policy.Action) {
    || AsksFor(OutcomesIn(p, t.msg), ByVerdict(verdict, score), code, x)
    || (t.msg.phase.InRequest? && AsksFor(p.request.outcomes, ByFill(t.fill, false), "JSON_QUEUE_LIMIT", x))
  }

  ghost predicate BansHere(p: Profile, t: Task, verdict: Verdict, score: int, code: string, x: Ban) {
    && t.clientIp != ""
    && (|| Bans(OutcomesIn(p, t.msg), ByVerdict(verdict, score), t.clientIp, code, x)
        || (t.msg.phase.InRequest? && Bans(p.request.outcomes, ByFill(t.fill, false), t.clientIp, "JSON_QUEUE_LIMIT", x)))
  }

  lemma FiredIsHere(p: Profile, t: Task, d: Decision)
    requires d.would.None?
    ensures forall x :: x in FiredOf(p, t, d).actions <==> FiresHere(p, t, d.verdict, d.score, d.code, x)
    ensures forall x :: x in FiredOf(p, t, d).bans <==> BansHere(p, t, d.verdict, d.score, d.code, x)
  {
    PhaseIsFields(p, t.msg);
    FiresExactly(OutcomesIn(p, t.msg), ByVerdict(d.verdict, d.score), t.clientIp, d.code);
    FiresExactly(p.request.outcomes, ByFill(t.fill, false), t.clientIp, REASON_QUEUE_LIMIT);
    JoinedIn(FireOf(PhaseOf(p, t.msg), d, t.clientIp),
             if t.msg.phase.InRequest? then OverloadAll(p.request.outcomes, t.fill, false, t.clientIp, REASON_QUEUE_LIMIT)
             else NOTHING);
  }

  /** What fires with a reply in enforce mode. */
  ghost predicate FiresRight(env: Env, p: Profile, t: Task, out: Checked, a: Answer) {
    out.fault == "" && !WriteFails(env, a.bans) ==>
      && (forall x :: x in a.reply.actions <==> FiresHere(p, t, a.reply.verdict, ScoreIn(a.reply), a.reply.code, x))
      && (forall x :: x in a.bans <==> BansHere(p, t, a.reply.verdict, ScoreIn(a.reply), a.reply.code, x))
  }

  lemma UnscoredIsZero(ph: Phase, k: Kind)
    requires ph.mode == ENFORCE
    ensures !From(ph, k).verdict.Score? ==> From(ph, k).score == 0
  {
  }

  lemma JudgedFires(env: Env, p: Profile, t: Task, out: Checked)
    requires p.mode == ENFORCE && Ruled(p, t.msg, out.kind)
    ensures FiresRight(env, p, t, out, Judged(env, p, t, out, AskPercent(t, p), Prior.Outcomes(t.prior, p.prior)))
  {
    if out.fault == "" {
      var d := DecisionOf(env, p, t.msg, out.kind, AskPercent(t, p));
      JudgedIsAssembled(env, p, t, out, AskPercent(t, p), Prior.Outcomes(t.prior, p.prior));
      ReplyKeepsVerdict(env, p, t.msg, out.kind, AskPercent(t, p));
      ReplyIsWellFormed(env, p, t.msg, out.kind, AskPercent(t, p));
      DecisionShadows(env, p, t.msg, out.kind, AskPercent(t, p));
      UnscoredIsZero(PhaseOf(p, t.msg), out.kind);
      FiredIsHere(p, t, d);
      assert ScoreIn(ReplyOf(p, t.msg, d)) == d.score;
    }
  }

  /** In a complete snapshot, for every message that is judged in enforce mode, the actions and bans are exactly those of
      the phase's outcomes that match the verdict and the scaled score of the reply, and in the request phase of the
      overload outcomes that the fill of the queue reaches. */
  lemma OutcomesFire(env: Env, s: Snapshots.Content, t: Task)
    requires Complete(s) && Judges(s, t) && s.byName[NameOf(t)].mode == ENFORCE
    ensures FiresRight(env, s.byName[NameOf(t)], t, OutcomeOf(env, s, t), AnswerOf(env, s, t))
  {
    OutcomeIsRuled(env, s, t);
    AnswerToIsJudged(env, s, t, OutcomeOf(env, s, t));
    JudgedFires(env, s.byName[NameOf(t)], t, OutcomeOf(env, s, t));
  }

  // ------------------------------------------------ single outcomes

  /** When a validated outcome matches: on its verdict, and on a score at its mark, from it on, or below it. */
  lemma OutcomeMatchesExactly(section: string, o: Outcome, verdict: Verdict, score: int)
    requires GoodOutcome(section, o)
    ensures ByVerdict(verdict, score)(o) <==>
      || (o.on == "allow" && verdict.Allow?) || (o.on == "deny" && verdict.Deny?)
      || (o.on == "score" && verdict.Score?
          && ((o.eq && score == o.at.value) || (o.below && score < o.at.value)
              || (!o.eq && !o.below && o.at.value <= score)))
  {
  }

  /** An overload outcome with a mark below 100 matches from this fill on; with the mark 100, which is also the one it
      has without any, only a refusal does. */
  lemma OverloadMatchesExactly(section: string, o: Outcome, fill: int, shed: bool)
    requires GoodOutcome(section, o)
    ensures ByFill(fill, shed)(o) <==>
      o.on == "overload" && (shed || (o.at.Some? && o.at.value < 100 && o.at.value <= fill))
  {
  }

  /** An ask says what the outcome says, under the outcome's code or else the reply's. */
  lemma AskSaysOutcome(o: Outcome, code: string)
    ensures var a := AskOf(o, code);
      && a.to == o.to && a.do == o.do && a.phase == o.phase && a.counter == o.counter && a.marker == o.marker
      && a.group == o.group && a.switch == o.switch && a.headers == o.headers && a.args == o.args && a.body == o.body
      && a.code == (if o.code == "" then code else o.code)
      && (o.apply != "" ==> a.apply == o.apply)
      && (o.delta.Some? ==> a.delta == o.delta.value) && (o.value.Some? ==> a.value == o.value.value)
      && (o.delta.None? ==> a.delta == 0) && (o.value.None? ==> a.value == 0)
      && (a.ttl.Some? <==> o.do == "archive" && o.switch == "on" && o.ttl > 0) && (a.ttl.Some? ==> a.ttl.value == o.ttl)
      && (a.when_ != [] ==> o.do == "archive" && o.switch == "on" && a.when_ == WhenOf(o.when_))
  {
  }

  /** A ban writes the client's address to the outcome's dataset. */
  lemma BanSaysOutcome(o: Outcome, addr: string, code: string)
    ensures var b := BanOf(o, addr, code);
      && b.dataset == o.list && b.addr == addr && b.ttl == o.ttl
      && b.write == (if o.write == "" then "addr" else o.write)
      && b.reason == (if o.code == "" then code else o.code)
  {
  }
}
