/** From a message to the reply: the prior asks, the validation, the policy, and what the verdict fires. */
module Inspection {
  import opened Basics
  import opened Policy
  import opened Profiles
  import opened Contracts
  import opened Validation
  import BodyLoader
  import Prior
  import Snapshots
  import WorkerPool

  const CODE_UNKNOWN_PROFILE := "JSON_UNKNOWN_PROFILE"
  const CODE_PROFILE_OFF := "JSON_PROFILE_OFF"
  const CODE_PHASE_DISABLED := "JSON_PHASE_DISABLED"
  const CODE_SKIPPED := "JSON_SKIPPED"
  const CODE_INTERNAL_ERROR := "JSON_INTERNAL_ERROR"
  const CODE_STORE_UNAVAILABLE := "JSON_STORE_UNAVAILABLE"
  const CODE_GEO_UNAVAILABLE := "JSON_GEO_UNAVAILABLE"
  const REASON_QUEUE_LIMIT := WorkerPool.REASON_QUEUE_LIMIT
  const DEFAULT_DENY_RESPONSE := "json_invalid"

  datatype Task = Task(
    msg: Message, profile: string, prior: seq<Prior.PriorVerdict>, clientIp: string, fill: int,
    headers: Option<BodyLoader.Locator>, body: Option<BodyLoader.Locator>, args: Option<BodyLoader.Locator>)

  /** What the handler works with: the store, the libraries, the rounding of half-way scores, the list writer. */
  datatype Env = Env(
    loader: BodyLoader.Loader, lib: Library, up: (int, int) -> bool, lists: Option<seq<Ban> -> bool>)

  datatype Reply = Reply(verdict: Verdict, code: string, score: Option<int>, response: Option<string>, actions: seq<Policy.Action>)

  datatype Details = Details(
    checked: Option<Checked>, prior: seq<Prior.ActionOutcome>, passive: bool,
    would: Option<Verdict>, wouldScore: int, wouldCode: string, names: seq<string>)

  const NO_DETAILS := Details(None, [], false, None, 0, "", [])

  /** A reply, the bans handed to the list writer, and what goes to the audit. */
  datatype Answer = Answer(reply: Reply, bans: seq<Ban>, det: Details)

  function Plain(verdict: Verdict, code: string): Reply {
    Reply(verdict, code, None, None, [])
  }

  function PhaseOf(p: Profile, msg: Message): Phase {
    Phase(p.mode, TableMap(TableOf(p, msg)), DenyName(p, msg), OutcomesOf(p, msg))
  }

  function DenyResponseOf(p: Profile, msg: Message): string {
    if DenyName(p, msg) == "" then DEFAULT_DENY_RESPONSE else DenyName(p, msg)
  }

  function Join(a: Fired, b: Fired): Fired {
    Fired(a.actions + b.actions, a.bans + b.bans, a.names + b.names)
  }

  /** The decision with its scores scaled by what earlier inspectors asked for. */
  function Scaled(up: (int, int) -> bool, d: Decision, percent: int): Decision {
    d.(score := if d.verdict.Score? then Prior.ScaleScore(up, d.score, percent) else d.score,
       wouldScore := if d.would == Some(Verdict.Score) then Prior.ScaleScore(up, d.wouldScore, percent) else d.wouldScore)
  }

  function InputOf(env: Env, p: Profile, c: Contract, t: Task): Input {
    Input(t.msg, p, c,
          BodyLoader.Load(env.loader, if t.msg.phase.InFrame? then None else t.headers),
          BodyLoader.Load(env.loader, t.body),
          if t.msg.phase.InRequest? then BodyLoader.Load(env.loader, t.args) else BodyLoader.NO_BODY)
  }

  function Written(env: Env, bans: seq<Ban>): bool {
    bans == [] || env.lists.None? || env.lists.value(bans)
  }

  /** The reply a scaled decision makes, apart from its actions. */
  function ReplyOf(p: Profile, msg: Message, d: Decision): Reply {
    if d.verdict.Score? && !(0 <= d.score <= 100) then Plain(Error, CODE_INTERNAL_ERROR)
    else Reply(d.verdict, d.code, if d.verdict.Score? then Some(d.score) else None,
               if d.verdict.Deny? then Some(DenyResponseOf(p, msg)) else None, [])
  }

  function DecisionOf(env: Env, p: Profile, msg: Message, k: Kind, percent: int): Decision {
    Scaled(env.up, From(PhaseOf(p, msg), k), percent)
  }

  function FiredOf(p: Profile, t: Task, d: Decision): Fired {
    Join(FireOf(PhaseOf(p, t.msg), d, t.clientIp),
         if t.msg.phase.InRequest? then OverloadAll(p.request.outcomes, t.fill, false, t.clientIp, REASON_QUEUE_LIMIT)
         else NOTHING)
  }

  /** The part of the handler that follows the validation. */
  function Judged(env: Env, p: Profile, t: Task, out: Checked, percent: int, asked: seq<Prior.ActionOutcome>): Answer {
    if out.fault != "" then Answer(Plain(Error, CODE_STORE_UNAVAILABLE), [], NO_DETAILS.(checked := Some(out)))
    else
      var d := DecisionOf(env, p, t.msg, out.kind, percent);
      var fired := FiredOf(p, t, d);
      var det := Details(Some(out), asked, p.mode == OBSERVE, d.would, d.wouldScore, d.wouldCode, fired.names);
      if Written(env, fired.bans) then Answer(ReplyOf(p, t.msg, d).(actions := fired.actions), fired.bans, det)
      else Answer(Plain(Error, CODE_GEO_UNAVAILABLE), fired.bans, det)
  }

  function NameOf(t: Task): string {
    if t.profile == "" then Snapshots.DEFAULT_NAME else t.profile
  }

  function AskPercent(t: Task, p: Profile): int {
    Prior.Clamp(Prior.RawPercent(t.prior, p.prior))
  }

  /** What validation comes to when the handler gets that far. */
  function OutcomeOf(env: Env, s: Snapshots.Content, t: Task): Checked
    requires NameOf(t) in s.byName
  {
    var p := s.byName[NameOf(t)];
    if p.name in s.contracts then Run(env.lib, InputOf(env, p, s.contracts[p.name], t)) else CLEAN
  }

  ghost function AnswerOf(env: Env, s: Snapshots.Content, t: Task): Answer {
    AnswerTo(env, s, t, if NameOf(t) in s.byName then OutcomeOf(env, s, t) else CLEAN)
  }

  ghost function AnswerTo(env: Env, s: Snapshots.Content, t: Task, out: Checked): Answer {
    if NameOf(t) !in s.byName then Answer(Plain(Error, CODE_UNKNOWN_PROFILE), [], NO_DETAILS)
    else
      var p := s.byName[NameOf(t)];
      var asked := Prior.Outcomes(t.prior, p.prior);
      if p.mode == OFF then Answer(Plain(Allow, CODE_PROFILE_OFF), [], NO_DETAILS)
      else if !PhaseEnabled(p, t.msg.phase) then Answer(Plain(Allow, CODE_PHASE_DISABLED), [], NO_DETAILS)
      else if Prior.SkipAsked(t.prior, p.prior) then Answer(Plain(Allow, CODE_SKIPPED), [], NO_DETAILS.(prior := asked))
      else if p.name !in s.contracts then Answer(Plain(Error, CODE_INTERNAL_ERROR), [], NO_DETAILS)
      else Judged(env, p, t, out, AskPercent(t, p), asked)
  }

  /** The message gets as far as the policy. */
  ghost predicate Judges(s: Snapshots.Content, t: Task) {
    && NameOf(t) in s.byName
    && var p := s.byName[NameOf(t)];
       p.mode != OFF && PhaseEnabled(p, t.msg.phase) && !Prior.SkipAsked(t.prior, p.prior) && p.name in s.contracts
  }

  lemma AnswerToIsJudged(env: Env, s: Snapshots.Content, t: Task, out: Checked)
    ensures Judges(s, t) ==>
      var p := s.byName[NameOf(t)];
      AnswerTo(env, s, t, out) == Judged(env, p, t, out, AskPercent(t, p), Prior.Outcomes(t.prior, p.prior))
    ensures !Judges(s, t) ==>
      !AnswerTo(env, s, t, out).reply.verdict.Deny? && !AnswerTo(env, s, t, out).reply.verdict.Score?
  {
  }

  // ------------------------------------------------ the handler

  /** decide.RequestPhase and its kin: the rule table becomes a map. */
  method PolicyPhase(p: Profile, msg: Message) returns (ph: Phase)
    ensures ph == PhaseOf(p, msg)
  {
    var rules := RulesOf(TableOf(p, msg));
    return Phase(p.mode, rules, DenyName(p, msg), OutcomesOf(p, msg));
  }

  method LoadInput(env: Env, p: Profile, c: Contract, t: Task) returns (i: Input)
    requires env.loader.store.Some? ==> BodyLoader.Agrees(env.loader.store.value)
    ensures i == InputOf(env, p, c, t)
  {
    var locs := [t.headers, t.body];
    if t.msg.phase.InRequest? {
      locs := locs + [t.args];
    }
    if t.msg.phase.InFrame? {
      locs := locs[0 := None];
    }
    var got := BodyLoader.LoadMany(env.loader, locs);
    return Input(t.msg, p, c, got[0], got[1], if t.msg.phase.InRequest? then got[2] else BodyLoader.NO_BODY);
  }

  method Inspect(env: Env, s: Snapshots.Content, t: Task) returns (a: Answer)
    requires env.loader.store.Some? ==> BodyLoader.Agrees(env.loader.store.value)
    ensures a == AnswerOf(env, s, t)
  {
    if NameOf(t) !in s.byName {
      return Answer(Plain(Error, CODE_UNKNOWN_PROFILE), [], NO_DETAILS);
    }
    var p := s.byName[NameOf(t)];
    if p.mode == OFF {
      return Answer(Plain(Allow, CODE_PROFILE_OFF), [], NO_DETAILS);
    }
    if !PhaseEnabled(p, t.msg.phase) {
      return Answer(Plain(Allow, CODE_PHASE_DISABLED), [], NO_DETAILS);
    }
    var ask := Prior.EvaluatePrior(t.prior, p.prior);
    if ask.skip {
      return Answer(Plain(Allow, CODE_SKIPPED), [], NO_DETAILS.(prior := ask.outcomes));
    }
    if p.name !in s.contracts {
      return Answer(Plain(Error, CODE_INTERNAL_ERROR), [], NO_DETAILS);
    }
    var i := LoadInput(env, p, s.contracts[p.name], t);
    a := Decide(env, p, t, Run(env.lib, i), ask.percent, ask.outcomes);
  }

  method Decide(env: Env, p: Profile, t: Task, out: Checked, percent: int, asked: seq<Prior.ActionOutcome>)
    returns (a: Answer)
    ensures a == Judged(env, p, t, out, percent, asked)
  {
    if out.fault != "" {
      return Answer(Plain(Error, CODE_STORE_UNAVAILABLE), [], NO_DETAILS.(checked := Some(out)));
    }
    var ph := PolicyPhase(p, t.msg);
    var d := From(ph, out.kind);
    var scored := d.score;
    if d.verdict.Score? {
      scored := Prior.ScaleScore(env.up, d.score, percent);
    }
    if d.would == Some(Verdict.Score) {
      d := d.(wouldScore := Prior.ScaleScore(env.up, d.wouldScore, percent));
    }
    var reply := Plain(d.verdict, d.code);
    if d.verdict.Score? {
      if scored < 0 || scored > 100 {
        reply := Plain(Error, CODE_INTERNAL_ERROR);
      } else {
        reply := reply.(score := Some(scored));
      }
    }
    if d.verdict.Deny? {
      reply := reply.(response := Some(DenyResponseOf(p, t.msg)));
    }
    var effective := if d.verdict.Score? then d.(score := scored) else d;
    assert effective == DecisionOf(env, p, t.msg, out.kind, percent);
    assert reply == ReplyOf(p, t.msg, effective);
    var fired := Fire(ph, effective, t.clientIp);
    if t.msg.phase.InRequest? {
      var more := FireOverload(p.request.outcomes, t.fill, false, t.clientIp, REASON_QUEUE_LIMIT);
      fired := Join(fired, more);
    }
    assert fired == FiredOf(p, t, effective);
    if fired.actions != [] {
      reply := reply.(actions := fired.actions);
    }
    var det := Details(Some(out), asked, p.mode == OBSERVE, d.would, d.wouldScore, d.wouldCode, fired.names);
    assert reply == ReplyOf(p, t.msg, effective).(actions := fired.actions);
    if !Written(env, fired.bans) {
      return Answer(Plain(Error, CODE_GEO_UNAVAILABLE), fired.bans, det);
    }
    return Answer(reply, fired.bans, det);
  }

  // ------------------------------------------------ refused tasks

  /** What a refused task still fires: only a full queue, only in the request phase, and every overload outcome. */
  function ShedFired(s: Snapshots.Content, t: Task, reason: string): Fired {
    if reason != REASON_QUEUE_LIMIT || !t.msg.phase.InRequest? then NOTHING
    else if NameOf(t) !in s.byName || s.byName[NameOf(t)].mode == OFF then NOTHING
    else OverloadAll(s.byName[NameOf(t)].request.outcomes, t.fill, true, t.clientIp, reason)
  }

  method OverloadOnShed(s: Snapshots.Content, t: Task, reason: string) returns (fired: Fired)
    ensures fired == ShedFired(s, t, reason) && FiresEveryOverload(s, t, reason, fired)
  {
    ShedFiresExactly(s, t, reason);
    if reason != REASON_QUEUE_LIMIT || !t.msg.phase.InRequest? {
      return NOTHING;
    }
    if NameOf(t) !in s.byName || s.byName[NameOf(t)].mode == OFF {
      return NOTHING;
    }
    fired := FireOverload(s.byName[NameOf(t)].request.outcomes, t.fill, true, t.clientIp, reason);
  }

  /** A full queue in the request phase, for a profile that is there and not off. */
  predicate ShedAsks(s: Snapshots.Content, t: Task, reason: string) {
    && reason == REASON_QUEUE_LIMIT && t.msg.phase.InRequest?
    && NameOf(t) in s.byName && s.byName[NameOf(t)].mode != OFF
  }

  function OnOverload(): Outcome -> bool {
    (o: Outcome) => o.on == ON_OVERLOAD
  }

  /** Every overload outcome of the profile fires, or nothing does. */
  ghost predicate FiresEveryOverload(s: Snapshots.Content, t: Task, reason: string, f: Fired) {
    && (!ShedAsks(s, t, reason) ==> f == NOTHING)
    && (ShedAsks(s, t, reason) ==>
          var outcomes := s.byName[NameOf(t)].request.outcomes;
          && (forall a :: a in f.actions <==> AsksFor(outcomes, OnOverload(), reason, a))
          && (forall b :: b in f.bans <==> t.clientIp != "" && Bans(outcomes, OnOverload(), t.clientIp, reason, b))
          && |f.names| == |f.actions| + |f.bans|)
  }

  /** A task refused for a full queue fires every overload outcome of its profile, whatever the mark of the outcome and
      the fill of the queue, also with the request phase disabled; any other refusal fires nothing. */
  lemma ShedFiresExactly(s: Snapshots.Content, t: Task, reason: string)
    ensures FiresEveryOverload(s, t, reason, ShedFired(s, t, reason))
  {
    if ShedAsks(s, t, reason) {
      var outcomes := s.byName[NameOf(t)].request.outcomes;
      FiresExactly(outcomes, ByFill(t.fill, true), t.clientIp, reason);
      SameChoice(outcomes, t.fill, t.clientIp, reason);
    }
  }

  /** To a refusal all overload outcomes are alike. */
  lemma SameChoice(outcomes: seq<Outcome>, fill: int, addr: string, code: string)
    ensures forall a :: AsksFor(outcomes, ByFill(fill, true), code, a) <==> AsksFor(outcomes, OnOverload(), code, a)
    ensures forall b :: Bans(outcomes, ByFill(fill, true), addr, code, b) <==> Bans(outcomes, OnOverload(), addr, code, b)
  {
    assert forall o :: ByFill(fill, true)(o) <==> OnOverload()(o);
  }

  // ------------------------------------------------ every reply is well formed

  /** Every profile is validated and stands under its name, and has a contract unless it is off. */
  ghost predicate Complete(s: Snapshots.Content) {
    forall name :: name in s.byName ==>
      && s.byName[name].name == name && GoodProfile(s.byName[name])
      && (s.byName[name].mode != OFF ==> name in s.contracts)
  }

  /** Every snapshot that a store comes to serve is complete. */
  lemma ServedIsComplete(tools: Snapshots.Tools, tree: Snapshots.Tree, base: Snapshots.Tree, foreign: bool)
    ensures var s := Snapshots.Loaded(tools, tree, base, foreign);
      s.Some? ==> Complete(s.value)
  {
    if Snapshots.Loaded(tools, tree, base, foreign).Some? {
      Snapshots.ServedSnapshotIsComplete(tools, tree, base, foreign);
    }
  }

  /** A rule has been found for what validation came to, and it is a validated one. */
  predicate Ruled(p: Profile, msg: Message, k: Kind) {
    k.Ok? || (PolicyKey(k) in PhaseOf(p, msg).rules
              && var r := PhaseOf(p, msg).rules[PolicyKey(k)];
                 GoodRule(r) && (r.action == ACTION_DENY ==> DenyName(p, msg) != ""))
  }

  predicate RangedScore(up: (int, int) -> bool, r: Rule, percent: int, score: int) {
    && r.action == ACTION_SCORE && 0 <= score <= 100
    && score == Prior.ScaleScore(up, r.score, percent)
    && (r.score * (100 + percent) <= 10000 ==> -50 <= 100 * score - r.score * (100 + percent) <= 50)
    && (r.score * (100 + percent) > 10000 ==> score == 100)
  }

  /** What a reply decided by policy looks like: a score exactly with the score verdict, the rule's own score
      scaled and in range; a response exactly with a denial, the profile's own and never the stand-in. */
  predicate WellFormed(env: Env, p: Profile, msg: Message, k: Kind, percent: int, r: Reply) {
    && !r.verdict.Error?
    && (r.verdict.Score? <==> r.score.Some?)
    && (r.verdict.Deny? <==> r.response.Some?)
    && (r.response.Some? ==> r.response.value == DenyName(p, msg) && DenyName(p, msg) != "")
    && (r.score.Some? ==> !k.Ok? && RangedScore(env.up, RuleFor(PhaseOf(p, msg), k), percent, r.score.value))
  }

  lemma ReplyIsWellFormed(env: Env, p: Profile, msg: Message, k: Kind, percent: int)
    requires Ruled(p, msg, k) && Prior.PERCENT_MIN <= percent <= Prior.PERCENT_MAX
    ensures WellFormed(env, p, msg, k, percent, ReplyOf(p, msg, DecisionOf(env, p, msg, k, percent)))
  {
    if !k.Ok? {
      Prior.ScaleIsNearest(env.up, RuleFor(PhaseOf(p, msg), k).score, percent);
    }
  }

  /** What is well formed about any reply to a message of a served profile. */
  predicate Sound(p: Profile, msg: Message, r: Reply) {
    && r.code != CODE_INTERNAL_ERROR
    && (r.score.Some? ==> 0 <= r.score.value <= 100)
    && (r.verdict.Error? ==> r.code == CODE_STORE_UNAVAILABLE || r.code == CODE_GEO_UNAVAILABLE)
    && (r.verdict.Score? <==> r.score.Some?)
    && (r.verdict.Deny? <==> r.response.Some?)
    && (r.response.Some? ==> r.response.value == DenyName(p, msg) && DenyName(p, msg) != "")
  }

  lemma CodesAreNoErrors(k: Kind)
    ensures PolicyCode(k) != CODE_INTERNAL_ERROR && CODE_OBSERVE != CODE_INTERNAL_ERROR
  {
    assert PolicyCode(k) == "" || |PolicyCode(k)| < |CODE_INTERNAL_ERROR| || PolicyCode(k)[5] != CODE_INTERNAL_ERROR[5];
  }

  lemma FromKeepsCode(ph: Phase, k: Kind)
    ensures From(ph, k).code == PolicyCode(k) || From(ph, k).code == CODE_OBSERVE
  {
  }

  lemma PlainIsSound(p: Profile, msg: Message)
    ensures Sound(p, msg, Plain(Allow, CODE_SKIPPED))
    ensures Sound(p, msg, Plain(Allow, CODE_PROFILE_OFF)) && Sound(p, msg, Plain(Allow, CODE_PHASE_DISABLED))
    ensures Sound(p, msg, Plain(Error, CODE_STORE_UNAVAILABLE)) && Sound(p, msg, Plain(Error, CODE_GEO_UNAVAILABLE))
  {
    assert CODE_INTERNAL_ERROR[5] == 'I';
    assert CODE_SKIPPED[5] == CODE_STORE_UNAVAILABLE[5] == 'S';
    assert CODE_PROFILE_OFF[5] == CODE_PHASE_DISABLED[5] == 'P';
    assert CODE_GEO_UNAVAILABLE[5] == 'G';
  }

  lemma JudgedIsSound(env: Env, p: Profile, t: Task, out: Checked, percent: int, asked: seq<Prior.ActionOutcome>)
    requires Ruled(p, t.msg, out.kind) && Prior.PERCENT_MIN <= percent <= Prior.PERCENT_MAX
    ensures Sound(p, t.msg, Judged(env, p, t, out, percent, asked).reply)
  {
    PlainIsSound(p, t.msg);
    CodesAreNoErrors(out.kind);
    FromKeepsCode(PhaseOf(p, t.msg), out.kind);
    ReplyIsWellFormed(env, p, t.msg, out.kind, percent);
  }

  lemma AnswersAreSound(env: Env, s: Snapshots.Content, t: Task, out: Checked)
    requires NameOf(t) in s.byName
    requires s.byName[NameOf(t)].mode != OFF ==> s.byName[NameOf(t)].name in s.contracts
    requires Judges(s, t) ==> Ruled(s.byName[NameOf(t)], t.msg, out.kind)
    ensures Sound(s.byName[NameOf(t)], t.msg, AnswerTo(env, s, t, out).reply)
  {
    var p := s.byName[NameOf(t)];
    PlainIsSound(p, t.msg);
    if Judges(s, t) {
      JudgedIsSound(env, p, t, out, AskPercent(t, p), Prior.Outcomes(t.prior, p.prior));
    }
  }

  /** In every complete snapshot, for every message: the reply is an error only for a profile that does
      not exist, a store that failed or a list that could not be written. The branches for a missing contract
      and for a score out of range are never taken; a score is in range; a denial names the profile's own response. */
  lemma RepliesAreSound(env: Env, s: Snapshots.Content, t: Task)
    requires Complete(s)
    ensures NameOf(t) !in s.byName ==> AnswerOf(env, s, t).reply == Plain(Error, CODE_UNKNOWN_PROFILE)
    ensures NameOf(t) in s.byName ==> Sound(s.byName[NameOf(t)], t.msg, AnswerOf(env, s, t).reply)
  {
    if NameOf(t) in s.byName {
      if Judges(s, t) {
        OutcomeIsRuled(env, s, t);
      }
      AnswersAreSound(env, s, t, OutcomeOf(env, s, t));
    }
  }

  lemma RunIsRuled(lib: Library, i: Input)
    requires GoodProfile(i.profile) && i.profile.mode != OFF && PhaseEnabled(i.profile, i.msg.phase)
    ensures Ruled(i.profile, i.msg, Run(lib, i).kind)
  {
    if !Run(lib, i).kind.Ok? {
      RunHasRule(lib, i);
    }
  }

  // ------------------------------------------------ observe mode

  /** The same profile, only watched. */
  function Observing(p: Profile): Profile { p.(mode := OBSERVE) }

  /** A contract does not depend on whether its profile is watched or enforced. */
  lemma ContractIgnoresMode(cc: Compilers, p: Profile)
    ensures Built(cc, Observing(p)) == Built(cc, p)
  {
    assert Observing(p).documents == p.documents;
  }

  function ObservingIn(s: Snapshots.Content, name: string): Snapshots.Content
    requires name in s.byName
  {
    s.(byName := s.byName[name := Observing(s.byName[name])])
  }

  /** o is the shadow of e: the same findings, actions, bans and names; where e allows or is an error they are the
      same reply; where e denies or scores o allows, and records the verdict, the code and the scaled score of e. */
  predicate Shadows(e: Answer, o: Answer) {
    && o.bans == e.bans && o.det.names == e.det.names && o.reply.actions == e.reply.actions
    && o.det.checked == e.det.checked && o.det.prior == e.det.prior && e.det.would.None?
    && (if e.reply.verdict.Error? || e.reply.verdict.Allow?
        then o.reply == e.reply && (e.reply.verdict.Allow? ==> o.det.would.None?)
        else && o.reply == Plain(Allow, CODE_OBSERVE).(actions := e.reply.actions)
             && o.det.would == Some(e.reply.verdict) && o.det.wouldCode == e.reply.code
             && (e.reply.score.Some? ==> o.det.wouldScore == e.reply.score.value))
  }

  lemma DecisionShadows(env: Env, p: Profile, msg: Message, k: Kind, percent: int)
    requires p.mode == ENFORCE
    ensures var d, d' := DecisionOf(env, p, msg, k, percent), DecisionOf(env, Observing(p), msg, k, percent);
      && d.would.None?
      && d' == if d.verdict.Allow? then d
               else Decision(Allow, 0, CODE_OBSERVE, "", Some(d.verdict), d.score, d.code)
  {
    assert PhaseOf(Observing(p), msg) == PhaseOf(p, msg).(mode := OBSERVE);
    FromShadows(PhaseOf(p, msg), k);
  }

  lemma FromShadows(ph: Phase, k: Kind)
    requires ph.mode == ENFORCE
    ensures var d, d' := From(ph, k), From(ph.(mode := OBSERVE), k);
      && d.would.None? && d.wouldScore == 0 && (!d.verdict.Score? ==> d.score == 0)
      && d' == if d.verdict.Allow? then d
               else Decision(Allow, 0, CODE_OBSERVE, "", Some(d.verdict), d.score, d.code)
  {
    if !k.Ok? {
      assert RuleFor(ph, k) == RuleFor(ph.(mode := OBSERVE), k);
    }
  }

  lemma FiredShadows(env: Env, p: Profile, t: Task, k: Kind, percent: int)
    requires p.mode == ENFORCE
    ensures FiredOf(Observing(p), t, DecisionOf(env, Observing(p), t.msg, k, percent))
         == FiredOf(p, t, DecisionOf(env, p, t.msg, k, percent))
  {
    DecisionShadows(env, p, t.msg, k, percent);
  }

  lemma ReplyShadows(env: Env, p: Profile, msg: Message, k: Kind, percent: int)
    requires p.mode == ENFORCE && Ruled(p, msg, k) && Prior.PERCENT_MIN <= percent <= Prior.PERCENT_MAX
    ensures var d := DecisionOf(env, p, msg, k, percent);
      ReplyOf(Observing(p), msg, DecisionOf(env, Observing(p), msg, k, percent))
      == if d.verdict.Allow? then ReplyOf(p, msg, d) else Plain(Allow, CODE_OBSERVE)
  {
    DecisionShadows(env, p, msg, k, percent);
  }

  /** The answer made of a reply, what fires and the decision. */
  function Assembled(env: Env, reply: Reply, fired: Fired, d: Decision, out: Checked, asked: seq<Prior.ActionOutcome>, passive: bool): Answer {
    var det := Details(Some(out), asked, passive, d.would, d.wouldScore, d.wouldCode, fired.names);
    if Written(env, fired.bans) then Answer(reply.(actions := fired.actions), fired.bans, det)
    else Answer(Plain(Error, CODE_GEO_UNAVAILABLE), fired.bans, det)
  }

  lemma JudgedIsAssembled(env: Env, p: Profile, t: Task, out: Checked, percent: int, asked: seq<Prior.ActionOutcome>)
    ensures out.fault == "" ==>
      var d := DecisionOf(env, p, t.msg, out.kind, percent);
      Judged(env, p, t, out, percent, asked)
      == Assembled(env, ReplyOf(p, t.msg, d), FiredOf(p, t, d), d, out, asked, p.mode == OBSERVE)
  {
  }

  lemma AssembledShadows(env: Env, r: Reply, fired: Fired, d: Decision, d': Decision, out: Checked, asked: seq<Prior.ActionOutcome>)
    requires d.would.None? && r.verdict == d.verdict && !d.verdict.Error? && r.code == d.code
    requires r.score.Some? ==> r.score.value == d.score
    requires d' == if d.verdict.Allow? then d else Decision(Allow, 0, CODE_OBSERVE, "", Some(d.verdict), d.score, d.code)
    ensures Shadows(Assembled(env, r, fired, d, out, asked, false),
                    Assembled(env, if d.verdict.Allow? then r else Plain(Allow, CODE_OBSERVE), fired, d', out, asked, true))
  {
  }

  lemma JudgedShadows(env: Env, p: Profile, t: Task, out: Checked, percent: int, asked: seq<Prior.ActionOutcome>)
    requires p.mode == ENFORCE && Ruled(p, t.msg, out.kind)
    requires Prior.PERCENT_MIN <= percent <= Prior.PERCENT_MAX
    ensures Shadows(Judged(env, p, t, out, percent, asked), Judged(env, Observing(p), t, out, percent, asked))
  {
    if out.fault == "" {
      var d, d' := DecisionOf(env, p, t.msg, out.kind, percent), DecisionOf(env, Observing(p), t.msg, out.kind, percent);
      JudgedIsAssembled(env, p, t, out, percent, asked);
      JudgedIsAssembled(env, Observing(p), t, out, percent, asked);
      DecisionShadows(env, p, t.msg, out.kind, percent);
      FiredShadows(env, p, t, out.kind, percent);
      ReplyShadows(env, p, t.msg, out.kind, percent);
      ReplyKeepsVerdict(env, p, t.msg, out.kind, percent);
      AssembledShadows(env, ReplyOf(p, t.msg, d), FiredOf(p, t, d), d, d', out, asked);
    }
  }

  lemma ReplyKeepsVerdict(env: Env, p: Profile, msg: Message, k: Kind, percent: int)
    requires Ruled(p, msg, k) && Prior.PERCENT_MIN <= percent <= Prior.PERCENT_MAX
    ensures var d := DecisionOf(env, p, msg, k, percent); var r := ReplyOf(p, msg, d);
      r.verdict == d.verdict && !d.verdict.Error? && r.code == d.code && (r.score.Some? ==> r.score.value == d.score)
  {
    ReplyIsWellFormed(env, p, msg, k, percent);
  }

  /** Only the settings matter for what validation comes to, not the mode. */
  lemma RunIgnoresMode(env: Env, p: Profile, c: Contract, t: Task)
    ensures Run(env.lib, InputOf(env, Observing(p), c, t)) == Run(env.lib, InputOf(env, p, c, t))
  {
  }

  lemma AnswersShadow(env: Env, s: Snapshots.Content, t: Task, out: Checked)
    requires NameOf(t) in s.byName && s.byName[NameOf(t)].mode == ENFORCE
    requires s.byName[NameOf(t)].name in s.contracts && (Judges(s, t) ==> Ruled(s.byName[NameOf(t)], t.msg, out.kind))
    ensures Shadows(AnswerTo(env, s, t, out), AnswerTo(env, ObservingIn(s, NameOf(t)), t, out))
  {
    var p := s.byName[NameOf(t)];
    if Judges(s, t) {
      JudgedShadows(env, p, t, out, AskPercent(t, p), Prior.Outcomes(t.prior, p.prior));
    }
  }

  lemma OutcomeIsRuled(env: Env, s: Snapshots.Content, t: Task)
    requires Complete(s) && Judges(s, t)
    ensures Ruled(s.byName[NameOf(t)], t.msg, OutcomeOf(env, s, t).kind)
  {
    RunIsRuled(env.lib, InputOf(env, s.byName[NameOf(t)], s.contracts[s.byName[NameOf(t)].name], t));
  }

  lemma OutcomeIgnoresMode(env: Env, s: Snapshots.Content, t: Task)
    requires NameOf(t) in s.byName
    ensures OutcomeOf(env, ObservingIn(s, NameOf(t)), t) == OutcomeOf(env, s, t)
  {
    var p := s.byName[NameOf(t)];
    if p.name in s.contracts {
      RunIgnoresMode(env, p, s.contracts[p.name], t);
    }
  }

  /** Watching a profile instead of enforcing it changes nothing but the verdict, for every message. */
  lemma ObserveShadowsEnforce(env: Env, s: Snapshots.Content, t: Task)
    requires Complete(s) && NameOf(t) in s.byName && s.byName[NameOf(t)].mode == ENFORCE
    ensures Shadows(AnswerOf(env, s, t), AnswerOf(env, ObservingIn(s, NameOf(t)), t))
  {
    if Judges(s, t) {
      OutcomeIsRuled(env, s, t);
    }
    OutcomeIgnoresMode(env, s, t);
    AnswersShadow(env, s, t, OutcomeOf(env, s, t));
  }

  // ------------------------------------------------ when a message is stopped

  lemma FromDenies(ph: Phase, k: Kind)
    requires ph.mode == ENFORCE || ph.mode == OBSERVE
    ensures From(ph, k).verdict.Deny? <==> ph.mode == ENFORCE && !k.Ok? && RuleFor(ph, k).action == ACTION_DENY
    ensures From(ph, k).verdict.Deny? ==> From(ph, k).would.None?
  {
  }

  lemma JudgedDenies(env: Env, p: Profile, t: Task, out: Checked, percent: int, asked: seq<Prior.ActionOutcome>)
    requires p.mode == ENFORCE || p.mode == OBSERVE
    ensures var a := Judged(env, p, t, out, percent, asked);
      a.reply.verdict.Deny? <==>
        && out.fault == "" && p.mode == ENFORCE && !out.kind.Ok?
        && RuleFor(PhaseOf(p, t.msg), out.kind).action == ACTION_DENY && Written(env, a.bans)
    ensures var a, d := Judged(env, p, t, out, percent, asked), DecisionOf(env, p, t.msg, out.kind, percent);
      a.reply.verdict.Deny? ==> d.verdict.Deny? && d.would.None? && a.reply.actions == FiredOf(p, t, d).actions
  {
    FromDenies(PhaseOf(p, t.msg), out.kind);
  }

  /** The denying conditions, given what validation came to. */
  predicate Denies(env: Env, p: Profile, t: Task, out: Checked, bans: seq<Ban>) {
    && out.fault == "" && p.mode == ENFORCE && !out.kind.Ok?
    && RuleFor(PhaseOf(p, t.msg), out.kind).action == ACTION_DENY && Written(env, bans)
  }

  lemma DeniedTo(env: Env, s: Snapshots.Content, t: Task, out: Checked)
    requires NameOf(t) in s.byName ==> s.byName[NameOf(t)].mode in [ENFORCE, OBSERVE, OFF]
    ensures var a := AnswerTo(env, s, t, out);
      a.reply.verdict.Deny? <==> Judges(s, t) && Denies(env, s.byName[NameOf(t)], t, out, a.bans)
    ensures AnswerTo(env, s, t, out).reply.verdict.Deny? ==>
      var p := s.byName[NameOf(t)];
      var d := DecisionOf(env, p, t.msg, out.kind, AskPercent(t, p));
      d.verdict.Deny? && d.would.None? && AnswerTo(env, s, t, out).reply.actions == FiredOf(p, t, d).actions
  {
    AnswerToIsJudged(env, s, t, out);
    if Judges(s, t) {
      var p := s.byName[NameOf(t)];
      JudgedDenies(env, p, t, out, AskPercent(t, p), Prior.Outcomes(t.prior, p.prior));
    }
  }

  /** The rule that the policy looks up is the profile's own for this outcome. */
  lemma RuleForIsField(p: Profile, msg: Message, k: Kind)
    requires !k.Ok? && KindOf(msg.phase, k)
    ensures RuleOf(p, msg, k) == Some(RuleFor(PhaseOf(p, msg), k))
  {
    KindHasRule(p, msg, k);
  }

  lemma OutcomeIsOfPhase(env: Env, s: Snapshots.Content, t: Task)
    requires Judges(s, t)
    ensures KindOf(t.msg.phase, OutcomeOf(env, s, t).kind)
  {
    var p := s.byName[NameOf(t)];
    RunGivesKindOfPhase(env.lib, InputOf(env, p, s.contracts[p.name], t));
  }

  /** There is something to write to a list and a writer, and writing fails. */
  predicate WriteFails(env: Env, bans: seq<Ban>) {
    |bans| > 0 && env.lists.Some? && env.lists.value(bans) == false
  }

  /** In enforce mode, the phase's own rule for what validation came to says so, and no list write is in the way. */
  predicate RuleSays(env: Env, p: Profile, t: Task, out: Checked, bans: seq<Ban>, action: string) {
    && out.fault == "" && p.mode == "enforce" && !WriteFails(env, bans)
    && !out.kind.Ok? && RuleOf(p, t.msg, out.kind).Some? && RuleOf(p, t.msg, out.kind).value.action == action
  }

  /** In a complete snapshot a message is denied exactly when its profile enforces the phase, nothing asked to skip it,
      the bodies it needs loaded, the phase's own rule for what validation came to denies, and the lists could be written. */
  lemma DeniedExactly(env: Env, s: Snapshots.Content, t: Task)
    requires Complete(s)
    ensures var a := AnswerOf(env, s, t);
      a.reply.verdict.Deny? <==>
        Judges(s, t) && RuleSays(env, s.byName[NameOf(t)], t, OutcomeOf(env, s, t), a.bans, "deny")
  {
    if NameOf(t) in s.byName {
      DeniedTo(env, s, t, OutcomeOf(env, s, t));
      if Judges(s, t) {
        OutcomeRule(env, s, t);
      }
    } else {
      DeniedTo(env, s, t, CLEAN);
    }
  }

  lemma OutcomeRule(env: Env, s: Snapshots.Content, t: Task)
    requires Judges(s, t)
    ensures var p, k := s.byName[NameOf(t)], OutcomeOf(env, s, t).kind;
      !k.Ok? ==> RuleOf(p, t.msg, k) == Some(RuleFor(PhaseOf(p, t.msg), k))
  {
    OutcomeIsOfPhase(env, s, t);
    if !OutcomeOf(env, s, t).kind.Ok? {
      RuleForIsField(s.byName[NameOf(t)], t.msg, OutcomeOf(env, s, t).kind);
    }
  }

  /** The scoring conditions, given what validation came to. */
  predicate Scores(env: Env, p: Profile, t: Task, out: Checked, bans: seq<Ban>) {
    && out.fault == "" && p.mode == ENFORCE && !out.kind.Ok?
    && RuleFor(PhaseOf(p, t.msg), out.kind).action == ACTION_SCORE && Written(env, bans)
  }

  lemma FromScores(ph: Phase, k: Kind)
    requires ph.mode == ENFORCE || ph.mode == OBSERVE
    ensures From(ph, k).verdict.Score? <==> ph.mode == ENFORCE && !k.Ok? && RuleFor(ph, k).action == ACTION_SCORE
    ensures From(ph, k).verdict.Score? ==> From(ph, k).score == RuleFor(ph, k).score
  {
  }

  lemma JudgedScores(env: Env, p: Profile, t: Task, out: Checked, percent: int, asked: seq<Prior.ActionOutcome>)
    requires p.mode == ENFORCE || p.mode == OBSERVE
    requires Ruled(p, t.msg, out.kind) && Prior.PERCENT_MIN <= percent <= Prior.PERCENT_MAX
    ensures var a := Judged(env, p, t, out, percent, asked);
      && (a.reply.verdict.Score? <==> Scores(env, p, t, out, a.bans))
      && (a.reply.verdict.Score? ==>
            a.reply.score == Some(Prior.ScaleScore(env.up, RuleFor(PhaseOf(p, t.msg), out.kind).score, percent)))
  {
    FromScores(PhaseOf(p, t.msg), out.kind);
    ReplyKeepsVerdict(env, p, t.msg, out.kind, percent);
    ReplyIsWellFormed(env, p, t.msg, out.kind, percent);
  }

  lemma ScoredTo(env: Env, s: Snapshots.Content, t: Task, out: Checked)
    requires NameOf(t) in s.byName ==> s.byName[NameOf(t)].mode in [ENFORCE, OBSERVE, OFF]
    requires Judges(s, t) ==> Ruled(s.byName[NameOf(t)], t.msg, out.kind)
    ensures var r := AnswerTo(env, s, t, out);
      && (r.reply.verdict.Score? <==> Judges(s, t) && Scores(env, s.byName[NameOf(t)], t, out, r.bans))
      && (r.reply.verdict.Score? ==>
            var p := s.byName[NameOf(t)];
            r.reply.score
            == Some(Prior.ScaleScore(env.up, RuleFor(PhaseOf(p, t.msg), out.kind).score, AskPercent(t, p))))
  {
    AnswerToIsJudged(env, s, t, out);
    if Judges(s, t) {
      var p := s.byName[NameOf(t)];
      JudgedScores(env, p, t, out, AskPercent(t, p), Prior.Outcomes(t.prior, p.prior));
    }
  }

  /** Likewise a message is scored exactly when the rule of what validation came to scores, and then with the rule's
      score scaled by the clamped sum of what earlier inspectors asked for. */
  lemma ScoredExactly(env: Env, s: Snapshots.Content, t: Task)
    requires Complete(s) && NameOf(t) in s.byName
    ensures var a, p, out := AnswerOf(env, s, t), s.byName[NameOf(t)], OutcomeOf(env, s, t);
      && (a.reply.verdict.Score? <==> Judges(s, t) && RuleSays(env, p, t, out, a.bans, "score"))
      && (a.reply.verdict.Score? ==>
            a.reply.score
            == Some(Prior.ScaleScore(env.up, RuleOf(p, t.msg, out.kind).value.score, AskPercent(t, p))))
  {
    if Judges(s, t) {
      OutcomeIsRuled(env, s, t);
      OutcomeRule(env, s, t);
    }
    ScoredTo(env, s, t, OutcomeOf(env, s, t));
  }

  /** The actions of a denial by policy, overload outcomes aside. */
  lemma FiredByDenial(p: Profile, t: Task, d: Decision)
    requires GoodProfile(p) && d.verdict.Deny? && d.would.None?
    ensures forall a :: a in FireOf(PhaseOf(p, t.msg), d, t.clientIp).actions ==> RecordVerb(a.do)
  {
    DenyOnlyRecords(SectionOf(t.msg), OutcomesOf(p, t.msg), d.score, t.clientIp, d.code);
  }

  predicate OnlyRecords(actions: seq<Policy.Action>) {
    forall a :: a in actions ==> RecordVerb(a.do)
  }

  /** No overload outcome that this fill reaches asks for anything but a record. */
  predicate OverloadRecords(outcomes: seq<Outcome>, fill: int) {
    forall o :: o in outcomes && OverloadMatches(o, fill, false) && Asks(o) ==> RecordVerb(o.do)
  }

  lemma OverloadRecordsExactly(outcomes: seq<Outcome>, fill: int, addr: string, code: string)
    ensures OnlyRecords(OverloadAll(outcomes, fill, false, addr, code).actions) <==> OverloadRecords(outcomes, fill)
  {
    FiresExactly(outcomes, ByFill(fill, false), addr, code);
    var actions := OverloadAll(outcomes, fill, false, addr, code).actions;
    forall o | o in outcomes && OverloadMatches(o, fill, false) && Asks(o) ensures AskOf(o, code) in actions {
      assert AsksFor(outcomes, ByFill(fill, false), code, AskOf(o, code));
    }
  }

  lemma DenialRecordsTo(env: Env, s: Snapshots.Content, t: Task, out: Checked)
    requires NameOf(t) in s.byName && GoodProfile(s.byName[NameOf(t)])
    requires AnswerTo(env, s, t, out).reply.verdict.Deny?
    ensures OnlyRecords(AnswerTo(env, s, t, out).reply.actions) <==>
      (t.msg.phase.InRequest? ==> OverloadRecords(s.byName[NameOf(t)].request.outcomes, t.fill))
  {
    var p := s.byName[NameOf(t)];
    DeniedTo(env, s, t, out);
    FiredByDenial(p, t, DecisionOf(env, p, t.msg, out.kind, AskPercent(t, p)));
    OverloadRecordsExactly(p.request.outcomes, t.fill, t.clientIp, REASON_QUEUE_LIMIT);
  }

  /** A denial asks only for records, overload outcomes aside: outside the request phase always, and in the request
      phase exactly when no overload outcome that the fill of the queue reaches asks for anything else. */
  lemma DenialsOnlyRecord(env: Env, s: Snapshots.Content, t: Task)
    requires Complete(s)
    ensures AnswerOf(env, s, t).reply.verdict.Deny? ==>
      && NameOf(t) in s.byName
      && (OnlyRecords(AnswerOf(env, s, t).reply.actions) <==>
          (t.msg.phase.InRequest? ==> OverloadRecords(s.byName[NameOf(t)].request.outcomes, t.fill)))
  {
    if AnswerOf(env, s, t).reply.verdict.Deny? {
      DenialRecordsTo(env, s, t, OutcomeOf(env, s, t));
    }
  }

  function SectionOf(msg: Message): string {
    match msg.phase
    case InRequest => "request"
    case InResponse => "response"
    case InFrame => if DirectionOf(msg) == S2C then "frame.s2c" else "frame.c2s"
  }
}
