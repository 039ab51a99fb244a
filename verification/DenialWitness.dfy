/** A snapshot and a message whose denial challenges: the body is unavailable, and the queue is past its mark. */
module DenialWitness {
  import opened Basics
  import opened Text
  import opened Policy
  import opened Profiles
  import opened Contracts
  import opened Validation
  import opened Inspection
  import BodyLoader
  import Snapshots

  const CHALLENGE := Outcome(ON_OVERLOAD, Some(50), false, false, "other", "challenge", "", "", None, None,
                             "", "", "", "", None, None, None, [], "", "", 0, "")
  const DENY := Rule(ACTION_DENY, 0)
  const DENY_ALL := RequestRules(DENY, DENY, DENY, DENY, DENY, DENY)
  const NO_FRAMES := FrameDirection(false, FrameRules(DENY, DENY, DENY, DENY, DENY, DENY), "", [])

  const STRICT := Profile("default", ENFORCE, KIND_JSONSCHEMA, "main", "", [],
    Profiles.RequestPhase(true, RequestChecks(true, false, false, false), DENY_ALL, "blocked", [CHALLENGE]),
    Profiles.ResponsePhase(false, ResponseChecks(false, false, false), ResponseRules(DENY_ALL, DENY), "", []),
    FramePhase(false, [], NO_FRAMES, NO_FRAMES), [], Limits(1, 1, 0, 0), "off", map[])

  const STRICT_SNAPSHOT := Snapshots.Content(
    map[Snapshots.DEFAULT_NAME := STRICT],
    map[Snapshots.DEFAULT_NAME := Contract(KIND_JSONSCHEMA, "main", None, None, map[], [], [])])

  const LOST := BodyLoader.Locator("", "", "", "evicted", "", "", false, None)
  const BUSY_TASK := Task(Message(InRequest, "POST", "/", 0, false, None), "", [], "", 60, None, Some(LOST), None)

  lemma StrictIsComplete()
    ensures Complete(STRICT_SNAPSHOT)
  {
    ChallengeIsGood();
    assert STRICT.request.outcomes[0] == CHALLENGE;
    assert ObjectName(STRICT.source);
    forall k | 0 <= k < 6 ensures GoodRule(RequestTable(DENY_ALL)[k].rule) {
    }
    assert GoodTables(STRICT) && GoodContract(STRICT) && GoodLimits(STRICT);
  }

  lemma ChallengeIsGood()
    ensures GoodOutcome("request", CHALLENGE)
  {
    assert Axes("challenge") == ["request"];
  }

  lemma LostBodyIsDenied(env: Env)
    ensures var k := OutcomeOf(env, STRICT_SNAPSHOT, BUSY_TASK).kind;
      && OutcomeOf(env, STRICT_SNAPSHOT, BUSY_TASK).fault == "" && k == BodyUnavailable
      && RuleFor(PhaseOf(STRICT, BUSY_TASK.msg), k).action == ACTION_DENY
  {
    var i := InputOf(env, STRICT, STRICT_SNAPSHOT.contracts["default"], BUSY_TASK);
    assert i.body == BodyLoader.Body([], false, "evicted", false, "");
    TableMapHolds(RequestTable(DENY_ALL), 5);
  }

  lemma BusyQueueChallenges(addr: string, code: string)
    ensures OverloadAll([CHALLENGE], 60, false, addr, code) == Fired([AskOf(CHALLENGE, code)], [], ["challenge"])
  {
    assert [CHALLENGE][..0] == [];
    assert Collect([], ByFill(60, false), addr, code) == NOTHING;
    assert ByFill(60, false)(CHALLENGE);
  }

  /** The condition is not idle: in a complete snapshot, with the queue past an overload mark, a message is denied
      and challenged at once. */
  lemma DenialMayChallenge(env: Env)
    ensures Complete(STRICT_SNAPSHOT) && GoodOutcome("request", CHALLENGE)
    ensures var r := AnswerOf(env, STRICT_SNAPSHOT, BUSY_TASK).reply;
      r.verdict.Deny? && r.actions == [AskOf(CHALLENGE, REASON_QUEUE_LIMIT)] && !OnlyRecords(r.actions)
  {
    StrictIsComplete();
    ChallengeIsGood();
    LostBodyIsDenied(env);
    BusyQueueChallenges("", REASON_QUEUE_LIMIT);
    StrictDenies(env, OutcomeOf(env, STRICT_SNAPSHOT, BUSY_TASK));
    assert AskOf(CHALLENGE, REASON_QUEUE_LIMIT).do == "challenge";
  }

  lemma StrictDenies(env: Env, out: Checked)
    requires out.fault == "" && out.kind == BodyUnavailable
    requires RuleFor(PhaseOf(STRICT, BUSY_TASK.msg), BodyUnavailable).action == ACTION_DENY
    ensures var r := AnswerTo(env, STRICT_SNAPSHOT, BUSY_TASK, out).reply;
      r.verdict.Deny? && r.actions == OverloadAll([CHALLENGE], 60, false, "", REASON_QUEUE_LIMIT).actions
  {
    var d := DecisionOf(env, STRICT, BUSY_TASK.msg, out.kind, AskPercent(BUSY_TASK, STRICT));
    NothingFires(d);
    BusyQueueChallenges("", REASON_QUEUE_LIMIT);
    assert Judges(STRICT_SNAPSHOT, BUSY_TASK);
    AnswerToIsJudged(env, STRICT_SNAPSHOT, BUSY_TASK, out);
  }

  lemma NothingFires(d: Decision)
    requires d.verdict.Deny? && d.would.None?
    ensures FireOf(PhaseOf(STRICT, BUSY_TASK.msg), d, "") == NOTHING
  {
    assert [CHALLENGE][..0] == [];
    assert !ByVerdict(Deny, d.score)(CHALLENGE);
    assert Collect([], ByVerdict(Deny, d.score), "", d.code) == NOTHING;
  }
}
