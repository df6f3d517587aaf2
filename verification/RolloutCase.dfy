/**
 * One rollout as a state machine over its own file: the record, its stages, and the cohort frozen for each stage.
 * The service in RolloutService.dfy is proved to move every rollout exactly by these functions.
 */
module RolloutCase {
  import opened Wrappers
  import opened Lifecycle
  import opened Guardrails
  import opened Cohorts

  datatype Case = Case(r: Rollout, stages: seq<Stage>, cohorts: seq<seq<StageTarget>>)

  /** Successive readings of the service clock in one step; a branch that reads less often leaves some unused. */
  datatype Clock = Clock(decide: Time, save: Time, build: Time)

  predicate Runs(clock: Clock) {
    clock.decide <= clock.save <= clock.build
  }

  /** What one visit to a rollout observes: the clock and the guardrail queries' results. */
  datatype Tick = Tick(clock: Clock, results: seq<QueryResult>)

  // ----- filterAgents -----

  predicate InScope(a: Agent, environment: string, services: seq<string>) {
    a.environment == environment && (services == [] || a.service in services)
  }

  function FilterAgents(agents: seq<Agent>, environment: string, services: seq<string>): (kept: seq<Agent>)
    ensures forall a :: a in kept <==> a in agents && InScope(a, environment, services)
  {
    if agents == [] then []
    else
      var last := agents[|agents| - 1];
      FilterAgents(agents[..|agents| - 1], environment, services)
      + if InScope(last, environment, services) then [last] else []
  }

  lemma {:induction false} FilterKeepsDistinct(agents: seq<Agent>, environment: string, services: seq<string>)
    requires DistinctAgents(agents)
    ensures DistinctAgents(FilterAgents(agents, environment, services))
  {
    if agents != [] {
      var front := agents[..|agents| - 1];
      FilterKeepsDistinct(front, environment, services);
      var kept := FilterAgents(front, environment, services);
      forall i | 0 <= i < |kept| ensures kept[i].id != agents[|agents| - 1].id {
        assert kept[i] in front;
      }
    }
  }

  method SelectAgents(agents: seq<Agent>, environment: string, services: seq<string>) returns (filtered: seq<Agent>)
    ensures filtered == FilterAgents(agents, environment, services)
  {
    filtered := [];
    for i := 0 to |agents|
      invariant filtered == FilterAgents(agents[..i], environment, services)
    {
      assert agents[..i + 1][..i] == agents[..i];
      if agents[i].environment != environment {
        continue;
      }
      if |services| > 0 && agents[i].service !in services {
        continue;
      }
      filtered := filtered + [agents[i]];
    }
    assert agents[..|agents|] == agents;
  }

  // ----- The machine -----

  function VerificationID(rolloutID: string): string {
    rolloutID + "-rollback-verification"
  }

  predicate Verifying(c: Case) {
    c.r.currentStageID == VerificationID(c.r.id)
  }

  predicate Indexed(c: Case) {
    |c.cohorts| == |c.stages| && 0 <= c.r.currentStageIndex < |c.stages|
  }

  /** Where the current stage sits in the stage list. */
  function Position(c: Case): nat
    requires Indexed(c)
  {
    if Verifying(c) then |c.stages| - 1 else c.r.currentStageIndex
  }

  function Current(c: Case): seq<StageTarget>
    requires Indexed(c)
  {
    c.cohorts[Position(c)]
  }

  predicate Expired(c: Case, t: Tick) {
    c.r.rolloutMaxDuration > 0 && t.clock.decide - c.r.createdAt >= c.r.rolloutMaxDuration
  }

  function StageProgress(c: Case, t: Tick): StageDecision
    requires Indexed(c)
  {
    EvaluateStageProgress(Current(c), c.r.requiredAckPercent, c.r.stageStartedAt, t.clock.decide,
                          c.stages[c.r.currentStageIndex].minimumDuration, c.r.deploymentTimeout)
  }

  /** Whether this visit queries the guardrails. */
  predicate Consults(c: Case, t: Tick)
    requires Indexed(c)
  {
    !Expired(c, t) && StageProgress(c, t) == DecisionPromote && c.r.guardrails != []
  }

  function Decide(c: Case, t: Tick): StageDecision
    requires Indexed(c)
  {
    if Expired(c, t) then DecisionRollback
    else if !Consults(c, t) then StageProgress(c, t)
    else match RoundStatus(c.r.guardrails, t.results, c.r.guardrailFailures)
      case Healthy => DecisionPromote
      case Unhealthy => DecisionRollback
      case Unknown => DecisionPause
  }

  /** The maximum duration has passed since creation. */
  predicate TooOld(r: Rollout, now: Time) {
    0 < r.rolloutMaxDuration <= now - r.createdAt
  }

  /** The stage is not covered and its deployment timeout has passed. */
  predicate Late(c: Case, now: Time)
    requires Indexed(c)
  {
    !CoverageReached(Current(c), c.r.requiredAckPercent) && 0 < c.r.deploymentTimeout <= now - c.r.stageStartedAt
  }

  /** The stage is covered and has lasted its minimum duration. */
  predicate Due(c: Case, now: Time)
    requires Indexed(c)
  {
    && CoverageReached(Current(c), c.r.requiredAckPercent)
    && now - c.r.stageStartedAt >= c.stages[c.r.currentStageIndex].minimumDuration
  }

  /** What the guardrails, if there are any, say to this visit. */
  function Verdict(c: Case, t: Tick): Status {
    if c.r.guardrails == [] then Healthy else RoundStatus(c.r.guardrails, t.results, c.r.guardrailFailures)
  }

  /** When a visit decides what, by the record, the clock and the guardrails alone. */
  lemma {:induction false} DecisionMeans(c: Case, t: Tick)
    requires Indexed(c)
    ensures var now, decision := t.clock.decide, Decide(c, t);
      && (decision == DecisionRollback <==>
            TooOld(c.r, now) || Late(c, now) || (Due(c, now) && Verdict(c, t) == Unhealthy))
      && (decision == DecisionPromote <==> !TooOld(c.r, now) && Due(c, now) && Verdict(c, t) == Healthy)
      && (decision == DecisionPause <==> !TooOld(c.r, now) && Due(c, now) && Verdict(c, t) == Unknown)
      && (Consults(c, t) <==> !TooOld(c.r, now) && Due(c, now) && c.r.guardrails != [])
  {
    hide CoverageReached, RoundStatus;
  }

  /** The counters and time a guardrail round leaves behind. */
  function Observed(c: Case, t: Tick): (o: Case)
    requires Indexed(c)
    ensures Indexed(o) && o.stages == c.stages && o.cohorts == c.cohorts
    ensures o.r.currentStageIndex == c.r.currentStageIndex
  {
    if Consults(c, t) then
      c.(r := c.r.(guardrailFailures := Round(c.r.guardrails, t.results, c.r.guardrailFailures),
                   updatedAt := t.clock.decide))
    else c
  }

  function WithState(c: Case, next: State, at: Time): Case {
    c.(r := c.r.(state := next, updatedAt := at))
  }

  function PromotedRecord(c: Case, at: Time): Rollout
    requires Indexed(c) && c.r.currentStageIndex < |c.stages| - 1
  {
    var next := c.r.currentStageIndex + 1;
    c.r.(state := Deploying, currentStageIndex := next, currentStageID := c.stages[next].id,
         stageStartedAt := at, updatedAt := at)
  }

  function PromotedTo(h: Hash, c: Case, agents: seq<Agent>, revision: int, t: Tick): Case
    requires Indexed(c) && c.r.currentStageIndex < |c.stages| - 1
  {
    var next := c.r.currentStageIndex + 1;
    var r := PromotedRecord(c, t.clock.save);
    var scope := FilterAgents(agents, r.environment, r.targetServices);
    Case(r, c.stages, c.cohorts[next := Cohort(h, r, c.stages[next], scope, revision, t.clock.build)])
  }

  function VerificationTarget(r: Rollout, target: StageTarget, revision: int, at: Time): StageTarget {
    StageTarget(r.id, VerificationID(r.id), target.agentID, target.bucket, r.stableVersionID, revision, at, None,
                TargetPending)
  }

  function VerificationTargets(r: Rollout, targets: seq<StageTarget>, revision: int, at: Time): (all: seq<StageTarget>)
    ensures |all| == |targets|
    ensures forall i :: 0 <= i < |all| ==> all[i] == VerificationTarget(r, targets[i], revision, at)
  {
    seq(|targets|, i requires 0 <= i < |targets| => VerificationTarget(r, targets[i], revision, at))
  }

  function Ended(c: Case, status: RollbackStatus, at: Time): Case {
    c.(r := c.r.(state := RolledBack, rollbackStatus := status, updatedAt := at))
  }

  function BeginVerification(c: Case, revision: int, t: Tick): Case
    requires Indexed(c)
  {
    var targets := VerificationTargets(c.r, Current(c), revision, t.clock.decide);
    Case(c.r.(currentStageID := VerificationID(c.r.id), stageStartedAt := t.clock.decide, updatedAt := t.clock.decide),
         c.stages + [Stage(VerificationID(c.r.id), 100, 0)], c.cohorts + [targets])
  }

  /** What one visit does: the new file, whether it took a revision, whether it moved the stable pointer. */
  datatype Effect = Effect(next: Case, activated: bool, completed: bool, decision: StageDecision)

  function RollbackEffect(c: Case, revision: int, t: Tick): Effect
    requires Indexed(c)
  {
    if !Verifying(c) then
      var begun := BeginVerification(c, revision, t);
      Effect(if Current(c) == [] then Ended(begun, Verified, t.clock.save) else begun, true, false, DecisionWait)
    else if CoverageReached(Current(c), c.r.requiredAckPercent) || Current(c) == [] then
      Effect(Ended(c, Verified, t.clock.save), false, false, DecisionWait)
    else if c.r.rollbackTimeout > 0 && t.clock.decide - c.r.stageStartedAt >= c.r.rollbackTimeout then
      Effect(Ended(c, Partial, t.clock.save), false, false, DecisionWait)
    else
      Effect(c, false, false, DecisionWait)
  }

  function PromoteEffect(h: Hash, c: Case, agents: seq<Agent>, revision: int, t: Tick): Effect
    requires Indexed(c)
  {
    if c.r.currentStageIndex == |c.stages| - 1 then
      Effect(WithState(c, Completed, t.clock.save), false, true, DecisionPromote)
    else
      Effect(PromotedTo(h, c, agents, revision, t), true, false, DecisionPromote)
  }

  /** reconcileRollout, and the part of Acknowledge after the target is marked. */
  function Progress(h: Hash, c: Case, agents: seq<Agent>, revision: int, t: Tick): Effect
    requires Indexed(c)
  {
    if c.r.state == RollingBack then RollbackEffect(c, revision, t)
    else
      var o := Observed(c, t);
      match Decide(c, t)
      case DecisionPromote => PromoteEffect(h, o, agents, revision, t)
      case DecisionRollback => Effect(WithState(o, RollingBack, t.clock.save), false, false, DecisionRollback)
      case DecisionPause =>
        Effect(if o.r.state == Paused then o else WithState(o, Paused, t.clock.save), false, false, DecisionPause)
      case DecisionWait => Effect(o, false, false, DecisionWait)
  }

  function AckCase(c: Case, ack: Ack): Case
    requires Indexed(c)
  {
    c.(cohorts := c.cohorts[Position(c) := Acknowledged(Current(c), ack)])
  }

  datatype Event =
    | Idle
    | Visit(agents: seq<Agent>, revision: int, tick: Tick)
    | AckVisit(ack: Ack, agents: seq<Agent>, revision: int, tick: Tick)

  function NextEffect(h: Hash, c: Case, e: Event): Effect
    requires Indexed(c)
  {
    if Terminal(c.r.state) then Effect(c, false, false, DecisionWait)
    else match e
      case Idle => Effect(c, false, false, DecisionWait)
      case Visit(agents, revision, tick) => Progress(h, c, agents, revision, tick)
      case AckVisit(ack, agents, revision, tick) => Progress(h, AckCase(c, ack), agents, revision, tick)
  }

  function Next(h: Hash, c: Case, e: Event): Case
    requires Indexed(c)
  {
    NextEffect(h, c, e).next
  }
}
