/**
 * What one visit does to a rollout, said of its record, the clock and the guardrail results, and why rollbacks begin.
 */
module VisitTheorems {
  import opened Wrappers
  import opened Lifecycle
  import opened Guardrails
  import opened Cohorts
  import opened RolloutCase
  import opened CaseInvariant
  import opened CaseSteps
  import opened World
  import opened SystemInvariant
  import opened SystemRuns

  // ----- A delivering rollout -----

  /**
   * The outcome of a visit to a delivering rollout. It begins to roll back exactly when the rollout is too old, the
   * stage is late, or the stage is due and a guardrail trips; it pauses or advances by the guardrails when the stage is
   * due; and otherwise nothing changes at all.
   */
  lemma {:induction false} DeliveryOutcome(h: Hash, c: Case, e: Event)
    requires Shaped(c) && Delivering(c) && e.Visit?
    ensures var n, now, verdict := Next(h, c, e), e.tick.clock.decide, Verdict(c, e.tick);
      var fails := TooOld(c.r, now) || Late(c, now) || (Due(c, now) && verdict == Unhealthy);
      && (n.r.state == RollingBack <==> fails)
      && (fails ==> SameStanding(c, n))
      && (!fails && !Due(c, now) ==> n == c)
      && (!fails && Due(c, now) && verdict == Unknown ==> n.r.state == Paused && SameStanding(c, n))
      && (!fails && Due(c, now) && verdict == Healthy ==>
            if c.r.currentStageIndex == |c.stages| - 1 then n.r.state == Completed && SameStanding(c, n)
            else n.r.state == Deploying && n.r.currentStageIndex == c.r.currentStageIndex + 1
                 && n.r.stageStartedAt == e.tick.clock.save && n.stages == c.stages)
      && n.r.guardrailFailures
         == if !TooOld(c.r, now) && Due(c, now) && c.r.guardrails != []
            then Round(c.r.guardrails, e.tick.results, c.r.guardrailFailures) else c.r.guardrailFailures
  {
    hide Cohort, CoverageReached, Round, RoundStatus, Decide, StageProgress, Consults;
    hide TooOld, Late, Due, Verdict, ValidPlan, DistinctStages, ValidRules, NonNegative;
    DecisionMeans(c, e.tick);
    if !TooOld(c.r, e.tick.clock.decide) && !Late(c, e.tick.clock.decide) && !Due(c, e.tick.clock.decide) {
      NotDueIsNotConsulted(c, e.tick);
    }
    LateIsNotDue(c, e.tick.clock.decide);
  }

  /** Stage, targets and the time the stage began stay. */
  predicate SameStanding(c: Case, n: Case) {
    && n.stages == c.stages && n.cohorts == c.cohorts && n.r.currentStageID == c.r.currentStageID
    && n.r.currentStageIndex == c.r.currentStageIndex && n.r.stageStartedAt == c.r.stageStartedAt
  }

  /** The record says when it was last written: on a move, on a guardrail round that moves nothing, or not at all. */
  lemma {:induction false} RecordSaysWhen(h: Hash, c: Case, e: Event)
    requires Shaped(c) && Delivering(c) && e.Visit?
    ensures var n, clock := Next(h, c, e), e.tick.clock;
      n.r.updatedAt == if n.r.state != c.r.state || n.r.currentStageIndex != c.r.currentStageIndex then clock.save
                       else if TooOld(c.r, clock.decide) || !Due(c, clock.decide) || c.r.guardrails == []
                       then c.r.updatedAt
                       else clock.decide
  {
    hide Cohort, CoverageReached, Round, RoundStatus, Decide, StageProgress, Consults;
    hide TooOld, Late, Due, Verdict, ValidPlan, DistinctStages, ValidRules, NonNegative;
    DecisionMeans(c, e.tick);
  }

  lemma {:induction false} NotDueIsNotConsulted(c: Case, t: Tick)
    requires Indexed(c) && !Due(c, t.clock.decide)
    ensures !Consults(c, t) && Observed(c, t) == c
  {
  }

  lemma {:induction false} LateIsNotDue(c: Case, now: Time)
    requires Indexed(c)
    ensures !(Late(c, now) && Due(c, now))
  {
  }

  // ----- A rollout that is rolling back -----

  /**
   * A verification ends verified when it is covered or nobody is asked, partially once its timeout is over, and waits
   * till then.
   */
  lemma {:induction false} VerificationOutcome(h: Hash, c: Case, e: Event)
    requires Shaped(c) && Verifying(c) && c.r.state == RollingBack && e.Visit?
    ensures var n, clock := Next(h, c, e), e.tick.clock;
      var settled := Current(c) == [] || CoverageReached(Current(c), c.r.requiredAckPercent);
      var over := 0 < c.r.rollbackTimeout <= clock.decide - c.r.stageStartedAt;
      && (settled ==> n == c.(r := c.r.(state := RolledBack, rollbackStatus := Verified, updatedAt := clock.save)))
      && (!settled && over ==>
          n == c.(r := c.r.(state := RolledBack, rollbackStatus := Partial, updatedAt := clock.save)))
      && (!settled && !over ==> n == c)
  {
    hide CoverageReached;
  }

  /**
   * The first visit asks everyone of the current cohort, each of whom is still to answer, to confirm the stable
   * version.
   */
  lemma {:induction false} VerificationBegins(h: Hash, c: Case, e: Event)
    requires Shaped(c) && !Verifying(c) && c.r.state == RollingBack && e.Visit?
    ensures var n, checks := Next(h, c, e), Next(h, c, e).cohorts[|c.cohorts|..];
      && |n.cohorts| == |c.cohorts| + 1 && n.cohorts[..|c.cohorts|] == c.cohorts
      && n.stages == c.stages + [Stage(c.r.id + "-rollback-verification", 100, 0)]
      && n.r.currentStageID == c.r.id + "-rollback-verification" && n.r.stageStartedAt == e.tick.clock.decide
      && |checks[0]| == |Current(c)|
      && (forall i :: 0 <= i < |Current(c)| ==>
            checks[0][i] == StageTarget(c.r.id, c.r.id + "-rollback-verification", Current(c)[i].agentID,
                                        Current(c)[i].bucket, c.r.stableVersionID, e.revision, e.tick.clock.decide,
                                        None, TargetPending))
      && n.r.state == (if Current(c) == [] then RolledBack else RollingBack)
      && n.r.rollbackStatus == (if Current(c) == [] then Verified else c.r.rollbackStatus)
      && n.r.updatedAt == (if Current(c) == [] then e.tick.clock.save else e.tick.clock.decide)
  {
    hide ValidPlan, DistinctStages, ValidRules, NonNegative;
  }

  // ----- Acknowledgements, and what is activated -----

  /**
   * An acknowledgement is refused exactly when its rollout is unknown or over. Otherwise it is counted exactly when it
   * names a target of the current cohort that is still to answer, with its version and revision; the coverage reported
   * is that of the cohort with that one target added, and the rollout reported is the one that is stored.
   */
  lemma {:induction false} AcknowledgementAnswers(h: Hash, w: World, ack: Ack, t: Tick)
    requires Files(h, w) && (ack.rolloutID in w.cases ==> Indexed(w.cases[ack.rolloutID]))
    ensures var answer := Acknowledge(h, w, ack, t);
      && (answer == Err(NotFound) <==> ack.rolloutID !in w.cases)
      && (answer == Err(Conflict) <==>
            ack.rolloutID in w.cases && Terminal(w.cases[ack.rolloutID].r.state))
      && (answer.Err? ==> answer == Err(NotFound) || answer == Err(Conflict))
      && (answer.Ok? ==>
            var current, report := Current(w.cases[ack.rolloutID]), answer.value.1;
            && (report.counted <==>
                  exists i :: 0 <= i < |current| && current[i].status == TargetPending
                    && current[i].agentID == ack.agentID && current[i].rolloutID == ack.rolloutID
                    && current[i].stageID == ack.stageID && current[i].expectedVersionID == ack.versionID
                    && current[i].snapshotRevision == ack.snapshotRevision)
            && report.coverage.total == |current|
            && report.coverage.acked == |AckedPlaces(current)| + (if report.counted then 1 else 0)
            && ack.rolloutID in answer.value.0.cases && report.rollout == answer.value.0.cases[ack.rolloutID].r)
  {
    hide Progress, Acknowledged, Counts;
    if ack.rolloutID in w.cases {
      var current := Current(w.cases[ack.rolloutID]);
      CurrentTargetsDiffer(h, w.cases[ack.rolloutID]);
      CountsIff(current, ack);
      AckCountsOnce(current, ack);
      AckedCountIsACount(current);
    }
  }

  lemma {:induction false} CurrentTargetsDiffer(h: Hash, c: Case)
    requires Inv(h, c) && Indexed(c)
    ensures DistinctTargets(Current(c))
  {
  }

  /** After its target is marked, an acknowledgement is a visit. */
  lemma {:induction false} AcknowledgementIsAVisit(
      h: Hash, c: Case, ack: Ack, agents: seq<Agent>, revision: int, t: Tick)
    requires Indexed(c) && !Terminal(c.r.state)
    ensures Indexed(AckCase(c, ack)) && AckCase(c, ack).r == c.r
    ensures Next(h, c, AckVisit(ack, agents, revision, t)) == Next(h, AckCase(c, ack), Visit(agents, revision, t))
  {
    hide Acknowledged, Progress;
  }

  /** A promotion activates the next stage for exactly the agents that are registered in scope and eligible there. */
  lemma {:induction false} PromotionActivates(
      h: Hash, c: Case, agents: seq<Agent>, revision: int, t: Tick, agentID: string)
    requires Indexed(c) && c.r.currentStageIndex < |c.stages| - 1
    ensures var next := c.r.currentStageIndex + 1;
      Targeted(PromotedTo(h, c, agents, revision, t).cohorts[next], agentID) <==>
        Chosen(h, c.r, c.stages[next].percentage, agentID)
        && exists a :: a in agents && a.id == agentID && a.environment == c.r.environment
             && (c.r.targetServices == [] || a.service in c.r.targetServices)
  {
    hide Cohort, Chosen;
    ScopeMeans(agents, c.r.environment, c.r.targetServices, agentID);
    SamePick(h, c, t, agentID);
    CohortMembers(h, PromotedRecord(c, t.clock.save), c.stages[c.r.currentStageIndex + 1],
                  FilterAgents(agents, c.r.environment, c.r.targetServices), revision, t.clock.build, agentID);
  }

  lemma {:induction false} SamePick(h: Hash, c: Case, t: Tick, agentID: string)
    requires Indexed(c) && c.r.currentStageIndex < |c.stages| - 1
    ensures var percentage := c.stages[c.r.currentStageIndex + 1].percentage;
      Chosen(h, PromotedRecord(c, t.clock.save), percentage, agentID) == Chosen(h, c.r, percentage, agentID)
  {
  }

  lemma {:induction false} ScopeMeans(agents: seq<Agent>, environment: string, services: seq<string>, agentID: string)
    ensures Listed(FilterAgents(agents, environment, services), agentID) <==>
      exists a :: a in agents && a.id == agentID && a.environment == environment
        && (services == [] || a.service in services)
  {
    var scope := FilterAgents(agents, environment, services);
    if Listed(scope, agentID) {
      var a :| a in scope && a.id == agentID;
      assert a in agents;
    }
    if a :| a in agents && a.id == agentID && a.environment == environment
            && (services == [] || a.service in services)
    {
      assert a in scope;
    }
  }

  /** So does a creation for the first stage. */
  lemma {:induction false} CreationActivates(
      h: Hash, r: Rollout, plan: seq<Stage>, agents: seq<Agent>, revision: int, at: Time, agentID: string)
    requires |plan| > 0
    ensures Targeted(NewCase(h, r, plan, agents, revision, at).cohorts[0], agentID) <==>
      Chosen(h, r, plan[0].percentage, agentID)
      && exists a :: a in agents && a.id == agentID && a.environment == r.environment
           && (r.targetServices == [] || a.service in r.targetServices)
  {
    hide Cohort, Chosen;
    ScopeMeans(agents, r.environment, r.targetServices, agentID);
    CohortMembers(h, r, plan[0], FilterAgents(agents, r.environment, r.targetServices), revision, at, agentID);
  }

  /** The last stage of an accepted plan is for every agent in scope. */
  lemma {:induction false} LastStageIsForEveryone(h: Hash, r: Rollout, plan: seq<Stage>, agentID: string)
    requires ValidPlan(plan)
    ensures Chosen(h, r, plan[|plan| - 1].percentage, agentID)
  {
  }

  // ----- Over runs -----

  /** The file a visit or an acknowledgement decides about: an acknowledged target is marked before. */
  function Found(c: Case, step: Step): Case
    requires Indexed(c)
  {
    if step.AckStep? then AckCase(c, step.ack) else c
  }

  lemma {:induction false} FoundKeepsStanding(h: Hash, c: Case, step: Step)
    requires Inv(h, c) && Delivering(c)
    ensures Indexed(c) && Shaped(Found(c, step)) && Delivering(Found(c, step)) && Found(c, step).r == c.r
  {
    hide Activated, Nested, Mirrored, Earned, Paced, Guarded, Concluded, Acknowledged;
    if step.AckStep? {
      AckKeepsInv(h, c, step.ack);
      assert AckCase(c, step.ack).r == c.r;
    }
  }

  /**
   * Why rollbacks begin. In every run a step takes a delivering rollout to rolling back exactly when it visits or
   * acknowledges that rollout and finds it too old, its stage late, or its stage due with a guardrail that trips.
   */
  lemma {:induction false} RollbacksHaveACause(setup: Setup, run: seq<Sys>, steps: seq<Step>, n: nat, id: string)
    requires IsRun(setup, run, steps) && n < |steps| && n + 1 < |run|
    requires id in run[n].w.cases && Delivering(run[n].w.cases[id])
    ensures id in run[n + 1].w.cases && Indexed(run[n].w.cases[id]) && Indexed(Found(run[n].w.cases[id], steps[n]))
    ensures run[n + 1].w.cases[id].r.state == RollingBack <==>
      Touches(run[n].w, steps[n], id)
      && (var found, t := Found(run[n].w.cases[id], steps[n]), steps[n].tick;
          || TooOld(found.r, t.clock.decide) || Late(found, t.clock.decide)
          || (Due(found, t.clock.decide) && Verdict(found, t) == Unhealthy))
  {
    hide IsRun, Inv, Enabled, Apply, AllIndexed, Next, TooOld, Late, Due, Verdict, Extends, Shaped;
    StepInRun(setup, run, steps, n);
    RunExtends(setup, run, steps, n, n + 1, id);
    StepOnOneRollout(setup, run[n], steps[n], id);
    var c, step := run[n].w.cases[id], steps[n];
    FoundKeepsStanding(setup.h, c, step);
    StaysWithoutAnEvent(setup.h, c, run[n].w, step, id);
    if Touches(run[n].w, step, id) {
      if step.AckStep? {
        AcknowledgementIsAVisit(setup.h, c, step.ack, run[n].w.agents, run[n].w.nextRevision, step.tick);
      }
      DeliveryOutcome(setup.h, Found(c, step), Visit(run[n].w.agents, run[n].w.nextRevision, step.tick));
    }
  }

  lemma {:induction false} StaysWithoutAnEvent(h: Hash, c: Case, w: World, step: Step, id: string)
    requires id in w.cases && w.cases[id] == c && Indexed(c) && Delivering(c)
    ensures !Terminal(c.r.state)
    ensures !Touches(w, step, id) ==> Next(h, c, EventOf(w, step, id)) == c
    ensures Touches(w, step, id) && step.AckStep? ==>
      EventOf(w, step, id) == AckVisit(step.ack, w.agents, w.nextRevision, step.tick)
    ensures Touches(w, step, id) && !step.AckStep? ==>
      EventOf(w, step, id) == Visit(w.agents, w.nextRevision, step.tick)
  {
    hide Progress;
  }

  /** The step acknowledges this very target. */
  predicate Acknowledges(step: Step, t: StageTarget) {
    && step.AckStep? && step.ack.agentID == t.agentID && step.ack.rolloutID == t.rolloutID
    && step.ack.stageID == t.stageID
    && step.ack.versionID == t.expectedVersionID && step.ack.snapshotRevision == t.snapshotRevision
    && t.ackedAt == Some(step.ack.ackedAt)
  }

  /** A visit marks nothing: an acked target was there, acked, before it. */
  lemma {:induction false} VisitsMarkNothing(
      h: Hash, c: Case, agents: seq<Agent>, revision: int, t: Tick, i: nat, k: nat)
    requires Indexed(c)
    requires var n := Progress(h, c, agents, revision, t).next;
      i < |n.cohorts| && k < |n.cohorts[i]| && n.cohorts[i][k].status == TargetAcked
    ensures i < |c.cohorts| && k < |c.cohorts[i]|
    ensures c.cohorts[i][k] == Progress(h, c, agents, revision, t).next.cohorts[i][k]
  {
    hide Cohort, CoverageReached, Round, RoundStatus, StageProgress, Decide, Consults;
    var next := c.r.currentStageIndex + 1;
    if c.r.state != RollingBack && Decide(c, t) == DecisionPromote && next < |c.stages| && i == next {
      var o := Observed(c, t);
      CohortStamps(h, PromotedRecord(o, t.clock.save), o.stages[next],
                   FilterAgents(agents, o.r.environment, o.r.targetServices), revision, t.clock.build, k);
    }
  }

  lemma {:induction false} MarkedOrAcked(c: Case, ack: Ack, i: nat, k: nat)
    requires Indexed(c) && i < |AckCase(c, ack).cohorts| && k < |AckCase(c, ack).cohorts[i]|
    requires AckCase(c, ack).cohorts[i][k].status == TargetAcked
    ensures i < |c.cohorts| && k < |c.cohorts[i]|
    ensures c.cohorts[i][k] == AckCase(c, ack).cohorts[i][k]
      || (var t := AckCase(c, ack).cohorts[i][k];
          && ack.agentID == t.agentID && ack.rolloutID == t.rolloutID && ack.stageID == t.stageID
          && ack.versionID == t.expectedVersionID && ack.snapshotRevision == t.snapshotRevision
          && t.ackedAt == Some(ack.ackedAt))
  {
  }

  lemma {:induction false} AckedBeforeOrNow(setup: Setup, s: Sys, step: Step, id: string, i: nat, k: nat)
    requires AllIndexed(s.w) && id in s.w.cases
    requires var n := Next(setup.h, s.w.cases[id], EventOf(s.w, step, id));
      i < |n.cohorts| && k < |n.cohorts[i]| && n.cohorts[i][k].status == TargetAcked
    ensures var c, n := s.w.cases[id], Next(setup.h, s.w.cases[id], EventOf(s.w, step, id));
      (i < |c.cohorts| && k < |c.cohorts[i]| && c.cohorts[i][k] == n.cohorts[i][k])
      || Acknowledges(step, n.cohorts[i][k])
  {
    hide Progress, AckCase;
    var c := s.w.cases[id];
    if !Terminal(c.r.state) {
      match step
      case AckStep(ack, t) =>
        if ack.rolloutID == id {
          AcknowledgementIsAVisit(setup.h, c, ack, s.w.agents, s.w.nextRevision, t);
          VisitsMarkNothing(setup.h, AckCase(c, ack), s.w.agents, s.w.nextRevision, t, i, k);
          MarkedOrAcked(c, ack, i, k);
        }
      case VisitStep(j, t) =>
        if j == id {
          VisitsMarkNothing(setup.h, c, s.w.agents, s.w.nextRevision, t, i, k);
        }
      case _ =>
    }
  }

  /** A new rollout's targets are all still to answer. */
  lemma {:induction false} NewTargetsArePending(
      h: Hash, r: Rollout, plan: seq<Stage>, agents: seq<Agent>, revision: int, at: Time, i: nat, k: nat)
    requires |plan| > 0
    requires var c := NewCase(h, r, plan, agents, revision, at); i < |c.cohorts| && k < |c.cohorts[i]|
    ensures NewCase(h, r, plan, agents, revision, at).cohorts[i][k].status == TargetPending
  {
    hide Cohort;
    if i == 0 {
      CohortStamps(h, r, plan[0], FilterAgents(agents, r.environment, r.targetServices), revision, at, k);
    }
  }

  lemma {:induction false} NewFilesHaveNoAcks(setup: Setup, s: Sys, step: Step, id: string, i: nat, k: nat)
    requires AllIndexed(s.w) && id !in s.w.cases && id in Apply(setup, s.w, step).cases
    requires var c := Apply(setup, s.w, step).cases[id]; i < |c.cohorts| && k < |c.cohorts[i]|
    ensures Apply(setup, s.w, step).cases[id].cohorts[i][k].status == TargetPending
  {
    hide NextEffect, NewCase, CheckInput;
    assert step.CreateStep?;
    var g, plan := CheckInput(s.w.registry, step.input, setup.plan).value, RequestedPlan(step.input, setup.plan);
    AcceptedPlanIsNotEmpty(s.w.registry, step.input, setup.plan);
    NewTargetsArePending(setup.h, NewRecord(step.input, g, id, plan[0].id, step.clock.save), plan, s.w.agents,
                         s.w.nextRevision, step.clock.build, i, k);
  }

  lemma {:induction false} AcceptedPlanIsNotEmpty(s: Registry, input: RolloutInput, defaultPlan: seq<Stage>)
    requires CheckInput(s, input, defaultPlan).Ok?
    ensures |RequestedPlan(input, defaultPlan)| > 0
  {
    hide FindGrounds, RuleProblem;
  }

  /**
   * Every acknowledged target was acknowledged: at any moment of any run, for each acked target of any stage there is
   * an earlier step that acknowledges its agent, rollout, stage, version and revision at the time it is marked with.
   */
  lemma {:induction false} AckedTargetsWereAcknowledged(
      setup: Setup, run: seq<Sys>, steps: seq<Step>, n: nat, id: string, i: nat, k: nat)
    requires IsRun(setup, run, steps) && n < |run| && |run| == |steps| + 1 && id in run[n].w.cases
    requires i < |run[n].w.cases[id].cohorts| && k < |run[n].w.cases[id].cohorts[i]|
    requires run[n].w.cases[id].cohorts[i][k].status == TargetAcked
    ensures exists m :: 0 <= m < n && Acknowledges(steps[m], run[n].w.cases[id].cohorts[i][k])
    decreases n
  {
    hide Next, Apply, Enabled, AllIndexed, Acknowledges;
    var t := run[n].w.cases[id].cohorts[i][k];
    assert n > 0;
    StepInRun(setup, run, steps, n - 1);
    if id in run[n - 1].w.cases {
      StepOnOneRollout(setup, run[n - 1], steps[n - 1], id);
      AckedBeforeOrNow(setup, run[n - 1], steps[n - 1], id, i, k);
      if !Acknowledges(steps[n - 1], t) {
        AckedTargetsWereAcknowledged(setup, run, steps, n - 1, id, i, k);
        var m :| 0 <= m < n - 1 && Acknowledges(steps[m], t);
        assert m < n;
      }
    } else {
      NewFilesHaveNoAcks(setup, run[n - 1], steps[n - 1], id, i, k);
    }
  }

  /**
   * The bucket of every activated target, in every run, is the hash of configuration, candidate and agent, modulo ten
   * thousand, and lies in the share its stage takes.
   */
  lemma {:induction false} TargetsHaveTheirBuckets(
      setup: Setup, run: seq<Sys>, steps: seq<Step>, n: nat, id: string, i: nat, k: nat)
    requires IsRun(setup, run, steps) && n < |run| && id in run[n].w.cases
    requires i <= run[n].w.cases[id].r.currentStageIndex && i < |run[n].w.cases[id].cohorts|
    requires k < |run[n].w.cases[id].cohorts[i]|
    ensures i < |run[n].w.cases[id].stages|
    ensures var c, t := run[n].w.cases[id], run[n].w.cases[id].cohorts[i][k];
      && t.bucket == setup.h(c.r.configDefinitionID + "\0" + c.r.candidateVersionID + "\0" + t.agentID) % 10000
      && t.bucket < c.stages[i].percentage * 100
  {
    hide IsRun, Nested, Mirrored, Earned, Paced, Guarded, Concluded, ValidRules, NonNegative, DistinctStages;
    ReachableStatesAreSound(setup, run, steps, n);
    CaseIsSound(setup.h, run[n], id);
    var c := run[n].w.cases[id];
    assert CandidateTarget(setup.h, c.r, c.stages[i], c.cohorts[i][k]);
    PlannedPercentage(c, i);
  }

  lemma {:induction false} PlannedPercentage(c: Case, i: nat)
    requires Shaped(c) && i <= c.r.currentStageIndex
    ensures i < |c.stages| && c.stages[i].percentage <= 100
  {
    assert ValidStage(Plan(c)[i], PreviousPercentage(Plan(c), i));
  }
}
