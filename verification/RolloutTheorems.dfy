/** What holds between any two moments of one rollout, and over its infinite runs. */
module RolloutTheorems {
  import opened Lifecycle
  import opened Guardrails
  import opened Cohorts
  import opened RolloutCase
  import opened CaseInvariant
  import opened CaseSteps
  import opened Effective

  // ----- Exposure and flapping -----

  lemma {:induction false} SameTargetsTarget(a: seq<StageTarget>, b: seq<StageTarget>, id: string)
    requires SameTargets(a, b)
    ensures Targeted(a, id) <==> Targeted(b, id)
  {
    if Targeted(a, id) {
      var i :| 0 <= i < |a| && a[i].agentID == id;
      assert SameTarget(a[i], b[i]) && b[i] in b;
    }
    if Targeted(b, id) {
      var i :| 0 <= i < |b| && b[i].agentID == id;
      assert SameTarget(a[i], b[i]) && a[i] in a;
    }
  }

  /** An agent once in an activated cohort stays in every later current cohort. */
  lemma {:induction false} ExposureIsKept(h: Hash, c: Case, c': Case, i: nat, id: string)
    requires Inv(h, c) && Inv(h, c') && Extends(c, c')
    requires i <= c.r.currentStageIndex && Targeted(c.cohorts[i], id)
    ensures Targeted(c'.cohorts[c'.r.currentStageIndex], id)
  {
    assert Frozen(c, i);
    SameTargetsTarget(c.cohorts[i], c'.cohorts[i], id);
    assert Covers(c'.cohorts[i], c'.cohorts[c'.r.currentStageIndex]);
    var k :| 0 <= k < |c'.cohorts[i]| && c'.cohorts[i][k].agentID == id;
  }

  /** The verification stage checks exactly the cohort of the stage the rollout had reached. */
  lemma {:induction false} VerificationChecksTheCohort(h: Hash, c: Case, id: string)
    requires Inv(h, c) && Verifying(c)
    ensures Targeted(Current(c), id) <==> Targeted(c.cohorts[c.r.currentStageIndex], id)
    ensures |Current(c)| == |c.cohorts[c.r.currentStageIndex]|
  {
    var candidates, checks := c.cohorts[c.r.currentStageIndex], Current(c);
    if Targeted(checks, id) {
      var i :| 0 <= i < |checks| && checks[i].agentID == id;
      assert MirrorTarget(c.r, candidates[i], checks[i]) && candidates[i] in candidates;
    }
    if Targeted(candidates, id) {
      var i :| 0 <= i < |candidates| && candidates[i].agentID == id;
      assert MirrorTarget(c.r, candidates[i], checks[i]) && checks[i] in checks;
    }
  }

  /** Everyone this rollout ever served the candidate is asked to verify the rollback. */
  lemma {:induction false} RollbackReachesEveryoneExposed(h: Hash, before: Case, c: Case, id: string)
    requires Inv(h, before) && Inv(h, c) && Extends(before, c)
    requires Delivering(before) && OnCandidate(before, id)
    requires Verifying(c)
    ensures Targeted(Current(c), id)
  {
    assert Current(before) == before.cohorts[before.r.currentStageIndex];
    ExposureIsKept(h, before, c, before.r.currentStageIndex, id);
    VerificationChecksTheCohort(h, c, id);
  }

  /** A switch back to stable means the rollout was rolling back. */
  lemma {:induction false} OnlyRollbackTakesTheCandidateAway(h: Hash, a: Case, b: Case, id: string)
    requires Inv(h, a) && Inv(h, b) && Extends(a, b)
    requires OnCandidate(a, id) && !OnCandidate(b, id)
    ensures b.r.state == RollingBack || b.r.state == RolledBack
    ensures a.r.state != Completed
  {
    if Delivering(b) {
      ExposureIsKept(h, a, b, a.r.currentStageIndex, id);
    }
  }

  /** stable* candidate* stable*: between two moments on the candidate there is no moment off it. */
  lemma {:induction false} NoFlapping(h: Hash, a: Case, b: Case, c: Case, id: string)
    requires Inv(h, a) && Inv(h, b) && Inv(h, c) && Extends(a, b) && Extends(b, c)
    requires OnCandidate(a, id) && OnCandidate(c, id)
    ensures OnCandidate(b, id)
  {
    hide Activated, Nested, Mirrored, Earned, Paced, Guarded, Concluded, ValidPlan, DistinctStages, ValidRules;
    if !OnCandidate(b, id) {
      OnlyRollbackTakesTheCandidateAway(h, a, b, id);
      assert false;
    }
  }

  lemma {:induction false} SameChoice(h: Hash, r: Rollout, r': Rollout, percentage: int, agentID: string)
    requires r'.configDefinitionID == r.configDefinitionID && r'.candidateVersionID == r.candidateVersionID
    ensures Chosen(h, r', percentage, agentID) == Chosen(h, r, percentage, agentID)
  {
  }

  lemma {:induction false} StillChosen(h: Hash, c: Case, agentID: string)
    requires Inv(h, c) && Delivering(c) && c.r.currentStageIndex < |c.stages| - 1 && Targeted(Current(c), agentID)
    ensures Chosen(h, c.r, c.stages[c.r.currentStageIndex + 1].percentage, agentID)
  {
    hide Nested, Mirrored, Earned, Paced, Guarded, Concluded, DistinctStages, ValidRules, NonNegative;
    var i := c.r.currentStageIndex;
    var k :| 0 <= k < |c.cohorts[i]| && c.cohorts[i][k].agentID == agentID;
    assert CandidateTarget(h, c.r, c.stages[i], c.cohorts[i][k]);
    assert Plan(c) == c.stages;
    PercentagesIncrease(c.stages, i, i + 1);
    EligibleIsMonotone(c.cohorts[i][k].bucket, c.cohorts[i][k].bucket, c.stages[i].percentage,
                       c.stages[i + 1].percentage);
  }

  lemma {:induction false} NextCohortHas(
      h: Hash, c: Case, agents: seq<Agent>, revision: int, t: Tick, agentID: string)
    requires Inv(h, c) && Delivering(c) && c.r.currentStageIndex < |c.stages| - 1 && Targeted(Current(c), agentID)
    ensures Targeted(PromotedTo(h, c, agents, revision, t).cohorts[c.r.currentStageIndex + 1], agentID)
      <==> Listed(FilterAgents(agents, c.r.environment, c.r.targetServices), agentID)
  {
    hide Nested, Mirrored, Earned, Paced, Guarded, Concluded, Cohort, Activated, ValidPlan, DistinctStages, Chosen;
    var next := c.r.currentStageIndex + 1;
    StillChosen(h, c, agentID);
    assert PromotedRecord(c, t.clock.save).configDefinitionID == c.r.configDefinitionID;
    SameChoice(h, c.r, PromotedRecord(c, t.clock.save), c.stages[next].percentage, agentID);
    CohortMembers(h, PromotedRecord(c, t.clock.save), c.stages[next],
                  FilterAgents(agents, c.r.environment, c.r.targetServices), revision, t.clock.build, agentID);
  }

  /**
   * A promotion keeps an agent of the current cohort on the candidate exactly when the agent is still registered in the
   * rollout's environment and services; one that registered elsewhere in between is given the stable version back.
   */
  lemma {:induction false} PromotionKeepsWhoIsInScope(
      h: Hash, c: Case, agents: seq<Agent>, revision: int, t: Tick, agentID: string)
    requires Inv(h, c) && Delivering(c) && c.r.currentStageIndex < |c.stages| - 1 && Targeted(Current(c), agentID)
    requires DistinctAgents(agents)
    ensures var n := PromotedTo(h, c, agents, revision, t);
      Indexed(n) && Serving(n, agentID).versionID
        == if Listed(FilterAgents(agents, c.r.environment, c.r.targetServices), agentID) then c.r.candidateVersionID
           else c.r.stableVersionID
  {
    hide Nested, Mirrored, Earned, Paced, Guarded, Concluded, Cohort, CandidateCohort, ValidPlan;
    var n, next := PromotedTo(h, c, agents, revision, t), c.r.currentStageIndex + 1;
    var scope := FilterAgents(agents, c.r.environment, c.r.targetServices);
    NextCohortHas(h, c, agents, revision, t, agentID);
    assert Current(n) == n.cohorts[next];
    FilterKeepsDistinct(agents, c.r.environment, c.r.targetServices);
    NewCohortIsCandidate(h, n.r, n.stages[next], scope, revision, t.clock.build);
    CandidatesAreServed(h, n, next, agentID);
  }

  lemma {:induction false} CandidatesAreServed(h: Hash, n: Case, s: nat, agentID: string)
    requires s < |n.cohorts| && s < |n.stages| && CandidateCohort(h, n.r, n.stages[s], n.cohorts[s])
    requires n.r.currentStageID == n.stages[s].id && Delivering(n)
    ensures EffectiveVersionForAgent(n.r, n.cohorts[s], agentID).versionID
      == if Targeted(n.cohorts[s], agentID) then n.r.candidateVersionID else n.r.stableVersionID
  {
    var targets := n.cohorts[s];
    var k := FirstAssigned(n.r, targets, agentID);
    if k < |targets| {
      assert CandidateTarget(h, n.r, n.stages[s], targets[k]) && targets[k] in targets;
    }
    if Targeted(targets, agentID) {
      var i :| 0 <= i < |targets| && targets[i].agentID == agentID;
      assert CandidateTarget(h, n.r, n.stages[s], targets[i]);
      assert AssignedHere(n.r, targets[i], agentID);
    }
  }

  // ----- Time -----

  /** A plan whose minimum durations use up the maximum duration never completes. */
  lemma {:induction false} TooSlowPlanNeverCompletes(c: Case)
    requires Shaped(c) && Paced(c) && c.r.rolloutMaxDuration > 0
    requires MinimumSum(Plan(c), |Plan(c)|) >= c.r.rolloutMaxDuration
    ensures c.r.state != Completed
  {
    hide ValidPlan, DistinctStages, ValidRules, NonNegative, MinimumSum;
    if c.r.state == Completed {
      MinimumSumOfPrefix(Plan(c), c.stages, PlanLength(c));
    }
  }

  // ----- Guaranteed end -----

  /** After a visit at or past the maximum duration nothing is being delivered any more. */
  lemma {:induction false} ExpiredVisitStopsDelivery(h: Hash, c: Case, e: Event)
    requires Shaped(c) && e.Visit? && Expired(c, e.tick)
    ensures !Delivering(Next(h, c, e))
  {
  }

  /** Once nothing is delivered, one more visit has verification under way or over. */
  lemma {:induction false} NextVisitVerifies(h: Hash, c: Case, e: Event)
    requires Shaped(c) && e.Visit? && !Delivering(c)
    ensures Verifying(Next(h, c, e)) || Terminal(Next(h, c, e).r.state)
  {
  }

  /** A visit the rollback timeout after verification began ends the rollout. */
  lemma {:induction false} TimedOutVisitEnds(h: Hash, c: Case, e: Event)
    requires Shaped(c) && e.Visit? && Verifying(c)
    requires 0 < c.r.rollbackTimeout <= e.tick.clock.decide - c.r.stageStartedAt
    ensures Terminal(Next(h, c, e).r.state)
  {
  }

  /**
   * Three visits end any rollout, whatever acknowledgements and guardrail results come between them: one at or after
   * creation plus the maximum duration, any later one, and one at least the rollback timeout after that.
   */
  lemma {:induction false} ThreeVisitsEnd(
      h: Hash, a: Case, ea: Event, a': Case, b: Case, eb: Event, b': Case, c: Case, ec: Event)
    requires Shaped(a) && Shaped(a') && Shaped(b) && Shaped(b') && Shaped(c)
    requires ea.Visit? && a' == Next(h, a, ea) && Extends(a', b)
    requires eb.Visit? && b' == Next(h, b, eb) && Extends(b', c)
    requires ec.Visit?
    requires Expired(a, ea.tick)
    requires 0 < c.r.rollbackTimeout <= ec.tick.clock.decide - b'.r.stageStartedAt
    ensures Terminal(Next(h, c, ec).r.state)
  {
    ExpiredVisitStopsDelivery(h, a, ea);
    assert !Delivering(b) by { DeliveryStaysStopped(a', b); }
    NextVisitVerifies(h, b, eb);
    if !Terminal(c.r.state) {
      VerificationStays(b', c);
      TimedOutVisitEnds(h, c, ec);
    }
  }

  lemma {:induction false} DeliveryStaysStopped(c: Case, c': Case)
    requires Shaped(c) && Shaped(c') && Extends(c, c') && !Delivering(c)
    ensures !Delivering(c')
  {
  }

  lemma {:induction false} VerificationStays(c: Case, c': Case)
    requires Shaped(c) && Shaped(c') && Extends(c, c')
    requires Verifying(c) || Terminal(c.r.state)
    ensures Terminal(c'.r.state) || (Verifying(c') && c'.r.stageStartedAt == c.r.stageStartedAt)
  {
  }

  // ----- Possible completion -----

  /** The stage is covered and old enough, the rollout is not too old, and the guardrails, if any, answer healthy. */
  predicate Favourable(c: Case, t: Tick)
    requires Indexed(c)
  {
    && Delivering(c) && !Expired(c, t)
    && CoverageReached(Current(c), c.r.requiredAckPercent)
    && t.clock.decide - c.r.stageStartedAt >= c.stages[c.r.currentStageIndex].minimumDuration
    && (c.r.guardrails == [] || RoundStatus(c.r.guardrails, t.results, c.r.guardrailFailures) == Healthy)
  }

  /**
   * A visit to a delivering rollout takes it one stage further, or completes it at the last one, exactly when it is
   * favourable.
   */
  lemma {:induction false} FavourableVisitsAdvance(h: Hash, c: Case, e: Event)
    requires Shaped(c) && Delivering(c) && e.Visit?
    ensures var n := Next(h, c, e);
      && (Favourable(c, e.tick) ==>
            if c.r.currentStageIndex == |c.stages| - 1 then n.r.state == Completed
            else Delivering(n) && n.r.currentStageIndex == c.r.currentStageIndex + 1)
      && (!Favourable(c, e.tick) ==> n.r.state != Completed && n.r.currentStageIndex == c.r.currentStageIndex)
  {
    hide Cohort, CoverageReached, Round, RoundStatus;
  }

  lemma {:induction false} AllAcked(targets: seq<StageTarget>)
    requires forall i :: 0 <= i < |targets| ==> targets[i].status == TargetAcked
    ensures AckedCount(targets) == |targets|
  {
    if targets != [] {
      AllAcked(targets[..|targets| - 1]);
    }
  }

  /** Coverage can always be met: a non-empty cohort all of which acknowledged meets any requirement up to 100. */
  lemma {:induction false} FullAcknowledgementCovers(targets: seq<StageTarget>, required: real)
    requires targets != [] && required <= 100.0
    requires forall i :: 0 <= i < |targets| ==> targets[i].status == TargetAcked
    ensures CoverageReached(targets, required)
  {
    AllAcked(targets);
    assert |targets| as real / |targets| as real == 1.0;
  }

  // ----- Finitely many effective changes -----

  /** Phase, stages left, deploying before paused, pending targets; compared from the left. */
  datatype Rank = Rank(phase: nat, stagesLeft: nat, deploying: nat, pending: nat)

  predicate Below(a: Rank, b: Rank) {
    || a.phase < b.phase
    || (a.phase == b.phase && a.stagesLeft < b.stagesLeft)
    || (a.phase == b.phase && a.stagesLeft == b.stagesLeft && a.deploying < b.deploying)
    || (a.phase == b.phase && a.stagesLeft == b.stagesLeft && a.deploying == b.deploying && a.pending < b.pending)
  }

  function Phase(c: Case): nat {
    if Delivering(c) then 3
    else if Terminal(c.r.state) then 0
    else if Verifying(c) then 1
    else 2
  }

  function RankOf(c: Case): Rank
    requires Indexed(c) && c.r.currentStageIndex < PlanLength(c)
  {
    Rank(Phase(c), PlanLength(c) - c.r.currentStageIndex, if c.r.state == Deploying then 1 else 0,
         |Current(c)| - AckedCount(Current(c)))
  }

  /** No state, stage or target changed. */
  predicate Quiet(c: Case, c': Case) {
    && c'.stages == c.stages && c'.cohorts == c.cohorts
    && c'.r.state == c.r.state && c'.r.currentStageID == c.r.currentStageID
    && c'.r.currentStageIndex == c.r.currentStageIndex && c'.r.id == c.r.id
  }

  predicate DropsOrQuiet(c: Case, c': Case)
    requires Shaped(c) && Shaped(c')
  {
    Below(RankOf(c'), RankOf(c)) || Quiet(c, c')
  }

  lemma {:induction false} QuietKeepsRank(c: Case, c': Case)
    requires Indexed(c) && c.r.currentStageIndex < PlanLength(c)
    requires Indexed(c') && c'.r.currentStageIndex < PlanLength(c') && Quiet(c, c')
    ensures RankOf(c') == RankOf(c)
  {
    assert Verifying(c') == Verifying(c);
    assert Current(c') == Current(c);
  }

  lemma {:induction false} DropsOrQuietCompose(a: Case, b: Case, c: Case)
    requires Shaped(a) && Shaped(b) && Shaped(c) && DropsOrQuiet(a, b) && DropsOrQuiet(b, c)
    ensures DropsOrQuiet(a, c)
  {
    if Quiet(a, b) { QuietKeepsRank(a, b); }
    if Quiet(b, c) { QuietKeepsRank(b, c); }
  }

  lemma {:induction false} AckDropsOrQuiet(h: Hash, c: Case, ack: Ack)
    requires Inv(h, c) && !Terminal(c.r.state)
    ensures Shaped(AckCase(c, ack)) && DropsOrQuiet(c, AckCase(c, ack))
  {
    hide Activated, Nested, Mirrored, Earned, Paced, Guarded, Concluded, ValidPlan, DistinctStages, ValidRules;
    AckKeepsInv(h, c, ack);
    AckCountsOnce(Current(c), ack);
    if !Counts(Current(c), ack) {
      assert c.cohorts[Position(c) := Current(c)] == c.cohorts;
    }
  }

  lemma {:induction false} RollbackDropsOrQuiet(c: Case, revision: int, t: Tick)
    requires Shaped(c) && c.r.state == RollingBack
    requires Shaped(RollbackEffect(c, revision, t).next)
    ensures DropsOrQuiet(c, RollbackEffect(c, revision, t).next)
  {
  }

  lemma {:induction false} PromotionDrops(h: Hash, c: Case, agents: seq<Agent>, revision: int, t: Tick)
    requires Shaped(c) && Delivering(c)
    requires Shaped(PromoteEffect(h, c, agents, revision, t).next)
    ensures Below(RankOf(PromoteEffect(h, c, agents, revision, t).next), RankOf(c))
  {
    if c.r.currentStageIndex < |c.stages| - 1 {
      PromoteKeepsShape(h, c, agents, revision, t);
    }
  }

  lemma {:induction false} ProgressDropsOrQuiet(h: Hash, c: Case, agents: seq<Agent>, revision: int, t: Tick)
    requires Shaped(c) && !Terminal(c.r.state)
    requires Shaped(Progress(h, c, agents, revision, t).next)
    ensures DropsOrQuiet(c, Progress(h, c, agents, revision, t).next)
  {
    hide RoundStatus, StageProgress, CoverageReached, PromotedTo, DistinctStages;
    if c.r.state == RollingBack {
      RollbackDropsOrQuiet(c, revision, t);
    } else {
      var o := Observed(c, t);
      assert Plan(o) == Plan(c);
      assert Shaped(o) && Quiet(c, o);
      QuietKeepsRank(c, o);
      if Decide(c, t) == DecisionPromote {
        PromotionDrops(h, o, agents, revision, t);
      }
    }
  }

  /** Every step that changes anything strictly lowers the measure. */
  lemma {:induction false} StepDropsOrQuiet(h: Hash, c: Case, e: Event)
    requires Inv(h, c) && Admissible(c, e) && Shaped(Next(h, c, e))
    ensures DropsOrQuiet(c, Next(h, c, e))
  {
    if !Terminal(c.r.state) {
      match e
      case Idle =>
      case Visit(agents, revision, t) =>
        ProgressKeepsInv(h, c, agents, revision, t);
        ProgressDropsOrQuiet(h, c, agents, revision, t);
      case AckVisit(ack, agents, revision, t) =>
        var a := AckCase(c, ack);
        AckKeepsInv(h, c, ack);
        AckKeepsRegistered(c, ack, agents);
        ProgressKeepsInv(h, a, agents, revision, t);
        AckDropsOrQuiet(h, c, ack);
        ProgressDropsOrQuiet(h, a, agents, revision, t);
        DropsOrQuietCompose(c, a, Next(h, c, e));
    }
  }

  ghost predicate InfiniteRun(h: Hash, run: nat -> Case, events: nat -> Event) {
    forall n: nat :: Inv(h, run(n)) && Admissible(run(n), events(n)) && run(n + 1) == Next(h, run(n), events(n))
  }

  ghost predicate QuietFrom(run: nat -> Case, n: nat) {
    forall m: nat :: m >= n ==> Quiet(run(m), run(m + 1))
  }

  lemma {:induction false} QuietComposes(a: Case, b: Case, c: Case)
    requires Quiet(a, b) && Quiet(b, c)
    ensures Quiet(a, c)
  {
  }

  lemma {:induction false} QuietSoFar(run: nat -> Case, n: nat, m: nat)
    requires n <= m
    requires forall k: nat :: n <= k < m ==> Quiet(run(k), run(k + 1))
    ensures Quiet(run(n), run(m))
    decreases m
  {
    if n < m {
      QuietSoFar(run, n, m - 1);
      assert Quiet(run(m - 1), run(m - 1 + 1));
      QuietComposes(run(n), run(m - 1), run(m));
    }
  }

  lemma {:induction false} FirstChange(run: nat -> Case, n: nat, m: nat) returns (k: nat)
    requires n <= m && !Quiet(run(m), run(m + 1))
    ensures n <= k <= m && !Quiet(run(k), run(k + 1))
    ensures forall j: nat :: n <= j < k ==> Quiet(run(j), run(j + 1))
    decreases m - n
  {
    if Quiet(run(n), run(n + 1)) {
      k := FirstChange(run, n + 1, m);
    } else {
      k := n;
    }
  }

  lemma {:induction false} RunIsShaped(h: Hash, run: nat -> Case, events: nat -> Event, n: nat)
    requires InfiniteRun(h, run, events)
    ensures Shaped(run(n))
  {
    assert Inv(h, run(n));
  }

  lemma {:induction false} ChangeDrops(h: Hash, run: nat -> Case, events: nat -> Event, k: nat)
    requires InfiniteRun(h, run, events) && !Quiet(run(k), run(k + 1))
    ensures Shaped(run(k)) && Shaped(run(k + 1)) && Below(RankOf(run(k + 1)), RankOf(run(k)))
  {
    assert Inv(h, run(k)) && Inv(h, run(k + 1));
    StepDropsOrQuiet(h, run(k), events(k));
  }

  /** Every infinite run changes a rollout only finitely often. */
  lemma {:induction false} EventuallyQuiet(
      h: Hash, run: nat -> Case, events: nat -> Event, n: nat, rank: Rank) returns (quiet: nat)
    requires InfiniteRun(h, run, events)
    requires Shaped(run(n)) && rank == RankOf(run(n))
    ensures quiet >= n && QuietFrom(run, quiet)
    decreases rank.phase, rank.stagesLeft, rank.deploying, rank.pending
  {
    if QuietFrom(run, n) {
      return n;
    }
    var m: nat :| m >= n && !Quiet(run(m), run(m + 1));
    var k := FirstChange(run, n, m);
    QuietSoFar(run, n, k);
    RunIsShaped(h, run, events, k);
    QuietKeepsRank(run(n), run(k));
    ChangeDrops(h, run, events, k);
    quiet := EventuallyQuiet(h, run, events, k + 1, RankOf(run(k + 1)));
  }
}
