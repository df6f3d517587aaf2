/** Each kind of step keeps the invariant of CaseInvariant.dfy and only extends the file. */
module CaseSteps {
  import opened Lifecycle
  import opened Guardrails
  import opened Cohorts
  import opened RolloutCase
  import opened CaseInvariant

  predicate Timely(c: Case, t: Tick) {
    c.r.stageStartedAt <= t.clock.decide && Runs(t.clock)
  }

  // ----- Steps that only touch the record -----

  /** `c'` differs from `c` at most in state, counters, update time and rollback status. */
  predicate RecordOnly(c: Case, c': Case) {
    && c'.stages == c.stages && c'.cohorts == c.cohorts
    && c'.r.(state := c.r.state, guardrailFailures := c.r.guardrailFailures, updatedAt := c.r.updatedAt,
             rollbackStatus := c.r.rollbackStatus) == c.r
  }

  lemma {:induction false} RecordOnlyKeepsShape(h: Hash, c: Case, c': Case)
    requires Inv(h, c) && RecordOnly(c, c')
    requires Stored(c'.r.state) && NonNegative(c'.r.guardrailFailures)
    requires Verifying(c) ==> c'.r.state == RollingBack || c'.r.state == RolledBack
    requires c'.r.state == RolledBack ==> Verifying(c)
    requires c'.r.state == RolledBack <==> c'.r.rollbackStatus != NoRollback
    requires c'.r.state == Completed ==> c.r.currentStageIndex == PlanLength(c) - 1
    ensures Shaped(c') && Activated(h, c') && Nested(c') && Mirrored(c')
  {
    hide Earned, Paced, Guarded, Concluded, ValidPlan, DistinctStages, ValidRules, NonNegative;
    assert Plan(c') == Plan(c);
    assert Activated(h, c') by {
      forall i | 0 <= i <= c.r.currentStageIndex ensures CandidateCohort(h, c'.r, c.stages[i], c.cohorts[i]) {
        assert CandidateCohort(h, c.r, c.stages[i], c.cohorts[i]);
        forall k | 0 <= k < |c.cohorts[i]| ensures CandidateTarget(h, c'.r, c.stages[i], c.cohorts[i][k]) {
          assert CandidateTarget(h, c.r, c.stages[i], c.cohorts[i][k]);
        }
      }
    }
    if Verifying(c) {
      forall i | 0 <= i < |c.cohorts[|c.stages| - 1]|
        ensures MirrorTarget(c'.r, c.cohorts[c.r.currentStageIndex][i], c.cohorts[|c.stages| - 1][i])
      {
        assert MirrorTarget(c.r, c.cohorts[c.r.currentStageIndex][i], c.cohorts[|c.stages| - 1][i]);
      }
    }
  }

  lemma {:induction false} RecordOnlyExtends(c: Case, c': Case)
    requires Shaped(c) && Shaped(c') && RecordOnly(c, c')
    requires StoredChange(c.r.state, c'.r.state) && !Terminal(c.r.state)
    ensures Extends(c, c')
  {
  }

  lemma {:induction false} ObservedKeepsInv(h: Hash, c: Case, t: Tick)
    requires Inv(h, c) && Delivering(c)
    requires Decide(c, t) != DecisionRollback
    ensures Inv(h, Observed(c, t)) && Extends(c, Observed(c, t))
  {
    var c' := Observed(c, t);
    RecordOnlyKeepsShape(h, c, c');
    if Consults(c, t) && NamesAgree(c.r.guardrails) {
      HealthyRoundStaysBelow(c.r.guardrails, t.results, c.r.guardrailFailures);
    }
    RecordOnlyExtends(c, c');
  }

  lemma {:induction false} PauseKeepsInv(h: Hash, c: Case, at: Time)
    requires Inv(h, c) && Delivering(c) && c.r.guardrails != []
    requires CoverageReached(Current(c), c.r.requiredAckPercent)
    ensures Inv(h, WithState(c, Paused, at))
    ensures c.r.state == Deploying ==> Extends(c, WithState(c, Paused, at))
  {
    hide ValidPlan, DistinctStages, ValidRules, NonNegative, CandidateCohort, Covers, MirrorTarget;
    RecordOnlyKeepsShape(h, c, WithState(c, Paused, at));
  }

  /** Starting a rollback, whatever the guardrail round that led to it recorded. */
  lemma {:induction false} StartRollbackKeepsInv(h: Hash, c: Case, t: Tick, at: Time)
    requires Inv(h, c) && Delivering(c)
    ensures Inv(h, WithState(Observed(c, t), RollingBack, at))
    ensures Extends(c, WithState(Observed(c, t), RollingBack, at))
  {
    var c' := WithState(Observed(c, t), RollingBack, at);
    RecordOnlyKeepsShape(h, c, c');
    RecordOnlyExtends(c, c');
  }

  lemma {:induction false} EndKeepsInv(h: Hash, c: Case, status: RollbackStatus, at: Time)
    requires Inv(h, c) && c.r.state == RollingBack && Verifying(c)
    requires status == Verified ==> Current(c) == [] || CoverageReached(Current(c), c.r.requiredAckPercent)
    requires status == Partial ==> Current(c) != [] && !CoverageReached(Current(c), c.r.requiredAckPercent)
    requires status == Partial ==> 0 < c.r.rollbackTimeout <= at - c.r.stageStartedAt
    requires status != NoRollback
    ensures Inv(h, Ended(c, status, at)) && Extends(c, Ended(c, status, at))
  {
    RecordOnlyKeepsShape(h, c, Ended(c, status, at));
    RecordOnlyExtends(c, Ended(c, status, at));
  }

  lemma {:induction false} CompleteKeepsInv(h: Hash, c: Case, t: Tick)
    requires Inv(h, c) && Delivering(c) && c.r.currentStageIndex == |c.stages| - 1
    requires !Expired(c, t) && StageProgress(c, t) == DecisionPromote
    ensures Inv(h, WithState(c, Completed, t.clock.save)) && Extends(c, WithState(c, Completed, t.clock.save))
  {
    RecordOnlyKeepsShape(h, c, WithState(c, Completed, t.clock.save));
  }

  // ----- Acknowledging -----

  lemma {:induction false} AckKeepsCandidateCohort(
      h: Hash, r: Rollout, s: Stage, targets: seq<StageTarget>, after: seq<StageTarget>)
    requires CandidateCohort(h, r, s, targets) && SameTargets(targets, after)
    ensures CandidateCohort(h, r, s, after)
  {
    SameTargetsStayDistinct(targets, after);
    forall i | 0 <= i < |after| ensures CandidateTarget(h, r, s, after[i]) {
      assert CandidateTarget(h, r, s, targets[i]) && SameTarget(targets[i], after[i]);
    }
  }

  lemma {:induction false} SameTargetsCover(
      a: seq<StageTarget>, a': seq<StageTarget>, b: seq<StageTarget>, b': seq<StageTarget>)
    requires Covers(a, b) && SameTargets(a, a') && SameTargets(b, b')
    ensures Covers(a', b')
  {
    forall i | 0 <= i < |a'| ensures Targeted(b', a'[i].agentID) {
      assert SameTarget(a[i], a'[i]) && Targeted(b, a[i].agentID);
      var k :| 0 <= k < |b| && b[k].agentID == a[i].agentID;
      assert SameTarget(b[k], b'[k]) && b'[k] in b';
    }
  }

  lemma {:induction false} AckKeepsShape(h: Hash, c: Case, ack: Ack)
    requires Inv(h, c)
    ensures Shaped(AckCase(c, ack)) && Activated(h, AckCase(c, ack)) && Nested(AckCase(c, ack))
  {
    hide Acknowledged, ValidPlan, DistinctStages, ValidRules, CandidateCohort, Covers, Mirrored, Earned, Paced, Guarded;
    hide Concluded;
    var c' := AckCase(c, ack);
    AckKeepsTargets(Current(c), ack);
    assert Plan(c') == Plan(c);
    assert forall i :: 0 <= i < |c.cohorts| ==> SameTargets(c.cohorts[i], c'.cohorts[i]);
    forall i | 0 <= i <= c.r.currentStageIndex ensures CandidateCohort(h, c'.r, c'.stages[i], c'.cohorts[i]) {
      AckKeepsCandidateCohort(h, c.r, c.stages[i], c.cohorts[i], c'.cohorts[i]);
    }
    var k := c.r.currentStageIndex;
    forall i | 0 <= i <= k ensures Covers(c'.cohorts[i], c'.cohorts[k]) {
      SameTargetsCover(c.cohorts[i], c'.cohorts[i], c.cohorts[k], c'.cohorts[k]);
    }
  }

  lemma {:induction false} AckKeepsMirror(c: Case, ack: Ack)
    requires Shaped(c) && Mirrored(c) && Shaped(AckCase(c, ack))
    ensures Mirrored(AckCase(c, ack))
  {
    var c' := AckCase(c, ack);
    AckKeepsTargets(Current(c), ack);
    if Verifying(c) {
      var candidates, checks := c.cohorts[c.r.currentStageIndex], c.cohorts[|c.stages| - 1];
      forall i | 0 <= i < |checks| ensures MirrorTarget(c'.r, candidates[i], c'.cohorts[|c.stages| - 1][i]) {
        assert MirrorTarget(c.r, candidates[i], checks[i]);
        assert SameTarget(checks[i], c'.cohorts[|c.stages| - 1][i]);
      }
    }
  }

  lemma {:induction false} AckKeepsProgress(c: Case, ack: Ack)
    requires Shaped(c) && Earned(c) && Paced(c) && Guarded(c) && Concluded(c) && !Terminal(c.r.state)
    requires Shaped(AckCase(c, ack))
    ensures Earned(AckCase(c, ack)) && Paced(AckCase(c, ack)) && Guarded(AckCase(c, ack)) && Concluded(AckCase(c, ack))
  {
    if CoverageReached(Current(c), c.r.requiredAckPercent) {
      CoverageIsMonotone(Current(c), ack, c.r.requiredAckPercent);
    }
  }

  lemma {:induction false} AckExtends(c: Case, ack: Ack)
    requires Shaped(c) && Shaped(AckCase(c, ack)) && !Terminal(c.r.state)
    ensures Extends(c, AckCase(c, ack))
  {
    AckKeepsTargets(Current(c), ack);
  }

  lemma {:induction false} AckKeepsInv(h: Hash, c: Case, ack: Ack)
    requires Inv(h, c) && !Terminal(c.r.state)
    ensures Inv(h, AckCase(c, ack)) && Extends(c, AckCase(c, ack))
  {
    AckKeepsShape(h, c, ack);
    AckKeepsMirror(c, ack);
    AckKeepsProgress(c, ack);
    AckExtends(c, ack);
  }

  // ----- Promotion -----

  /** Every target's agent is registered and in the rollout's scope. */
  predicate Registered(c: Case, agents: seq<Agent>) {
    forall i, k :: 0 <= i < |c.cohorts| && 0 <= k < |c.cohorts[i]| ==>
      Listed(FilterAgents(agents, c.r.environment, c.r.targetServices), c.cohorts[i][k].agentID)
  }

  /** While a rollout delivers, its targets stay registered and in scope; later they may go anywhere. */
  predicate InReach(c: Case, agents: seq<Agent>) {
    Delivering(c) ==> Registered(c, agents)
  }

  lemma {:induction false} NewCohortIsCandidate(
      h: Hash, r: Rollout, s: Stage, agents: seq<Agent>, revision: int, at: Time)
    requires DistinctAgents(agents)
    ensures CandidateCohort(h, r, s, Cohort(h, r, s, agents, revision, at))
  {
    var targets := Cohort(h, r, s, agents, revision, at);
    CohortIsDistinct(h, r, s, agents, revision, at);
    forall i | 0 <= i < |targets| ensures CandidateTarget(h, r, s, targets[i]) {
      CohortStamps(h, r, s, agents, revision, at, i);
    }
  }

  /** A cohort frozen earlier lies inside one frozen later at a higher percentage. */
  lemma {:induction false} LaterCohortCovers(
      h: Hash, r: Rollout, s: Stage, earlier: seq<StageTarget>, r': Rollout, s': Stage, agents: seq<Agent>,
      revision: int, at: Time)
    requires CandidateCohort(h, r, s, earlier) && s.percentage <= s'.percentage
    requires r'.configDefinitionID == r.configDefinitionID && r'.candidateVersionID == r.candidateVersionID
    requires forall k :: 0 <= k < |earlier| ==> Listed(agents, earlier[k].agentID)
    ensures Covers(earlier, Cohort(h, r', s', agents, revision, at))
  {
    forall k | 0 <= k < |earlier| ensures Targeted(Cohort(h, r', s', agents, revision, at), earlier[k].agentID) {
      assert CandidateTarget(h, r, s, earlier[k]);
      CohortMembers(h, r', s', agents, revision, at, earlier[k].agentID);
      EligibleIsMonotone(earlier[k].bucket, earlier[k].bucket, s.percentage, s'.percentage);
    }
  }

  lemma {:induction false} PromoteKeepsShape(h: Hash, c: Case, agents: seq<Agent>, revision: int, t: Tick)
    requires Shaped(c) && Delivering(c) && c.r.currentStageIndex < |c.stages| - 1
    ensures Shaped(PromotedTo(h, c, agents, revision, t))
  {
    var c' := PromotedTo(h, c, agents, revision, t);
    assert Plan(c') == Plan(c) == c.stages;
  }

  lemma {:induction false} PromoteActivates(h: Hash, c: Case, agents: seq<Agent>, revision: int, t: Tick)
    requires Shaped(c) && Activated(h, c) && Delivering(c) && c.r.currentStageIndex < |c.stages| - 1
    requires DistinctAgents(agents)
    requires Shaped(PromotedTo(h, c, agents, revision, t))
    ensures Activated(h, PromotedTo(h, c, agents, revision, t))
  {
    var c' := PromotedTo(h, c, agents, revision, t);
    var next := c.r.currentStageIndex + 1;
    var scope := FilterAgents(agents, c.r.environment, c.r.targetServices);
    FilterKeepsDistinct(agents, c.r.environment, c.r.targetServices);
    NewCohortIsCandidate(h, c'.r, c.stages[next], scope, revision, t.clock.build);
    forall i | 0 <= i <= next ensures CandidateCohort(h, c'.r, c'.stages[i], c'.cohorts[i]) {
      if i < next {
        assert CandidateCohort(h, c.r, c.stages[i], c.cohorts[i]);
        forall k | 0 <= k < |c.cohorts[i]| ensures CandidateTarget(h, c'.r, c.stages[i], c.cohorts[i][k]) {
          assert CandidateTarget(h, c.r, c.stages[i], c.cohorts[i][k]);
        }
      }
    }
  }

  lemma {:induction false} PromoteNests(h: Hash, c: Case, agents: seq<Agent>, revision: int, t: Tick)
    requires Shaped(c) && Activated(h, c) && Delivering(c) && c.r.currentStageIndex < |c.stages| - 1
    requires Registered(c, agents)
    requires Shaped(PromotedTo(h, c, agents, revision, t))
    ensures Nested(PromotedTo(h, c, agents, revision, t))
  {
    var c' := PromotedTo(h, c, agents, revision, t);
    var next := c.r.currentStageIndex + 1;
    var scope := FilterAgents(agents, c.r.environment, c.r.targetServices);
    forall i | 0 <= i <= next ensures Covers(c'.cohorts[i], c'.cohorts[next]) {
      if i < next {
        assert CandidateCohort(h, c.r, c.stages[i], c.cohorts[i]);
        assert Plan(c) == c.stages;
        PercentagesIncrease(c.stages, i, next);
        LaterCohortCovers(h, c.r, c.stages[i], c.cohorts[i], c'.r, c.stages[next], scope, revision, t.clock.build);
      } else {
        assert forall k :: 0 <= k < |c'.cohorts[next]| ==> c'.cohorts[next][k] in c'.cohorts[next];
      }
    }
  }

  predicate Promoted(c: Case, c': Case, at: Time)
    requires Indexed(c)
  {
    && c.r.currentStageIndex < |c.stages| - 1
    && c'.r == PromotedRecord(c, at) && c'.stages == c.stages && |c'.cohorts| == |c.cohorts|
    && forall i :: 0 <= i <= c.r.currentStageIndex ==> c'.cohorts[i] == c.cohorts[i]
  }

  lemma {:induction false} PromoteStaysEarned(c: Case, c': Case, t: Tick)
    requires Shaped(c) && Earned(c) && !Verifying(c) && StageProgress(c, t) == DecisionPromote
    requires Promoted(c, c', t.clock.save) && Shaped(c')
    ensures Earned(c')
  {
    forall i | 0 <= i < c'.r.currentStageIndex ensures CoverageReached(c'.cohorts[i], c'.r.requiredAckPercent) {
      if i == c.r.currentStageIndex {
        assert c'.cohorts[i] == Current(c);
      }
    }
  }

  lemma {:induction false} PromoteStaysPaced(c: Case, c': Case, t: Tick)
    requires Shaped(c) && Paced(c) && StageProgress(c, t) == DecisionPromote && Timely(c, t)
    requires Promoted(c, c', t.clock.save) && Shaped(c')
    ensures Paced(c')
  {
    hide ValidPlan, DistinctStages, ValidRules, NonNegative, CoverageReached;
    var k := c.r.currentStageIndex;
    assert MinimumSum(c.stages, k + 1) == MinimumSum(c.stages, k) + c.stages[k].minimumDuration;
  }

  lemma {:induction false} PromoteKeepsInv(h: Hash, c: Case, agents: seq<Agent>, revision: int, t: Tick)
    requires Inv(h, c) && Delivering(c) && c.r.currentStageIndex < |c.stages| - 1
    requires StageProgress(c, t) == DecisionPromote
    requires DistinctAgents(agents) && Registered(c, agents) && Timely(c, t)
    ensures Inv(h, PromotedTo(h, c, agents, revision, t)) && Extends(c, PromotedTo(h, c, agents, revision, t))
  {
    hide ValidPlan, DistinctStages, ValidRules, NonNegative, CandidateCohort, Covers, Cohort;
    PromoteKeepsShape(h, c, agents, revision, t);
    PromoteActivates(h, c, agents, revision, t);
    PromoteNests(h, c, agents, revision, t);
    PromoteStaysEarned(c, PromotedTo(h, c, agents, revision, t), t);
    PromoteStaysPaced(c, PromotedTo(h, c, agents, revision, t), t);
    PromoteExtends(h, c, agents, revision, t);
    var c' := PromotedTo(h, c, agents, revision, t);
    assert !Verifying(c');
    assert c'.r.rollbackStatus == NoRollback;
  }

  lemma {:induction false} PromoteExtends(h: Hash, c: Case, agents: seq<Agent>, revision: int, t: Tick)
    requires Shaped(c) && Delivering(c) && c.r.currentStageIndex < |c.stages| - 1
    requires Shaped(PromotedTo(h, c, agents, revision, t))
    ensures Extends(c, PromotedTo(h, c, agents, revision, t))
  {
  }

  // ----- Verification -----

  lemma {:induction false} VerificationKeepsShape(h: Hash, c: Case, revision: int, t: Tick)
    requires Inv(h, c) && c.r.state == RollingBack && !Verifying(c)
    ensures Shaped(BeginVerification(c, revision, t)) && PlanLength(BeginVerification(c, revision, t)) == |c.stages|
  {
    var c' := BeginVerification(c, revision, t);
    assert Plan(c) == c.stages;
    assert Plan(c') == c.stages;
  }

  lemma {:induction false} VerificationActivates(h: Hash, c: Case, revision: int, t: Tick)
    requires Inv(h, c) && c.r.state == RollingBack && !Verifying(c)
    requires Shaped(BeginVerification(c, revision, t)) && PlanLength(BeginVerification(c, revision, t)) == |c.stages|
    ensures Activated(h, BeginVerification(c, revision, t)) && Nested(BeginVerification(c, revision, t))
  {
    hide Mirrored, Earned, Paced, Guarded, Concluded, ValidPlan, DistinctStages, ValidRules;
    var c' := BeginVerification(c, revision, t);
    forall i | 0 <= i <= c.r.currentStageIndex ensures CandidateCohort(h, c'.r, c'.stages[i], c'.cohorts[i]) {
      assert CandidateCohort(h, c.r, c.stages[i], c.cohorts[i]);
      forall k | 0 <= k < |c.cohorts[i]| ensures CandidateTarget(h, c'.r, c.stages[i], c.cohorts[i][k]) {
        assert CandidateTarget(h, c.r, c.stages[i], c.cohorts[i][k]);
      }
    }
  }

  lemma {:induction false} VerificationKeepsInv(h: Hash, c: Case, revision: int, t: Tick)
    requires Inv(h, c) && c.r.state == RollingBack && !Verifying(c) && Timely(c, t)
    ensures Inv(h, BeginVerification(c, revision, t))
  {
    VerificationKeepsShape(h, c, revision, t);
    VerificationActivates(h, c, revision, t);
    MinimumSumOfPrefix(c.stages, BeginVerification(c, revision, t).stages, c.r.currentStageIndex);
  }

  lemma {:induction false} MinimumSumOfPrefix(a: seq<Stage>, b: seq<Stage>, n: nat)
    requires a <= b && n <= |a|
    ensures MinimumSum(a, n) == MinimumSum(b, n)
    decreases n
  {
    if n > 0 {
      MinimumSumOfPrefix(a, b, n - 1);
    }
  }

  lemma {:induction false} VerificationExtends(h: Hash, c: Case, revision: int, t: Tick)
    requires Inv(h, c) && c.r.state == RollingBack && !Verifying(c)
    ensures Shaped(BeginVerification(c, revision, t))
    ensures Extends(c, BeginVerification(c, revision, t))
  {
    hide Activated, Nested, Mirrored, Earned, Paced, Guarded, Concluded;
    VerificationKeepsShape(h, c, revision, t);
  }

  // ----- One whole step -----

  lemma {:induction false} ObservedDecidesAlike(c: Case, t: Tick)
    requires Indexed(c)
    ensures Indexed(Observed(c, t)) && Position(Observed(c, t)) == Position(c)
    ensures Current(Observed(c, t)) == Current(c) && StageProgress(Observed(c, t), t) == StageProgress(c, t)
    ensures Expired(Observed(c, t), t) == Expired(c, t)
  {
  }

  lemma {:induction false} PromoteEffectKeepsInv(h: Hash, c: Case, agents: seq<Agent>, revision: int, t: Tick)
    requires Inv(h, c) && Delivering(c) && DistinctAgents(agents) && Registered(c, agents) && Timely(c, t)
    requires !Expired(c, t) && StageProgress(c, t) == DecisionPromote
    ensures Inv(h, PromoteEffect(h, c, agents, revision, t).next)
    ensures Extends(c, PromoteEffect(h, c, agents, revision, t).next)
  {
    if c.r.currentStageIndex == |c.stages| - 1 {
      CompleteKeepsInv(h, c, t);
    } else {
      PromoteKeepsInv(h, c, agents, revision, t);
    }
  }

  lemma {:induction false} RollbackEffectKeepsInv(h: Hash, c: Case, revision: int, t: Tick)
    requires Inv(h, c) && c.r.state == RollingBack && Timely(c, t)
    ensures Inv(h, RollbackEffect(c, revision, t).next) && Extends(c, RollbackEffect(c, revision, t).next)
  {
    if !Verifying(c) {
      var begun := BeginVerification(c, revision, t);
      VerificationKeepsInv(h, c, revision, t);
      VerificationExtends(h, c, revision, t);
      if Current(c) == [] {
        assert Current(begun) == [];
        EndKeepsInv(h, begun, Verified, t.clock.save);
        ExtendsIsTransitive(c, begun, Ended(begun, Verified, t.clock.save));
      }
    } else if CoverageReached(Current(c), c.r.requiredAckPercent) || Current(c) == [] {
      EndKeepsInv(h, c, Verified, t.clock.save);
    } else if c.r.rollbackTimeout > 0 && t.clock.decide - c.r.stageStartedAt >= c.r.rollbackTimeout {
      EndKeepsInv(h, c, Partial, t.clock.save);
    } else {
      ExtendsIsReflexive(c);
    }
  }

  lemma {:induction false} DeliveryKeepsInv(h: Hash, c: Case, agents: seq<Agent>, revision: int, t: Tick)
    requires Inv(h, c) && Delivering(c) && DistinctAgents(agents) && Registered(c, agents) && Timely(c, t)
    ensures Inv(h, Progress(h, c, agents, revision, t).next)
    ensures Extends(c, Progress(h, c, agents, revision, t).next)
  {
    hide Activated, Nested, Mirrored, Earned, Paced, Guarded, Concluded, Extends;
    var o := Observed(c, t);
    ObservedDecidesAlike(c, t);
    match Decide(c, t)
    case DecisionRollback =>
      StartRollbackKeepsInv(h, c, t, t.clock.save);
    case DecisionWait =>
      ObservedKeepsInv(h, c, t);
    case DecisionPromote =>
      ObservedKeepsInv(h, c, t);
      assert Registered(o, agents);
      PromoteEffectKeepsInv(h, o, agents, revision, t);
      ExtendsIsTransitive(c, o, Progress(h, c, agents, revision, t).next);
    case DecisionPause =>
      ObservedKeepsInv(h, c, t);
      if o.r.state != Paused {
        PauseKeepsInv(h, o, t.clock.save);
        ExtendsIsTransitive(c, o, WithState(o, Paused, t.clock.save));
      }
  }

  lemma {:induction false} ProgressKeepsInv(h: Hash, c: Case, agents: seq<Agent>, revision: int, t: Tick)
    requires Inv(h, c) && !Terminal(c.r.state)
    requires DistinctAgents(agents) && InReach(c, agents) && Timely(c, t)
    ensures Inv(h, Progress(h, c, agents, revision, t).next)
    ensures Extends(c, Progress(h, c, agents, revision, t).next)
  {
    if c.r.state == RollingBack {
      RollbackEffectKeepsInv(h, c, revision, t);
    } else {
      DeliveryKeepsInv(h, c, agents, revision, t);
    }
  }

  /**
   * What the environment of a step guarantees: distinct agents that, while the rollout delivers, still include every
   * target in its scope, and a clock that has not gone back.
   */
  predicate Admissible(c: Case, e: Event) {
    match e
    case Idle => true
    case Visit(agents, revision, tick) => DistinctAgents(agents) && InReach(c, agents) && Timely(c, tick)
    case AckVisit(_, agents, revision, tick) => DistinctAgents(agents) && InReach(c, agents) && Timely(c, tick)
  }

  lemma {:induction false} AckKeepsRegistered(c: Case, ack: Ack, agents: seq<Agent>)
    requires Indexed(c) && InReach(c, agents)
    ensures InReach(AckCase(c, ack), agents)
  {
    var c' := AckCase(c, ack);
    AckKeepsTargets(Current(c), ack);
    forall i, k | Delivering(c) && 0 <= i < |c'.cohorts| && 0 <= k < |c'.cohorts[i]|
      ensures Listed(FilterAgents(agents, c.r.environment, c.r.targetServices), c'.cohorts[i][k].agentID)
    {
      if i == Position(c) {
        assert SameTarget(c.cohorts[i][k], c'.cohorts[i][k]);
      }
    }
  }

  /** Every step keeps the whole invariant and only extends the rollout's file. */
  lemma {:induction false} StepKeepsInv(h: Hash, c: Case, e: Event)
    requires Inv(h, c) && Admissible(c, e)
    ensures Inv(h, Next(h, c, e)) && Extends(c, Next(h, c, e))
  {
    if Terminal(c.r.state) || e.Idle? {
      ExtendsIsReflexive(c);
    } else if e.Visit? {
      ProgressKeepsInv(h, c, e.agents, e.revision, e.tick);
    } else {
      var a := AckCase(c, e.ack);
      AckKeepsInv(h, c, e.ack);
      AckKeepsRegistered(c, e.ack, e.agents);
      ProgressKeepsInv(h, a, e.agents, e.revision, e.tick);
      ExtendsIsTransitive(c, a, Next(h, c, e));
    }
  }

  // ----- Where each target of the new file comes from -----

  predicate FreshCohort(c': Case, i: nat, revision: int, agents: seq<Agent>)
    requires i < |c'.cohorts|
  {
    forall k :: 0 <= k < |c'.cohorts[i]| ==>
      && c'.cohorts[i][k].snapshotRevision == revision
      && (Delivering(c') ==>
            Listed(FilterAgents(agents, c'.r.environment, c'.r.targetServices), c'.cohorts[i][k].agentID))
  }

  /** Old cohorts keep their targets; at most the new current cohort is fresh, and its place was empty. */
  ghost predicate Sourced(c: Case, effect: Effect, revision: int, agents: seq<Agent>) {
    var c' := effect.next;
    && |c.cohorts| <= |c'.cohorts| && Indexed(c')
    && forall i :: 0 <= i < |c'.cohorts| ==>
         || (i < |c.cohorts| && SameTargets(c.cohorts[i], c'.cohorts[i]))
         || (effect.activated && i == Position(c') && (i < |c.cohorts| ==> c.cohorts[i] == [])
             && FreshCohort(c', i, revision, agents))
  }

  lemma {:induction false} PromotionIsSourced(h: Hash, c: Case, agents: seq<Agent>, revision: int, t: Tick)
    requires Shaped(c) && Activated(h, c) && !Verifying(c)
    ensures Sourced(c, PromoteEffect(h, c, agents, revision, t), revision, agents)
  {
    hide Cohort, Listed, CandidateCohort, ValidPlan, DistinctStages, Chosen;
    if c.r.currentStageIndex < |c.stages| - 1 {
      var c' := PromotedTo(h, c, agents, revision, t);
      var next := c.r.currentStageIndex + 1;
      var scope := FilterAgents(agents, c.r.environment, c.r.targetServices);
      assert Position(c') == next;
      forall k | 0 <= k < |c'.cohorts[next]|
        ensures c'.cohorts[next][k].snapshotRevision == revision && Listed(scope, c'.cohorts[next][k].agentID)
      {
        CohortStamps(h, c'.r, c.stages[next], scope, revision, t.clock.build, k);
        CohortMembers(h, c'.r, c.stages[next], scope, revision, t.clock.build, c'.cohorts[next][k].agentID);
        assert c'.cohorts[next][k] in c'.cohorts[next];
      }
    }
  }

  lemma {:induction false} VerificationIsSourced(c: Case, agents: seq<Agent>, revision: int, t: Tick)
    requires Shaped(c) && c.r.state == RollingBack
    ensures Sourced(c, RollbackEffect(c, revision, t), revision, agents)
  {
    if !Verifying(c) {
      var c' := RollbackEffect(c, revision, t).next;
      var last := |c.stages|;
      forall k | 0 <= k < |c'.cohorts[last]|
        ensures c'.cohorts[last][k].snapshotRevision == revision
      {
        assert c'.cohorts[last][k] == VerificationTarget(c.r, Current(c)[k], revision, t.clock.decide);
      }
    }
  }

  lemma {:induction false} ProgressIsSourced(h: Hash, c: Case, agents: seq<Agent>, revision: int, t: Tick)
    requires Shaped(c) && Activated(h, c) && !Terminal(c.r.state)
    ensures Sourced(c, Progress(h, c, agents, revision, t), revision, agents)
  {
    hide Activated;
    if c.r.state == RollingBack {
      VerificationIsSourced(c, agents, revision, t);
    } else if Decide(c, t) == DecisionPromote {
      var o := Observed(c, t);
      assert Plan(o) == Plan(c);
      ActivatedIgnoresCounters(h, c, t);
      PromotionIsSourced(h, o, agents, revision, t);
    }
  }

  lemma {:induction false} ActivatedIgnoresCounters(h: Hash, c: Case, t: Tick)
    requires Shaped(c) && Activated(h, c)
    ensures Shaped(Observed(c, t)) && Activated(h, Observed(c, t))
  {
    var o := Observed(c, t);
    assert Plan(o) == Plan(c);
    forall i | 0 <= i <= c.r.currentStageIndex ensures CandidateCohort(h, o.r, o.stages[i], o.cohorts[i]) {
      assert CandidateCohort(h, c.r, c.stages[i], c.cohorts[i]);
      forall k | 0 <= k < |c.cohorts[i]| ensures CandidateTarget(h, o.r, c.stages[i], c.cohorts[i][k]) {
        assert CandidateTarget(h, c.r, c.stages[i], c.cohorts[i][k]);
      }
    }
  }

  lemma {:induction false} SourcedAfterAck(c: Case, a: Case, effect: Effect, revision: int, agents: seq<Agent>)
    requires |a.cohorts| == |c.cohorts| && Sourced(a, effect, revision, agents)
    requires forall i :: 0 <= i < |c.cohorts| ==> SameTargets(c.cohorts[i], a.cohorts[i])
    ensures Sourced(c, effect, revision, agents)
  {
    var c' := effect.next;
    forall i | 0 <= i < |c.cohorts| && SameTargets(a.cohorts[i], c'.cohorts[i])
      ensures SameTargets(c.cohorts[i], c'.cohorts[i])
    {
      SameTargetsCompose(c.cohorts[i], a.cohorts[i], c'.cohorts[i]);
    }
  }

  predicate Drives(e: Event, agents: seq<Agent>, revision: int) {
    match e
    case Idle => true
    case Visit(l, n, _) => l == agents && n == revision
    case AckVisit(_, l, n, _) => l == agents && n == revision
  }

  lemma {:induction false} NothingIsSourced(c: Case, revision: int, agents: seq<Agent>)
    requires Indexed(c)
    ensures Sourced(c, Effect(c, false, false, DecisionWait), revision, agents)
  {
  }

  lemma {:induction false} AckIsSourced(h: Hash, c: Case, ack: Ack, agents: seq<Agent>, revision: int, t: Tick)
    requires Inv(h, c) && !Terminal(c.r.state)
    ensures Sourced(c, Progress(h, AckCase(c, ack), agents, revision, t), revision, agents)
  {
    hide Nested, Mirrored, Earned, Paced, Guarded, Concluded, Sourced, Progress, Activated;
    var a := AckCase(c, ack);
    AckKeepsShape(h, c, ack);
    AckKeepsTargets(Current(c), ack);
    ProgressIsSourced(h, a, agents, revision, t);
    SourcedAfterAck(c, a, Progress(h, a, agents, revision, t), revision, agents);
  }

  lemma {:induction false} StepIsSourced(h: Hash, c: Case, e: Event, agents: seq<Agent>, revision: int)
    requires Inv(h, c) && Drives(e, agents, revision)
    ensures Sourced(c, NextEffect(h, c, e), revision, agents)
  {
    hide Nested, Mirrored, Earned, Paced, Guarded, Concluded, Sourced, Progress, Activated;
    if Terminal(c.r.state) || e.Idle? {
      NothingIsSourced(c, revision, agents);
    } else if e.Visit? {
      ProgressIsSourced(h, c, agents, revision, e.tick);
    } else {
      AckIsSourced(h, c, e.ack, agents, revision, e.tick);
    }
  }

  lemma {:induction false} SourcedStaysRegistered(c: Case, effect: Effect, revision: int, agents: seq<Agent>)
    requires Sourced(c, effect, revision, agents) && InReach(c, agents) && SameIdentity(c.r, effect.next.r)
    requires Delivering(effect.next) ==> Delivering(c)
    ensures InReach(effect.next, agents)
  {
    var c' := effect.next;
    forall i, k | Delivering(c') && 0 <= i < |c'.cohorts| && 0 <= k < |c'.cohorts[i]|
      ensures Listed(FilterAgents(agents, c'.r.environment, c'.r.targetServices), c'.cohorts[i][k].agentID)
    {
      if i < |c.cohorts| && SameTargets(c.cohorts[i], c'.cohorts[i]) {
        assert SameTarget(c.cohorts[i][k], c'.cohorts[i][k]);
      }
    }
  }
}
