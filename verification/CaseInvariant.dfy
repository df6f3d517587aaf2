/** What every step keeps true of one rollout's file. */
module CaseInvariant {
  import opened Lifecycle
  import opened Guardrails
  import opened Cohorts
  import opened RolloutCase

  function PlanLength(c: Case): nat
    requires Indexed(c)
  {
    if Verifying(c) then |c.stages| - 1 else |c.stages|
  }

  function Plan(c: Case): seq<Stage>
    requires Indexed(c)
  {
    c.stages[..PlanLength(c)]
  }

  /** The record, its stage pointer and the stage list agree. */
  predicate Shaped(c: Case) {
    && Indexed(c)
    && c.r.currentStageIndex < PlanLength(c)
    && ValidPlan(Plan(c))
    && DistinctStages(c.stages)
    && c.stages[Position(c)].id == c.r.currentStageID
    && (forall i :: 0 <= i < PlanLength(c) ==> c.stages[i].id != VerificationID(c.r.id))
    && Stored(c.r.state)
    && (Verifying(c) ==> c.r.state == RollingBack || c.r.state == RolledBack)
    && (c.r.state == RolledBack ==> Verifying(c))
    && (c.r.state == RolledBack <==> c.r.rollbackStatus != NoRollback)
    && (c.r.state == Completed ==> c.r.currentStageIndex == PlanLength(c) - 1)
    && c.r.stableVersionID != c.r.candidateVersionID
    && ValidRules(c.r.guardrails) && NonNegative(c.r.guardrailFailures)
  }

  /** A frozen candidate target of stage `s`. */
  predicate CandidateTarget(h: Hash, r: Rollout, s: Stage, t: StageTarget) {
    && t.rolloutID == r.id && t.stageID == s.id && t.expectedVersionID == r.candidateVersionID
    && TargetSlot(t) == SlotOf(h, r, t.agentID) && Eligible(t.bucket, s.percentage)
  }

  predicate CandidateCohort(h: Hash, r: Rollout, s: Stage, targets: seq<StageTarget>) {
    && (forall i :: 0 <= i < |targets| ==> CandidateTarget(h, r, s, targets[i]))
    && DistinctTargets(targets)
  }

  /** Stages up to the current one hold candidate cohorts; later ones are still empty. */
  predicate Activated(h: Hash, c: Case)
    requires Shaped(c)
  {
    && (forall i :: 0 <= i <= c.r.currentStageIndex ==> CandidateCohort(h, c.r, c.stages[i], c.cohorts[i]))
    && (forall i :: c.r.currentStageIndex < i < PlanLength(c) ==> c.cohorts[i] == [])
  }

  predicate Covers(small: seq<StageTarget>, large: seq<StageTarget>) {
    forall i :: 0 <= i < |small| ==> Targeted(large, small[i].agentID)
  }

  /** Every activated cohort lies inside the current one. */
  predicate Nested(c: Case)
    requires Shaped(c)
  {
    forall i :: 0 <= i <= c.r.currentStageIndex ==> Covers(c.cohorts[i], c.cohorts[c.r.currentStageIndex])
  }

  predicate MirrorTarget(r: Rollout, t: StageTarget, v: StageTarget) {
    && v.agentID == t.agentID && v.bucket == t.bucket && v.rolloutID == r.id
    && v.stageID == VerificationID(r.id) && v.expectedVersionID == r.stableVersionID
  }

  /** The verification targets are the current candidate cohort again, expecting the stable version. */
  predicate Mirrored(c: Case)
    requires Shaped(c)
  {
    Verifying(c) ==>
      var candidates, checks := c.cohorts[c.r.currentStageIndex], c.cohorts[|c.stages| - 1];
      |checks| == |candidates| && forall i :: 0 <= i < |checks| ==> MirrorTarget(c.r, candidates[i], checks[i])
  }

  /** Stages already passed, and the last one of a completed rollout, were covered. */
  predicate Earned(c: Case)
    requires Shaped(c)
  {
    && (forall i :: 0 <= i < c.r.currentStageIndex ==> CoverageReached(c.cohorts[i], c.r.requiredAckPercent))
    && (c.r.state == Completed || c.r.state == Paused ==>
          CoverageReached(c.cohorts[c.r.currentStageIndex], c.r.requiredAckPercent))
  }

  function MinimumSum(stages: seq<Stage>, n: nat): int
    requires n <= |stages|
  {
    if n == 0 then 0 else MinimumSum(stages, n - 1) + stages[n - 1].minimumDuration
  }

  /** Time spent is at least the minimum durations of the stages passed. */
  predicate Paced(c: Case)
    requires Shaped(c)
  {
    && c.r.createdAt + MinimumSum(c.stages, c.r.currentStageIndex) <= c.r.stageStartedAt
    && (c.r.state == Completed && c.r.rolloutMaxDuration > 0 ==>
          MinimumSum(c.stages, c.r.currentStageIndex + 1) < c.r.rolloutMaxDuration)
  }

  predicate Delivering(c: Case) {
    c.r.state == Deploying || c.r.state == Paused
  }

  /** While delivering, no counter has reached its rule's threshold; a pause needs guardrails. */
  predicate Guarded(c: Case) {
    && (Delivering(c) && NamesAgree(c.r.guardrails) ==> BelowThreshold(c.r.guardrails, c.r.guardrailFailures))
    && (c.r.state == Paused ==> c.r.guardrails != [])
  }

  /** A verified rollback was covered or had nobody to check; a partial one was not, and waited for its timeout. */
  predicate Concluded(c: Case)
    requires Shaped(c)
  {
    && (c.r.rollbackStatus == Verified ==> Current(c) == [] || CoverageReached(Current(c), c.r.requiredAckPercent))
    && (c.r.rollbackStatus == Partial ==>
          Current(c) != [] && !CoverageReached(Current(c), c.r.requiredAckPercent)
          && 0 < c.r.rollbackTimeout <= c.r.updatedAt - c.r.stageStartedAt)
  }

  predicate Inv(h: Hash, c: Case) {
    Shaped(c) && Activated(h, c) && Nested(c) && Mirrored(c) && Earned(c) && Paced(c) && Guarded(c) && Concluded(c)
  }

  // ----- Two files of the same rollout, the second one later -----

  predicate SameIdentity(r: Rollout, r': Rollout) {
    r'.(state := r.state, currentStageID := r.currentStageID, currentStageIndex := r.currentStageIndex,
        guardrailFailures := r.guardrailFailures, stageStartedAt := r.stageStartedAt,
        rollbackStatus := r.rollbackStatus, updatedAt := r.updatedAt) == r
  }

  predicate Frozen(c: Case, i: int)
    requires Indexed(c)
  {
    0 <= i <= c.r.currentStageIndex || i == Position(c)
  }

  /** What time can do to a rollout: identity, plan and frozen cohorts stay, phases only move forward. */
  ghost predicate Extends(c: Case, c': Case)
    requires Shaped(c) && Shaped(c')
  {
    && SameIdentity(c.r, c'.r)
    && PlanLength(c') == PlanLength(c) && c.stages <= c'.stages
    && c.r.currentStageIndex <= c'.r.currentStageIndex
    && StoredChange(c.r.state, c'.r.state)
    && (c.r.state == RollingBack ==> c'.r.currentStageIndex == c.r.currentStageIndex)
    && (Verifying(c) ==> Verifying(c') && c'.r.stageStartedAt == c.r.stageStartedAt)
    && (Terminal(c.r.state) ==> c' == c)
    && (forall i :: Frozen(c, i) ==> SameTargets(c.cohorts[i], c'.cohorts[i]))
  }

  lemma {:induction false} ExtendsIsReflexive(c: Case)
    requires Shaped(c)
    ensures Extends(c, c)
  {
  }

  lemma {:induction false} ExtendsIsTransitive(a: Case, b: Case, c: Case)
    requires Shaped(a) && Shaped(b) && Shaped(c)
    requires Extends(a, b) && Extends(b, c)
    ensures Extends(a, c)
  {
    forall i | Frozen(a, i) ensures SameTargets(a.cohorts[i], c.cohorts[i]) {
      assert Frozen(b, i);
      SameTargetsCompose(a.cohorts[i], b.cohorts[i], c.cohorts[i]);
    }
  }

  lemma {:induction false} ExtendsChain(h: Hash, a: Case, b: Case, c: Case)
    requires Inv(h, a) && Inv(h, b) && Inv(h, c) && Extends(a, b) && Extends(b, c)
    ensures Extends(a, c)
  {
    ExtendsIsTransitive(a, b, c);
  }

  lemma {:induction false} ExtendsItself(h: Hash, c: Case)
    requires Inv(h, c)
    ensures Extends(c, c)
  {
    ExtendsIsReflexive(c);
  }
}
