/** internal/rollout/effective.go: the version an active rollout gives one agent. */
module Effective {
  import opened Lifecycle
  import opened Cohorts
  import opened RolloutCase
  import opened CaseInvariant

  datatype EffectiveVersion = EffectiveVersion(
    versionID: string, assignedRollout: string, assignedStage: string, snapshotRevision: int)

  function StableFor(r: Rollout): EffectiveVersion {
    EffectiveVersion(r.stableVersionID, "", "", 0)
  }

  predicate ServesCandidate(s: State) {
    s == Deploying || s == Evaluating || s == Promoting || s == Paused
  }

  predicate AssignedHere(r: Rollout, t: StageTarget, agentID: string) {
    t.agentID == agentID && t.rolloutID == r.id && t.stageID == r.currentStageID
  }

  function FirstAssigned(r: Rollout, targets: seq<StageTarget>, agentID: string): (k: nat)
    ensures k <= |targets|
    ensures forall i :: 0 <= i < k ==> !AssignedHere(r, targets[i], agentID)
    ensures k < |targets| ==> AssignedHere(r, targets[k], agentID)
  {
    if targets == [] then 0
    else if AssignedHere(r, targets[0], agentID) then 0
    else 1 + FirstAssigned(r, targets[1..], agentID)
  }

  function AssignedTo(t: StageTarget, versionID: string): EffectiveVersion {
    EffectiveVersion(versionID, t.rolloutID, t.stageID, t.snapshotRevision)
  }

  function EffectiveVersionForAgent(r: Rollout, targets: seq<StageTarget>, agentID: string): EffectiveVersion {
    if r.state == RollingBack then RollbackVersionForAgent(r, targets, agentID)
    else if !ServesCandidate(r.state) then StableFor(r)
    else
      var k := FirstAssigned(r, targets, agentID);
      if k < |targets| then AssignedTo(targets[k], targets[k].expectedVersionID) else StableFor(r)
  }

  function RollbackVersionForAgent(r: Rollout, targets: seq<StageTarget>, agentID: string): EffectiveVersion {
    var k := FirstAssigned(r, targets, agentID);
    if k < |targets| && targets[k].expectedVersionID == r.stableVersionID then AssignedTo(targets[k], r.stableVersionID)
    else StableFor(r)
  }

  /** What an active rollout's own file serves an agent. */
  function Serving(c: Case, agentID: string): EffectiveVersion
    requires Indexed(c)
  {
    EffectiveVersionForAgent(c.r, Current(c), agentID)
  }

  /** Whether `agentID` gets the candidate from this rollout, counting a completed rollout's candidate as everyone's. */
  predicate OnCandidate(c: Case, agentID: string)
    requires Indexed(c)
  {
    c.r.state == Completed || (Delivering(c) && Targeted(Current(c), agentID))
  }

  /** Every current target is addressed to the current stage of this rollout. */
  lemma {:induction false} CurrentTargetsAreAssigned(h: Hash, c: Case, i: nat)
    requires Inv(h, c) && i < |Current(c)|
    ensures Current(c)[i].rolloutID == c.r.id && Current(c)[i].stageID == c.r.currentStageID
    ensures Current(c)[i].expectedVersionID == if Verifying(c) then c.r.stableVersionID else c.r.candidateVersionID
  {
    var k := c.r.currentStageIndex;
    if Verifying(c) {
      assert MirrorTarget(c.r, c.cohorts[k][i], Current(c)[i]);
    } else {
      assert CandidateCohort(h, c.r, c.stages[k], c.cohorts[k]);
      assert CandidateTarget(h, c.r, c.stages[k], Current(c)[i]);
    }
  }

  /**
   * An active rollout serves the candidate exactly to its current cohort while delivering, and its stable version
   * otherwise.
   */
  lemma {:induction false} ServingIsByCohort(h: Hash, c: Case, agentID: string)
    requires Inv(h, c) && !Terminal(c.r.state)
    ensures Serving(c, agentID).versionID
         == if OnCandidate(c, agentID) then c.r.candidateVersionID else c.r.stableVersionID
  {
    var targets := Current(c);
    var k := FirstAssigned(c.r, targets, agentID);
    if k < |targets| {
      CurrentTargetsAreAssigned(h, c, k);
      assert targets[k] in targets;
    }
    if Targeted(targets, agentID) {
      var i :| 0 <= i < |targets| && targets[i].agentID == agentID;
      CurrentTargetsAreAssigned(h, c, i);
      assert AssignedHere(c.r, targets[i], agentID);
    }
  }

  /**
   * An assignment names the agent's own current target, with its revision; without one the agent is in no current
   * cohort.
   */
  lemma {:induction false} AssignmentIsTheTarget(h: Hash, c: Case, agentID: string)
    requires Inv(h, c) && (Delivering(c) || Verifying(c)) && !Terminal(c.r.state) && c.r.id != ""
    ensures Serving(c, agentID).assignedRollout != "" <==> Targeted(Current(c), agentID)
    ensures Serving(c, agentID).assignedRollout != "" ==>
      exists i :: 0 <= i < |Current(c)| && Current(c)[i].agentID == agentID
        && Serving(c, agentID) == AssignedTo(Current(c)[i], Current(c)[i].expectedVersionID)
  {
    var targets := Current(c);
    var k := FirstAssigned(c.r, targets, agentID);
    if k < |targets| {
      CurrentTargetsAreAssigned(h, c, k);
      assert targets[k] in targets;
    }
    if Targeted(targets, agentID) {
      var i :| 0 <= i < |targets| && targets[i].agentID == agentID;
      CurrentTargetsAreAssigned(h, c, i);
      assert AssignedHere(c.r, targets[i], agentID);
    }
  }
}
