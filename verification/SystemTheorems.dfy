/** The control plane's promises, over every run of it. */
module SystemTheorems {
  import opened Text
  import opened Wrappers
  import opened Lifecycle
  import opened Cohorts
  import opened RolloutCase
  import opened CaseInvariant
  import opened CaseSteps
  import opened Effective
  import opened RolloutTheorems
  import opened World
  import opened SystemInvariant
  import opened SystemRuns
  import R = ConfigRegistry

  // ----- The active index -----

  /** GetActiveRollout: one lookup under the joined key. */
  function GetActive(w: World, configDefinitionID: string, environment: string): Option<string> {
    var key := ActiveKey(configDefinitionID, environment);
    if key in w.active && w.active[key] in w.cases && !Terminal(w.cases[w.active[key]].r.state) then Some(w.active[key])
    else None
  }

  /** What a scan of all rollouts would look for. */
  predicate RunsFor(w: World, id: string, configDefinitionID: string, environment: string) {
    && id in w.cases && !Terminal(w.cases[id].r.state)
    && w.cases[id].r.configDefinitionID == configDefinitionID && w.cases[id].r.environment == environment
  }

  /** The lookup finds exactly the non-terminal rollout of a configuration and environment, so there is at most one. */
  lemma {:induction false} ActiveIndexIsAScan(
      h: Hash, w: World, id: string, configDefinitionID: string, environment: string)
    requires WorldInv(h, w) && NulFree(environment)
    ensures GetActive(w, configDefinitionID, environment) == Some(id) <==>
      RunsFor(w, id, configDefinitionID, environment)
  {
    hide Inv, R.RegistryInv, RevisionsUnique, AgentsKnown, PointersHeld, Files, R.FindDefinition, R.NamesVersion, Join;
    var key := ActiveKey(configDefinitionID, environment);
    if GetActive(w, configDefinitionID, environment).Some? {
      var r := w.cases[w.active[key]].r;
      assert Linked(w.registry, r);
      JoinIsInjectiveOnTheRight(configDefinitionID, environment, r.configDefinitionID, r.environment);
    }
  }

  // ----- What agents are served -----

  /** The version GetSnapshot picks for one agent and configuration, before it looks the value up. */
  function VersionFor(w: World, configDefinitionID: string, environment: string, agentID: string): string
    requires AllIndexed(w)
  {
    match GetActive(w, configDefinitionID, environment)
    case Some(id) => Serving(w.cases[id], agentID).versionID
    case None => Pointer(w.registry, ActiveKey(configDefinitionID, environment))
  }

  /** The step is a creation that is accepted, and this is the key of the new rollout. */
  predicate Launches(setup: Setup, w: World, step: Step, key: string) {
    && step.CreateStep? && CreateRollout(setup.h, w, step.input, setup.plan, step.id, step.clock).Ok?
    && R.FindDefinition(w.registry, step.input.tenantID, step.input.key).Ok?
    && key == ActiveKey(R.FindDefinition(w.registry, step.input.tenantID, step.input.key).value.id,
                        step.input.environment)
  }

  /** The step is a stable-version request, and it moves the pointer under this key. */
  predicate Repoints(setup: Setup, s: Registry, step: Step, key: string) {
    step.StableStep? && Pointer(RegistryStep(setup, s, step), key) != Pointer(s, key)
  }

  /**
   * A step that neither starts another rollout on the key nor sets its pointer from outside; refused requests do
   * neither.
   */
  predicate LeavesKey(setup: Setup, w: World, step: Step, key: string) {
    !Launches(setup, w, step, key) && !Repoints(setup, w.registry, step, key)
  }

  /** The pointer is the rollout's stable version until it completes, and its candidate from then on. */
  predicate PointerFollows(w: World, id: string) {
    && id in w.cases
    && (Terminal(w.cases[id].r.state) ==> KeyOf(w.cases[id].r) !in w.active)
    && Pointer(w.registry, KeyOf(w.cases[id].r))
       == if w.cases[id].r.state == Completed then w.cases[id].r.candidateVersionID else w.cases[id].r.stableVersionID
  }

  lemma {:induction false} RunningPointerFollows(w: World, id: string)
    requires PointersHeld(w) && id in w.cases && !Terminal(w.cases[id].r.state)
    ensures PointerFollows(w, id)
  {
  }

  lemma {:induction false} RegistryStepLeavesPointer(setup: Setup, s: Sys, step: Step, key: string)
    requires R.RegistryInv(s.w.registry) && Enabled(setup, s, step) && IsRegistryStep(step)
    requires LeavesKey(setup, s.w, step, key)
    ensures Pointer(RegistryStep(setup, s.w.registry, step), key) == Pointer(s.w.registry, key)
  {
    hide R.RegistryInv, R.Grows, R.NamesVersion, RegistryStep, R.FindDefinition, CreateRollout;
    if !step.StableStep? {
      OtherRegistryStepsKeepPointers(setup, s.w.registry, step);
    }
  }

  /** The visit or acknowledgement of rollout `j`, as an effect. */
  function TouchEffect(setup: Setup, w: World, step: Step, j: string): Effect
    requires AllIndexed(w) && j in w.cases
  {
    NextEffect(setup.h, w.cases[j], EventOf(w, step, j))
  }

  lemma {:induction false} TouchMovesPointers(setup: Setup, s: Sys, step: Step, j: string)
    requires SysInv(setup.h, s) && AllIndexed(s.w) && Enabled(setup, s, step) && Touches(s.w, step, j)
    ensures var effect := TouchEffect(setup, s.w, step, j);
      && Apply(setup, s.w, step) == Settle(s.w, j, effect, step.tick.clock.save)
      && SameIdentity(s.w.cases[j].r, effect.next.r) && (effect.completed <==> effect.next.r.state == Completed)
      && PointersMove(s.w.registry, Apply(setup, s.w, step).registry, effect.completed, s.w.cases[j].r)
  {
    hide AgentsKnown, ActiveAgrees, PointersHeld, RevisionsUnique, Inv, Admissible, Drives, NextEffect, R.RegistryInv;
    hide R.Grows, Linked;
    var e := EventOf(s.w, step, j);
    assert Inv(setup.h, s.w.cases[j]);
    StepIsAdmissible(setup, s, step, j);
    StepKeepsIdentity(setup.h, s.w, j, e, TouchEffect(setup, s.w, step, j));
    var effect := TouchEffect(setup, s.w, step, j);
    SettleMovesRegistry(s.w, j, effect, step.tick.clock.save);
    SamePointersMove(s.w.registry, Apply(setup, s.w, step).registry, effect.completed, s.w.cases[j].r, effect.next.r);
  }

  lemma {:induction false} OtherRolloutHasOtherKey(w: World, id: string, j: string)
    requires ActiveAgrees(w) && id in w.cases && j in w.cases && id != j && !Terminal(w.cases[j].r.state)
    requires Terminal(w.cases[id].r.state) ==> KeyOf(w.cases[id].r) !in w.active
    ensures KeyOf(w.cases[j].r) != KeyOf(w.cases[id].r)
  {
  }

  lemma {:induction false} TouchLeavesPointer(setup: Setup, s: Sys, step: Step, j: string, id: string)
    requires SysInv(setup.h, s) && AllIndexed(s.w) && Enabled(setup, s, step) && Touches(s.w, step, j)
    requires PointerFollows(s.w, id)
    ensures PointerFollows(Apply(setup, s.w, step), id)
  {
    hide Inv, AgentsKnown, RevisionsUnique, R.RegistryInv, NextEffect, RegistryLinks, Apply, Enabled;
    TouchMovesPointers(setup, s, step, j);
    if j != id {
      OtherRolloutHasOtherKey(s.w, id, j);
    }
  }

  lemma {:induction false} CreateLeavesPointer(setup: Setup, s: Sys, step: Step, id: string)
    requires AllIndexed(s.w) && step.CreateStep? && PointerFollows(s.w, id)
    requires Enabled(setup, s, step)
    requires LeavesKey(setup, s.w, step, KeyOf(s.w.cases[id].r))
    ensures PointerFollows(Apply(setup, s.w, step), id)
  {
    hide NewCase, ValidPlan, RuleProblem, DistinctStages, R.FindVersions;
  }

  lemma {:induction false} StepKeepsPointerFollowing(setup: Setup, s: Sys, step: Step, id: string)
    requires SysInv(setup.h, s) && AllIndexed(s.w) && Enabled(setup, s, step) && PointerFollows(s.w, id)
    requires LeavesKey(setup, s.w, step, KeyOf(s.w.cases[id].r))
    ensures PointerFollows(Apply(setup, s.w, step), id)
  {
    hide Files, AgentsKnown, ActiveAgrees, RevisionsUnique, R.RegistryInv, RegistryLinks, PointersHeld, RegistryStep;
    hide LeavesKey, Enabled, NextEffect, Settle, CreateRollout;
    if IsRegistryStep(step) {
      RegistryStepLeavesPointer(setup, s, step, KeyOf(s.w.cases[id].r));
    } else if step.CreateStep? {
      CreateLeavesPointer(setup, s, step, id);
    } else if step.AckStep? && Touches(s.w, step, step.ack.rolloutID) {
      TouchLeavesPointer(setup, s, step, step.ack.rolloutID, id);
    } else if step.VisitStep? && Touches(s.w, step, step.id) {
      TouchLeavesPointer(setup, s, step, step.id, id);
    }
  }

  /** No step from `i` up to `j` starts another rollout on the key or moves its pointer from outside. */
  ghost predicate KeyUndisturbed(setup: Setup, run: seq<Sys>, steps: seq<Step>, i: nat, j: nat, key: string) {
    forall n :: i <= n < j && n < |steps| && n < |run| ==> LeavesKey(setup, run[n].w, steps[n], key)
  }

  lemma {:induction false} RunKeepsKey(setup: Setup, run: seq<Sys>, steps: seq<Step>, i: nat, j: nat, id: string)
    requires IsRun(setup, run, steps) && i <= j < |run| && id in run[i].w.cases
    ensures id in run[j].w.cases && KeyOf(run[j].w.cases[id].r) == KeyOf(run[i].w.cases[id].r)
  {
    hide Inv, IsRun;
    RunExtends(setup, run, steps, i, j, id);
  }

  /** From a moment the rollout runs, the pointer is its stable version until Completed and its candidate afterwards. */
  lemma {:induction false} PointerFollowsTheRollout(
      setup: Setup, run: seq<Sys>, steps: seq<Step>, i: nat, j: nat, id: string)
    requires IsRun(setup, run, steps) && i <= j < |run|
    requires id in run[i].w.cases && !Terminal(run[i].w.cases[id].r.state)
    requires KeyUndisturbed(setup, run, steps, i, j, KeyOf(run[i].w.cases[id].r))
    ensures PointerFollows(run[j].w, id)
    decreases j
  {
    hide PointerFollows, Enabled, Apply, LeavesKey, Files, AgentsKnown, ActiveAgrees, RevisionsUnique, R.RegistryInv;
    hide RegistryLinks;
    if i == j {
      ReachableStatesAreSound(setup, run, steps, i);
      RunningPointerFollows(run[i].w, id);
    } else {
      PointerFollowsTheRollout(setup, run, steps, i, j - 1, id);
      ReachableStatesAreSound(setup, run, steps, j - 1);
      assert run[j - 1 + 1] == Advance(setup, run[j - 1], steps[j - 1]);
      RunKeepsKey(setup, run, steps, i, j - 1, id);
      StepKeepsPointerFollowing(setup, run[j - 1], steps[j - 1], id);
    }
  }

  lemma {:induction false} ServedWhileRunning(h: Hash, w: World, id: string, agentID: string)
    requires WorldInv(h, w) && AllIndexed(w) && PointerFollows(w, id)
    ensures var r := w.cases[id].r;
      VersionFor(w, r.configDefinitionID, r.environment, agentID)
      == if OnCandidate(w.cases[id], agentID) then r.candidateVersionID else r.stableVersionID
  {
    hide R.FindDefinition, R.NamesVersion, ActiveKey, Pointer;
    hide Inv, AgentsKnown, RevisionsUnique, R.RegistryInv, PointersHeld, Serving;
    var r := w.cases[id].r;
    assert Linked(w.registry, r) && NulFree(r.environment);
    if Terminal(r.state) {
      assert Inv(h, w.cases[id]);
      StoredTerminal(h, w.cases[id]);
    } else {
      assert GetActive(w, r.configDefinitionID, r.environment) == Some(id);
      assert Inv(h, w.cases[id]);
      ServingIsByCohort(h, w.cases[id], agentID);
    }
  }

  lemma {:induction false} StoredTerminal(h: Hash, c: Case)
    requires Inv(h, c) && Terminal(c.r.state)
    ensures c.r.state == Completed || c.r.state == RolledBack
    ensures !Delivering(c)
  {
  }

  /** The version served for rollout `id`'s configuration to an agent of its environment. */
  function Served(s: Sys, id: string, agentID: string): string
    requires AllIndexed(s.w) && id in s.w.cases
  {
    VersionFor(s.w, s.w.cases[id].r.configDefinitionID, s.w.cases[id].r.environment, agentID)
  }

  lemma {:induction false} ServedInRun(
      setup: Setup, run: seq<Sys>, steps: seq<Step>, i: nat, j: nat, id: string, agentID: string)
    requires IsRun(setup, run, steps) && i <= j < |run|
    requires id in run[i].w.cases && !Terminal(run[i].w.cases[id].r.state)
    requires KeyUndisturbed(setup, run, steps, i, j, KeyOf(run[i].w.cases[id].r))
    ensures id in run[j].w.cases && AllIndexed(run[j].w) && Inv(setup.h, run[j].w.cases[id])
    ensures Served(run[j], id, agentID)
      == if OnCandidate(run[j].w.cases[id], agentID) then run[j].w.cases[id].r.candidateVersionID
         else run[j].w.cases[id].r.stableVersionID
    ensures run[j].w.cases[id].r.candidateVersionID != run[j].w.cases[id].r.stableVersionID
  {
    hide VersionFor, OnCandidate, IsRun, AllIndexed, Files, AgentsKnown, ActiveAgrees, RevisionsUnique, R.RegistryInv;
    hide RegistryLinks;
    ReachableStatesAreSound(setup, run, steps, j);
    PointerFollowsTheRollout(setup, run, steps, i, j, id);
    RunExtends(setup, run, steps, i, j, id);
    ServedWhileRunning(setup.h, run[j].w, id, agentID);
  }

  /**
   * No flapping. Over any run, the versions an agent is served for a rollout's configuration are stable ones, then the
   * candidate, then stable ones: between two moments on the candidate there is none off it, and leaving it means the
   * rollout was rolling back.
   */
  lemma {:induction false} NoFlappingInRuns(
      setup: Setup, run: seq<Sys>, steps: seq<Step>, start: nat, i: nat, j: nat, k: nat, id: string, agentID: string)
    requires IsRun(setup, run, steps) && start <= i <= j <= k < |run|
    requires id in run[start].w.cases && !Terminal(run[start].w.cases[id].r.state)
    requires KeyUndisturbed(setup, run, steps, start, k, KeyOf(run[start].w.cases[id].r))
    ensures id in run[i].w.cases && id in run[j].w.cases && id in run[k].w.cases
    ensures AllIndexed(run[i].w) && AllIndexed(run[j].w) && AllIndexed(run[k].w)
    ensures Served(run[i], id, agentID) == run[start].w.cases[id].r.candidateVersionID
         && Served(run[k], id, agentID) == run[start].w.cases[id].r.candidateVersionID
        ==> Served(run[j], id, agentID) == run[start].w.cases[id].r.candidateVersionID
    ensures Served(run[i], id, agentID) == run[start].w.cases[id].r.candidateVersionID
         && Served(run[j], id, agentID) != run[start].w.cases[id].r.candidateVersionID
        ==> (run[j].w.cases[id].r.state == RollingBack || run[j].w.cases[id].r.state == RolledBack)
            && run[i].w.cases[id].r.state != Completed
  {
    hide Served, Inv, IsRun, AllIndexed, LeavesKey;
    ServedInRun(setup, run, steps, start, i, id, agentID);
    ServedInRun(setup, run, steps, start, j, id, agentID);
    ServedInRun(setup, run, steps, start, k, id, agentID);
    RunIdentity(setup, run, steps, start, i, id);
    RunIdentity(setup, run, steps, start, j, id);
    RunIdentity(setup, run, steps, start, k, id);
    FlapsNever(setup, run, steps, i, j, k, id, agentID);
  }

  lemma {:induction false} RunIdentity(setup: Setup, run: seq<Sys>, steps: seq<Step>, i: nat, j: nat, id: string)
    requires IsRun(setup, run, steps) && i <= j < |run| && id in run[i].w.cases
    ensures id in run[j].w.cases && run[j].w.cases[id].r.candidateVersionID == run[i].w.cases[id].r.candidateVersionID
  {
    hide Inv, IsRun;
    RunExtends(setup, run, steps, i, j, id);
  }

  lemma {:induction false} FlapsNever(
      setup: Setup, run: seq<Sys>, steps: seq<Step>, i: nat, j: nat, k: nat, id: string, agentID: string)
    requires IsRun(setup, run, steps) && i <= j <= k < |run| && id in run[i].w.cases
    ensures id in run[j].w.cases && id in run[k].w.cases
    ensures Indexed(run[i].w.cases[id]) && Indexed(run[j].w.cases[id]) && Indexed(run[k].w.cases[id])
    ensures OnCandidate(run[i].w.cases[id], agentID) && OnCandidate(run[k].w.cases[id], agentID) ==>
      OnCandidate(run[j].w.cases[id], agentID)
    ensures OnCandidate(run[i].w.cases[id], agentID) && !OnCandidate(run[j].w.cases[id], agentID) ==>
      (run[j].w.cases[id].r.state == RollingBack || run[j].w.cases[id].r.state == RolledBack)
      && run[i].w.cases[id].r.state != Completed
  {
    hide Extends, IsRun, Activated, Nested, Mirrored, Earned, Paced, Guarded, Concluded, OnCandidate;
    RunExtends(setup, run, steps, i, j, id);
    RunExtends(setup, run, steps, j, k, id);
    var a, b, c := run[i].w.cases[id], run[j].w.cases[id], run[k].w.cases[id];
    if OnCandidate(a, agentID) && !OnCandidate(b, agentID) {
      OnlyRollbackTakesTheCandidateAway(setup.h, a, b, agentID);
    }
    if OnCandidate(a, agentID) && OnCandidate(c, agentID) {
      NoFlapping(setup.h, a, b, c, agentID);
    }
  }

  /**
   * Rollback reaches everyone exposed: whoever was served the candidate at any earlier moment is in the verification
   * stage.
   */
  lemma {:induction false} VerificationReachesEveryoneServed(
      setup: Setup, run: seq<Sys>, steps: seq<Step>, start: nat, i: nat, j: nat, id: string, agentID: string)
    requires IsRun(setup, run, steps) && start <= i <= j < |run|
    requires id in run[start].w.cases && !Terminal(run[start].w.cases[id].r.state)
    requires KeyUndisturbed(setup, run, steps, start, i, KeyOf(run[start].w.cases[id].r))
    requires id in run[j].w.cases && Verifying(run[j].w.cases[id])
    ensures id in run[i].w.cases && AllIndexed(run[i].w) && Indexed(run[j].w.cases[id])
    ensures Served(run[i], id, agentID) == run[i].w.cases[id].r.candidateVersionID ==>
      Targeted(Current(run[j].w.cases[id]), agentID)
  {
    hide Served, IsRun, AllIndexed, LeavesKey, Activated, Nested, Mirrored, Earned, Paced, Guarded, Concluded;
    ServedInRun(setup, run, steps, start, i, id, agentID);
    RunExtends(setup, run, steps, i, j, id);
    var before, c := run[i].w.cases[id], run[j].w.cases[id];
    if OnCandidate(before, agentID) {
      assert before.r.state != Completed;
      RollbackReachesEveryoneExposed(setup.h, before, c, agentID);
    }
  }
}
