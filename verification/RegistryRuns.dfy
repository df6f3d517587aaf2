/** The registry over every run: versions are only appended, and pointers only ever name existing ones. */
module RegistryRuns {
  import opened Text
  import opened Wrappers
  import opened RolloutCase
  import opened CaseInvariant
  import opened CaseSteps
  import opened World
  import opened SystemInvariant
  import opened SystemRuns
  import opened SystemTheorems
  import R = ConfigRegistry

  lemma {:induction false} TouchGrowsRegistry(setup: Setup, s: Sys, step: Step, id: string)
    requires SysInv(setup.h, s) && AllIndexed(s.w) && Enabled(setup, s, step) && Touches(s.w, step, id)
    ensures R.Grows(s.w.registry, Apply(setup, s.w, step).registry)
  {
    hide AgentsKnown, ActiveAgrees, PointersHeld, RevisionsUnique, Inv, Admissible, Drives, NextEffect, R.RegistryInv;
    hide R.Grows, Linked, Settle, Apply;
    TouchMovesPointers(setup, s, step, id);
    SettleMovesRegistry(s.w, id, TouchEffect(setup, s.w, step, id), step.tick.clock.save);
  }

  lemma {:induction false} OtherStepsLeaveRegistry(setup: Setup, s: Sys, step: Step)
    requires AllIndexed(s.w) && !IsRegistryStep(step)
    requires step.AckStep? ==> !Touches(s.w, step, step.ack.rolloutID)
    requires step.VisitStep? ==> !Touches(s.w, step, step.id)
    ensures Apply(setup, s.w, step).registry == s.w.registry
  {
    hide CheckInput, NextEffect;
  }

  lemma {:induction false} StepGrowsRegistry(setup: Setup, s: Sys, step: Step)
    requires SysInv(setup.h, s) && AllIndexed(s.w) && Enabled(setup, s, step)
    ensures R.Grows(s.w.registry, Apply(setup, s.w, step).registry)
  {
    hide Files, AgentsKnown, ActiveAgrees, PointersHeld, RevisionsUnique, RegistryLinks, R.RegistryInv, R.Grows;
    hide RegistryStep, R.NamesVersion, AllIndexed;
    if step.StableStep? {
      StableStepKeepsRegistry(setup, s.w.registry, step);
    } else if IsRegistryStep(step) {
      OtherRegistryStepsKeepPointers(setup, s.w.registry, step);
    } else if step.AckStep? && Touches(s.w, step, step.ack.rolloutID) {
      TouchGrowsRegistry(setup, s, step, step.ack.rolloutID);
    } else if step.VisitStep? && Touches(s.w, step, step.id) {
      TouchGrowsRegistry(setup, s, step, step.id);
    } else {
      OtherStepsLeaveRegistry(setup, s, step);
      R.GrowsIsReflexive(s.w.registry);
    }
  }

  lemma {:induction false} RegistryOnlyGrows(setup: Setup, run: seq<Sys>, steps: seq<Step>, i: nat, j: nat)
    requires IsRun(setup, run, steps) && i <= j < |run|
    ensures R.Grows(run[i].w.registry, run[j].w.registry)
    decreases j
  {
    hide SysInv, Enabled, Apply, R.Grows, AllIndexed;
    if i == j {
      R.GrowsIsReflexive(run[i].w.registry);
    } else {
      RegistryOnlyGrows(setup, run, steps, i, j - 1);
      ReachableStatesAreSound(setup, run, steps, j - 1);
      assert run[j - 1 + 1] == Advance(setup, run[j - 1], steps[j - 1]);
      StepGrowsRegistry(setup, run[j - 1], steps[j - 1]);
      R.GrowsIsTransitive(run[i].w.registry, run[j - 1].w.registry, run[j].w.registry);
    }
  }

  /**
   * At any moment of any run a definition's versions are numbered 1 to n, found by number, and never change afterwards.
   */
  lemma {:induction false} VersionsNeverChange(
      setup: Setup, run: seq<Sys>, steps: seq<Step>, i: nat, j: nat, id: string, n: int)
    requires IsRun(setup, run, steps) && i <= j < |run| && 1 <= n <= |R.VersionsOf(run[i].w.registry, id)|
    ensures var v := R.VersionsOf(run[i].w.registry, id)[n - 1];
      v.versionNumber == n && v.configDefinitionID == id && n <= |R.VersionsOf(run[j].w.registry, id)|
      && R.VersionsOf(run[j].w.registry, id)[n - 1] == v && R.FindByNumber(run[j].w.registry, id, n) == Ok(v)
  {
    hide IsRun, Files, AgentsKnown, ActiveAgrees, PointersHeld, RevisionsUnique, RegistryLinks, R.PointersExist;
    hide R.KeysAgree;
    ReachableStatesAreSound(setup, run, steps, i);
    ReachableStatesAreSound(setup, run, steps, j);
    RegistryOnlyGrows(setup, run, steps, i, j);
    assert id in run[i].w.registry.versions && R.Numbered(id, R.VersionsOf(run[i].w.registry, id));
    assert R.VersionsOf(run[i].w.registry, id) <= R.VersionsOf(run[j].w.registry, id);
    R.NumberIsFound(run[j].w.registry, id, n);
  }

  /** And every stable pointer names an existing version of its own configuration. */
  lemma {:induction false} PointersNameVersions(
      setup: Setup, run: seq<Sys>, steps: seq<Step>, i: nat, id: string, environment: string)
    requires IsRun(setup, run, steps) && i < |run| && R.ValidEnvironment(environment)
    requires R.StateKey(id, environment) in run[i].w.registry.states
    ensures R.NamesVersion(R.VersionsOf(run[i].w.registry, id), Pointer(run[i].w.registry, R.StateKey(id, environment)))
  {
    hide IsRun, Files, AgentsKnown, ActiveAgrees, PointersHeld, RevisionsUnique, RegistryLinks, R.NumbersAgree;
    hide R.KeysAgree, R.VersionsNumbered;
    ReachableStatesAreSound(setup, run, steps, i);
    var e := run[i].w.registry.states[R.StateKey(id, environment)];
    JoinIsInjectiveOnTheRight(id, environment, e.configDefinitionID, e.environment);
  }
}
