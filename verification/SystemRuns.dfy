/** Runs of the control plane: arbitrary interleavings of its operations under a clock that never goes back. */
module SystemRuns {
  import opened Text
  import opened Lifecycle
  import opened Guardrails
  import opened Cohorts
  import opened RolloutCase
  import opened CaseInvariant
  import opened CaseSteps
  import opened World
  import opened SystemInvariant
  import opened SystemSteps
  import R = ConfigRegistry

  /** The parts fixed for a run: the hash, the JSON checks, and the default stage plan. */
  datatype Setup = Setup(h: Hash, checks: R.Checks, plan: seq<Stage>)

  datatype Step =
    | RegisterStep(a: Agent)
    | TenantStep(t: R.Tenant)
    | DefinitionStep(definition: R.DefinitionInput, id: string, now: Time)
    | VersionStep(version: R.VersionInput, id: string, now: Time)
    | StableStep(tenantID: string, key: string, environment: string, number: int, now: Time)
    | CreateStep(input: RolloutInput, id: string, clock: Clock)
    | AckStep(ack: Ack, tick: Tick)
    | VisitStep(id: string, tick: Tick)

  datatype Sys = Sys(w: World, clock: Time)

  /** A registry operation that fails leaves the registry as it was. */
  function RegistryStep(setup: Setup, s: Registry, step: Step): Registry {
    match step
    case TenantStep(t) => (match R.CreateTenant(s, t) case Ok(s') => s' case Err(_) => s)
    case DefinitionStep(input, id, now) =>
      (match R.CreateDefinition(s, setup.checks, input, id, now) case Ok(p) => p.0 case Err(_) => s)
    case VersionStep(input, id, now) =>
      (match R.CreateVersion(s, setup.checks, input, id, now) case Ok(p) => p.0 case Err(_) => s)
    case StableStep(tenantID, key, environment, number, now) =>
      (match R.SetStable(s, tenantID, key, environment, number, now) case Ok(p) => p.0 case Err(_) => s)
    case _ => s
  }

  predicate IsRegistryStep(step: Step) {
    step.TenantStep? || step.DefinitionStep? || step.VersionStep? || step.StableStep?
  }

  function Apply(setup: Setup, w: World, step: Step): World
    requires AllIndexed(w)
  {
    match step
    case RegisterStep(a) => RegisterAgent(w, a)
    case CreateStep(input, id, clock) =>
      (match CreateRollout(setup.h, w, input, setup.plan, id, clock) case Ok(w') => w' case Err(_) => w)
    case AckStep(ack, tick) => (match Acknowledge(setup.h, w, ack, tick) case Ok(p) => p.0 case Err(_) => w)
    case VisitStep(id, tick) => if id in w.cases then VisitRollout(setup.h, w, id, tick) else w
    case _ => w.(registry := RegistryStep(setup, w.registry, step))
  }

  /** The first and last clock readings a step may take. */
  function FirstReading(step: Step, clock: Time): Time {
    match step
    case RegisterStep(_) => clock
    case TenantStep(t) => t.createdAt
    case DefinitionStep(_, _, now) => now
    case VersionStep(_, _, now) => now
    case StableStep(_, _, _, _, now) => now
    case CreateStep(_, _, c) => c.decide
    case AckStep(ack, _) => ack.ackedAt
    case VisitStep(_, t) => t.clock.decide
  }

  function LastReading(step: Step, clock: Time): Time {
    match step
    case CreateStep(_, _, c) => c.build
    case AckStep(_, t) => t.clock.build
    case VisitStep(_, t) => t.clock.build
    case _ => FirstReading(step, clock)
  }

  predicate ReadingsOrdered(step: Step) {
    match step
    case CreateStep(_, _, c) => Runs(c)
    case AckStep(ack, t) => ack.ackedAt <= t.clock.decide && Runs(t.clock)
    case VisitStep(_, t) => Runs(t.clock)
    case _ => true
  }

  /**
   * What is assumed of a step: the clock runs on, an accepted creation has a proper id and distinct stage names, a new
   * definition's id holds no NUL and a new version's id is new, a target of a delivering rollout does not move out of
   * its scope, and nobody else moves the stable version under an active rollout.
   */
  predicate Enabled(setup: Setup, s: Sys, step: Step) {
    && s.clock <= FirstReading(step, s.clock) && ReadingsOrdered(step)
    && match step
       case RegisterStep(a) => a.id != "" && StaysInReach(s.w, a)
       case DefinitionStep(input, id, now) =>
         R.CreateDefinition(s.w.registry, setup.checks, input, id, now).Ok? ==> NulFree(id)
       case VersionStep(input, id, _) =>
         R.FindDefinition(s.w.registry, input.tenantID, input.key).Ok? ==>
           !R.NamesVersion(R.VersionsOf(s.w.registry,
                                        R.FindDefinition(s.w.registry, input.tenantID, input.key).value.id), id)
       case StableStep(_, _, _, _, _) =>
         forall k :: k in s.w.active ==> Pointer(RegistryStep(setup, s.w.registry, step), k) == Pointer(s.w.registry, k)
       case CreateStep(input, id, clock) =>
         CreateRollout(setup.h, s.w, input, setup.plan, id, clock).Ok? ==> Creatable(input, setup.plan, id)
       case _ => true
  }

  function Advance(setup: Setup, s: Sys, step: Step): Sys
    requires AllIndexed(s.w)
  {
    Sys(Apply(setup, s.w, step), LastReading(step, s.clock))
  }

  /** No stage began in the future. */
  predicate Started(s: Sys) {
    forall id :: id in s.w.cases ==> s.w.cases[id].r.stageStartedAt <= s.clock
  }

  ghost predicate SysInv(h: Hash, s: Sys) {
    WorldInv(h, s.w) && Started(s)
  }

  const START := Sys(World(map[], map[], 1, R.EMPTY, []), 0)

  lemma {:induction false} StartKeepsInv(h: Hash, clock: Time)
    ensures SysInv(h, START.(clock := clock))
  {
    R.EmptyIsValid();
  }

  lemma {:induction false} FilesAreIndexed(h: Hash, w: World)
    requires Files(h, w)
    ensures AllIndexed(w)
  {
    forall id | id in w.cases ensures Indexed(w.cases[id]) {
      assert Inv(h, w.cases[id]);
    }
  }

  // ----- Registry steps -----

  lemma {:induction false} BlankNeverValid(k: R.Checks, d: R.Definition)
    requires R.ValidDefinition(k, d)
    ensures !Blank(d.id)
  {
  }

  /** A stable-version request leaves a sound registry, whether it is accepted or refused. */
  lemma {:induction false} StableStepKeepsRegistry(setup: Setup, s: Registry, step: Step)
    requires R.RegistryInv(s) && step.StableStep?
    ensures R.RegistryInv(RegistryStep(setup, s, step)) && R.Grows(s, RegistryStep(setup, s, step))
  {
    R.SetStableNeedsAVersion(s, step.tenantID, step.key, step.environment, step.number, step.now);
    if R.SetStable(s, step.tenantID, step.key, step.environment, step.number, step.now).Ok? {
      R.SetStableSucceeds(s, step.tenantID, step.key, step.environment, step.number, step.now);
    } else {
      R.GrowsIsReflexive(s);
    }
  }

  lemma {:induction false} OtherRegistryStepsKeepPointers(setup: Setup, s: Registry, step: Step)
    requires R.RegistryInv(s) && IsRegistryStep(step) && !step.StableStep?
    requires step.DefinitionStep? && R.CreateDefinition(s, setup.checks, step.definition, step.id, step.now).Ok? ==>
      NulFree(step.id)
    requires step.VersionStep? && R.FindDefinition(s, step.version.tenantID, step.version.key).Ok? ==>
      !R.NamesVersion(R.VersionsOf(s, R.FindDefinition(s, step.version.tenantID, step.version.key).value.id), step.id)
    ensures R.RegistryInv(RegistryStep(setup, s, step)) && R.Grows(s, RegistryStep(setup, s, step))
    ensures RegistryStep(setup, s, step).states == s.states
  {
    hide R.RegistryInv, R.Grows, R.NamesVersion;
    R.GrowsIsReflexive(s);
    match step
    case TenantStep(t) =>
      if R.CreateTenant(s, t).Ok? {
        R.TenantKeepsInv(s, t);
      }
    case DefinitionStep(input, id, now) =>
      if R.CreateDefinition(s, setup.checks, input, id, now).Ok? {
        var d := R.CreateDefinition(s, setup.checks, input, id, now).value.1;
        BlankNeverValid(setup.checks, d);
        R.DefinitionKeepsInv(s, d);
      }
    case VersionStep(input, id, now) =>
      if R.CreateVersion(s, setup.checks, input, id, now).Ok? {
        var d := R.FindDefinition(s, input.tenantID, input.key).value;
        R.VersionKeepsInv(s, setup.checks,
                          R.Version(id, d.id, 0, input.value, input.sourceCommitSHA, input.createdBy, now));
      }
  }

  lemma {:induction false} RegistryStepKeepsWorldInv(setup: Setup, s: Sys, step: Step)
    requires WorldInv(setup.h, s.w) && AllIndexed(s.w) && Enabled(setup, s, step) && IsRegistryStep(step)
    ensures WorldInv(setup.h, Apply(setup, s.w, step))
  {
    hide Files, AgentsKnown, ActiveAgrees, RegistryLinks, PointersHeld, RevisionsUnique, R.RegistryInv, R.Grows;
    hide RegistryStep, R.NamesVersion;
    if step.StableStep? {
      StableStepKeepsRegistry(setup, s.w.registry, step);
    } else {
      OtherRegistryStepsKeepPointers(setup, s.w.registry, step);
    }
    RegistryWriteKeepsWorldInv(setup.h, s.w, RegistryStep(setup, s.w.registry, step));
  }

  // ----- Rollout steps -----

  /** The event a step is for one rollout. */
  function EventOf(w: World, step: Step, id: string): Event {
    match step
    case AckStep(ack, tick) => if ack.rolloutID == id then AckVisit(ack, w.agents, w.nextRevision, tick) else Idle
    case VisitStep(j, tick) => if j == id then Visit(w.agents, w.nextRevision, tick) else Idle
    case _ => Idle
  }

  lemma {:induction false} StepIsAdmissible(setup: Setup, s: Sys, step: Step, id: string)
    requires AgentsKnown(s.w) && Started(s) && Enabled(setup, s, step) && id in s.w.cases
    ensures Admissible(s.w.cases[id], EventOf(s.w, step, id))
    ensures Drives(EventOf(s.w, step, id), s.w.agents, s.w.nextRevision)
  {
    hide InReach, DistinctAgents;
  }

  predicate Touches(w: World, step: Step, id: string) {
    && id in w.cases && !Terminal(w.cases[id].r.state)
    && ((step.AckStep? && step.ack.rolloutID == id) || (step.VisitStep? && step.id == id))
  }

  lemma {:induction false} TouchingStepKeepsWorldInv(setup: Setup, s: Sys, step: Step, id: string)
    requires SysInv(setup.h, s) && AllIndexed(s.w) && Enabled(setup, s, step) && Touches(s.w, step, id)
    ensures WorldInv(setup.h, Apply(setup, s.w, step))
  {
    hide AgentsKnown, ActiveAgrees, RegistryLinks, PointersHeld, RevisionsUnique, R.RegistryInv, Inv, Admissible;
    hide Drives, Settle, NextEffect;
    var e := EventOf(s.w, step, id);
    assert Inv(setup.h, s.w.cases[id]);
    StepIsAdmissible(setup, s, step, id);
    SettleKeepsWorldInv(setup.h, s.w, id, e, NextEffect(setup.h, s.w.cases[id], e), step.tick.clock.save);
  }

  /** Every enabled step keeps the system invariant. */
  lemma {:induction false} StepKeepsWorldInv(setup: Setup, s: Sys, step: Step)
    requires SysInv(setup.h, s) && AllIndexed(s.w) && Enabled(setup, s, step)
    ensures WorldInv(setup.h, Apply(setup, s.w, step))
  {
    hide WorldInv, Started, CreateRollout, Creatable, NextEffect, Settle;
    if IsRegistryStep(step) {
      RegistryStepKeepsWorldInv(setup, s, step);
    } else {
      match step
      case RegisterStep(a) => RegisterKeepsWorldInv(setup.h, s.w, a);
      case CreateStep(input, id, clock) =>
        if CreateRollout(setup.h, s.w, input, setup.plan, id, clock).Ok? {
          CreateKeepsWorldInv(setup.h, s.w, input, setup.plan, id, clock);
        }
      case AckStep(ack, tick) =>
        if Touches(s.w, step, ack.rolloutID) { TouchingStepKeepsWorldInv(setup, s, step, ack.rolloutID); }
      case VisitStep(id, tick) =>
        if Touches(s.w, step, id) { TouchingStepKeepsWorldInv(setup, s, step, id); }
    }
  }

  /** Each rollout moves by its own machine, and by nothing else. */
  lemma {:induction false} StepOnOneRollout(setup: Setup, s: Sys, step: Step, id: string)
    requires AllIndexed(s.w) && Enabled(setup, s, step) && id in s.w.cases
    ensures id in Apply(setup, s.w, step).cases
    ensures Apply(setup, s.w, step).cases[id] == Next(setup.h, s.w.cases[id], EventOf(s.w, step, id))
  {
    hide Progress, CheckInput, RegistryStep;
  }

  lemma {:induction false} NextStartsInTime(h: Hash, c: Case, e: Event, clock: Time)
    requires Indexed(c) && c.r.stageStartedAt <= clock
    requires e.Visit? ==> clock <= e.tick.clock.decide && Runs(e.tick.clock)
    requires e.AckVisit? ==> clock <= e.tick.clock.decide && Runs(e.tick.clock)
    ensures Next(h, c, e).r.stageStartedAt <= if e.Idle? then clock else e.tick.clock.build
  {
    hide Cohort, RoundStatus, Round, CoverageReached, Acknowledged, Consults, Decide, VerificationTargets;
  }

  lemma {:induction false} StepKeepsStarted(setup: Setup, s: Sys, step: Step)
    requires AllIndexed(s.w) && Started(s) && Enabled(setup, s, step)
    ensures Started(Advance(setup, s, step))
  {
    hide Next, CheckInput, Creatable;
    var s' := Advance(setup, s, step);
    forall id | id in s'.w.cases ensures s'.w.cases[id].r.stageStartedAt <= s'.clock {
      if id in s.w.cases {
        StepOnOneRollout(setup, s, step, id);
        NextStartsInTime(setup.h, s.w.cases[id], EventOf(s.w, step, id), FirstReading(step, s.clock));
      }
    }
  }

  lemma {:induction false} StepKeepsSysInv(setup: Setup, s: Sys, step: Step)
    requires SysInv(setup.h, s) && AllIndexed(s.w) && Enabled(setup, s, step)
    ensures SysInv(setup.h, Advance(setup, s, step)) && AllIndexed(Advance(setup, s, step).w)
  {
    hide Started, Apply, AgentsKnown, ActiveAgrees, RegistryLinks, PointersHeld, RevisionsUnique, R.RegistryInv, Files;
    hide Enabled;
    StepKeepsWorldInv(setup, s, step);
    StepKeepsStarted(setup, s, step);
    FilesAreIndexed(setup.h, Apply(setup, s.w, step));
  }

  // ----- Runs -----

  /** `run[0]` is a fresh control plane, and each state follows from the one before by an enabled step. */
  ghost predicate IsRun(setup: Setup, run: seq<Sys>, steps: seq<Step>) {
    && |run| == |steps| + 1
    && run[0] == START.(clock := run[0].clock)
    && forall i :: 0 <= i < |steps| ==>
         AllIndexed(run[i].w) && Enabled(setup, run[i], steps[i]) && run[i + 1] == Advance(setup, run[i], steps[i])
  }

  lemma {:induction false} StepInRun(setup: Setup, run: seq<Sys>, steps: seq<Step>, n: nat)
    requires IsRun(setup, run, steps) && n < |steps|
    ensures |run| == |steps| + 1 && AllIndexed(run[n].w)
    ensures Enabled(setup, run[n], steps[n]) && run[n + 1] == Advance(setup, run[n], steps[n])
  {
  }

  /** Every reachable state satisfies the system invariant. */
  lemma {:induction false} ReachableStatesAreSound(setup: Setup, run: seq<Sys>, steps: seq<Step>, i: nat)
    requires IsRun(setup, run, steps) && i < |run|
    ensures SysInv(setup.h, run[i]) && AllIndexed(run[i].w)
  {
    hide SysInv, Enabled, Advance;
    if i == 0 {
      StartKeepsInv(setup.h, run[0].clock);
    } else {
      ReachableStatesAreSound(setup, run, steps, i - 1);
      assert run[i - 1 + 1] == Advance(setup, run[i - 1], steps[i - 1]);
      StepKeepsSysInv(setup, run[i - 1], steps[i - 1]);
    }
  }

  lemma {:induction false} CaseIsSound(h: Hash, s: Sys, id: string)
    requires SysInv(h, s) && id in s.w.cases
    ensures Inv(h, s.w.cases[id]) && s.w.cases[id].r.id == id
  {
  }

  lemma {:induction false} StepExtends(setup: Setup, s: Sys, step: Step, id: string)
    requires SysInv(setup.h, s) && AllIndexed(s.w) && Enabled(setup, s, step) && id in s.w.cases
    ensures id in Advance(setup, s, step).w.cases
    ensures Inv(setup.h, s.w.cases[id]) && Inv(setup.h, Advance(setup, s, step).w.cases[id])
    ensures Extends(s.w.cases[id], Advance(setup, s, step).w.cases[id])
  {
    hide Inv, Extends, Next, Apply, Enabled, ActiveAgrees, RegistryLinks, PointersHeld, RevisionsUnique, R.RegistryInv;
    hide Admissible;
    CaseIsSound(setup.h, s, id);
    StepOnOneRollout(setup, s, step, id);
    StepIsAdmissible(setup, s, step, id);
    StepKeepsInv(setup.h, s.w.cases[id], EventOf(s.w, step, id));
  }

  /** Between any two moments of a run a rollout's file is only extended. */
  lemma {:induction false} RunExtends(setup: Setup, run: seq<Sys>, steps: seq<Step>, i: nat, j: nat, id: string)
    requires IsRun(setup, run, steps) && i <= j < |run| && id in run[i].w.cases
    ensures id in run[j].w.cases
    ensures Inv(setup.h, run[i].w.cases[id]) && Inv(setup.h, run[j].w.cases[id])
    ensures Extends(run[i].w.cases[id], run[j].w.cases[id])
    decreases j
  {
    hide SysInv, Enabled, Advance, Extends, Inv, AllIndexed;
    ReachableStatesAreSound(setup, run, steps, j);
    ReachableStatesAreSound(setup, run, steps, i);
    CaseIsSound(setup.h, run[i], id);
    if i == j {
      ExtendsItself(setup.h, run[i].w.cases[id]);
    } else {
      RunExtends(setup, run, steps, i, j - 1, id);
      ReachableStatesAreSound(setup, run, steps, j - 1);
      assert run[j - 1 + 1] == Advance(setup, run[j - 1], steps[j - 1]);
      StepExtends(setup, run[j - 1], steps[j - 1], id);
      ExtendsChain(setup.h, run[i].w.cases[id], run[j - 1].w.cases[id], run[j].w.cases[id]);
    }
  }
}
