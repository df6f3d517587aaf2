/**
 * What a created rollout has to do with the request for it, which requests are accepted, and what stays of it in a run.
 */
module Creation {
  import opened Wrappers
  import opened Lifecycle
  import opened Guardrails
  import opened Cohorts
  import opened RolloutCase
  import opened CaseInvariant
  import opened CaseSteps
  import opened World
  import opened SystemInvariant
  import opened SystemSteps
  import opened SystemRuns
  import R = ConfigRegistry

  const DEFAULT_ACK_PERCENT: real := 95.0
  const NINETY_SECONDS: int := 90_000_000_000
  const FIFTEEN_MINUTES: int := 900_000_000_000
  const TWO_MINUTES: int := 120_000_000_000

  /** The record carries what the request asks for, with the defaults for what it leaves at zero. */
  predicate AsAsked(input: RolloutInput, r: Rollout) {
    && r.tenantID == input.tenantID && r.configKey == input.key && r.environment == input.environment
    && r.targetServices == input.targetServices && r.guardrails == input.guardrails
    && r.candidateVersion == input.candidateVersionNumber
    && (input.requiredAckPercentage != 0.0 ==> r.requiredAckPercent == input.requiredAckPercentage)
    && (input.requiredAckPercentage == 0.0 ==> r.requiredAckPercent == DEFAULT_ACK_PERCENT)
    && (input.deploymentTimeout != 0 ==> r.deploymentTimeout == input.deploymentTimeout)
    && (input.deploymentTimeout == 0 ==> r.deploymentTimeout == NINETY_SECONDS)
    && (input.rolloutMaxDuration != 0 ==> r.rolloutMaxDuration == input.rolloutMaxDuration)
    && (input.rolloutMaxDuration == 0 ==> r.rolloutMaxDuration == FIFTEEN_MINUTES)
    && (input.rollbackTimeout != 0 ==> r.rollbackTimeout == input.rollbackTimeout)
    && (input.rollbackTimeout == 0 ==> r.rollbackTimeout == TWO_MINUTES)
  }

  /**
   * The candidate is the version asked for, and the stable version is the one set for the environment, another one.
   */
  predicate AsFound(s: Registry, input: RolloutInput, r: Rollout) {
    && R.FindDefinition(s, input.tenantID, input.key).Ok?
    && r.configDefinitionID == R.FindDefinition(s, input.tenantID, input.key).value.id
    && (exists v :: v in R.VersionsOf(s, r.configDefinitionID)
          && v.versionNumber == input.candidateVersionNumber && v.id == r.candidateVersionID)
    && Pointer(s, ActiveKey(r.configDefinitionID, input.environment)) == r.stableVersionID
    && r.stableVersionID != "" && r.stableVersionID != r.candidateVersionID
  }

  /** The record is at the start of the plan, with every clock at `at` and nothing counted yet. */
  predicate AtTheStart(r: Rollout, id: string, plan: seq<Stage>, at: Time) {
    && r.id == id && r.state == Deploying && r.rollbackStatus == NoRollback && r.guardrailFailures == map[]
    && r.currentStageIndex == 0 && |plan| > 0 && r.currentStageID == plan[0].id
    && r.createdAt == at && r.stageStartedAt == at && r.updatedAt == at
  }

  /** The stages the request names, or the default ones if it names none. */
  predicate PlanFor(input: RolloutInput, defaultPlan: seq<Stage>, plan: seq<Stage>) {
    (input.stages != [] ==> plan == input.stages) && (input.stages == [] ==> plan == defaultPlan)
  }

  /** A creation that succeeds adds one file, which is what the request asks for. */
  lemma {:induction false} CreatedAsAsked(
      h: Hash, w: World, input: RolloutInput, defaultPlan: seq<Stage>, id: string, clock: Clock)
    requires CreateRollout(h, w, input, defaultPlan, id, clock).Ok?
    ensures var w' := CreateRollout(h, w, input, defaultPlan, id, clock).value;
      && id !in w.cases && w'.cases.Keys == w.cases.Keys + {id}
      && AsAsked(input, w'.cases[id].r) && AsFound(w.registry, input, w'.cases[id].r)
      && AtTheStart(w'.cases[id].r, id, w'.cases[id].stages, clock.save)
      && PlanFor(input, defaultPlan, w'.cases[id].stages)
  {
    hide RuleProblem, Cohort, R.FindDefinition;
    var d := R.FindDefinition(w.registry, input.tenantID, input.key).value;
    var versions := R.VersionsOf(w.registry, d.id);
    var i := R.IndexByNumber(versions, input.candidateVersionNumber);
    assert versions[i] in versions;
  }

  // ----- Which requests are accepted -----

  /** With no stages and no maximum duration asked for, the plan for 5, 25 and 100 percent has time to complete. */
  lemma {:induction false} DefaultsLeaveTime(
      h: Hash, w: World, input: RolloutInput, id: string, clock: Clock)
    requires CreateRollout(h, w, input, DefaultStagePlan(), id, clock).Ok?
    requires input.stages == [] && input.rolloutMaxDuration == 0
    ensures var c := CreateRollout(h, w, input, DefaultStagePlan(), id, clock).value.cases[id];
      && |c.stages| == 3 && c.stages[0].percentage == 5 && c.stages[1].percentage == 25 && c.stages[2].percentage == 100
      && MinimumSum(c.stages, |c.stages|) < c.r.rolloutMaxDuration
  {
    hide CreateRollout, AsFound;
    CreatedAsAsked(h, w, input, DefaultStagePlan(), id, clock);
    var plan := DefaultStagePlan();
    assert MinimumSum(plan, 1) == plan[0].minimumDuration;
    assert MinimumSum(plan, 2) == MinimumSum(plan, 1) + plan[1].minimumDuration;
  }

  predicate RuleAsksWell(rule: Rule) {
    rule.name != "" && !rule.operator.Unsupported? && rule.consecutiveFailures >= 0 && rule.query != ""
  }

  lemma {:induction false} NoProblemIff(rules: seq<Rule>)
    ensures RuleProblem(rules).None? <==> forall i :: 0 <= i < |rules| ==> RuleAsksWell(rules[i])
  {
    if rules != [] {
      NoProblemIff(rules[..|rules| - 1]);
      assert forall i :: 0 <= i < |rules| - 1 ==> rules[..|rules| - 1][i] == rules[i];
    }
  }

  /** The registry has what the request is about: a configuration, that version of it, and another stable version. */
  predicate Groundable(s: Registry, input: RolloutInput) {
    R.FindDefinition(s, input.tenantID, input.key).Ok?
    && var id := R.FindDefinition(s, input.tenantID, input.key).value.id;
       && id in s.definitions
       && Pointer(s, ActiveKey(id, input.environment)) != ""
       && exists i :: 0 <= i < |R.VersionsOf(s, id)|
            && R.VersionsOf(s, id)[i].versionNumber == input.candidateVersionNumber
            && R.VersionsOf(s, id)[i].id != Pointer(s, ActiveKey(id, input.environment))
            && forall j :: 0 <= j < i ==> R.VersionsOf(s, id)[j].versionNumber != input.candidateVersionNumber
  }

  lemma {:induction false} GroundsIff(s: Registry, input: RolloutInput)
    ensures FindGrounds(s, input).Ok? <==> Groundable(s, input)
  {
    hide R.FindDefinition;
    if R.FindDefinition(s, input.tenantID, input.key).Ok? {
      var versions := R.VersionsOf(s, R.FindDefinition(s, input.tenantID, input.key).value.id);
      var i := R.IndexByNumber(versions, input.candidateVersionNumber);
      if Groundable(s, input) {
        var k :| 0 <= k < |versions| && versions[k].versionNumber == input.candidateVersionNumber
          && forall j :: 0 <= j < k ==> versions[j].versionNumber != input.candidateVersionNumber;
        assert k == i;
      }
    }
  }

  /** A request is accepted exactly when it is well formed, the registry can ground it, and its id and key are free. */
  lemma {:induction false} AcceptedIff(
      h: Hash, w: World, input: RolloutInput, defaultPlan: seq<Stage>, id: string, clock: Clock)
    ensures CreateRollout(h, w, input, defaultPlan, id, clock).Ok? <==>
      && input.tenantID != "" && input.key != "" && input.candidateVersionNumber >= 1
      && input.environment in {"development", "staging", "production"}
      && ValidPlan(if input.stages == [] then defaultPlan else input.stages)
      && (forall i :: 0 <= i < |input.guardrails| ==> RuleAsksWell(input.guardrails[i]))
      && Groundable(w.registry, input) && id !in w.cases
      && !Busy(w, ActiveKey(R.FindDefinition(w.registry, input.tenantID, input.key).value.id, input.environment))
  {
    hide ValidPlan, RuleProblem, FindGrounds, Groundable, RuleAsksWell, R.FindDefinition;
    NoProblemIff(input.guardrails);
    GroundsIff(w.registry, input);
    GroundsDefinition(w.registry, input);
  }

  /** A rollout that has not ended holds the key. */
  predicate Busy(w: World, key: string) {
    key in w.active && w.active[key] in w.cases && !Terminal(w.cases[w.active[key]].r.state)
  }

  lemma {:induction false} GroundsDefinition(s: Registry, input: RolloutInput)
    ensures FindGrounds(s, input).Ok? ==>
      R.FindDefinition(s, input.tenantID, input.key).Ok?
      && FindGrounds(s, input).value.definitionID == R.FindDefinition(s, input.tenantID, input.key).value.id
    ensures Groundable(s, input) ==> R.FindDefinition(s, input.tenantID, input.key).Ok?
  {
    hide R.FindDefinition;
  }

  // ----- Over runs -----

  /** Step `m` is the creation of rollout `id`, and `r` is still what it asked for. */
  predicate MadeBy(setup: Setup, w: World, step: Step, id: string, r: Rollout) {
    step.CreateStep? && step.id == id && AsAsked(step.input, r) && AsFound(w.registry, step.input, r)
    && r.id == id && r.createdAt == step.clock.save
  }

  lemma {:induction false} SameIdentityStaysMade(
      setup: Setup, w: World, step: Step, id: string, r: Rollout, r': Rollout)
    requires MadeBy(setup, w, step, id, r) && SameIdentity(r, r')
    ensures MadeBy(setup, w, step, id, r')
  {
  }

  lemma {:induction false} OnlyCreationsAdd(setup: Setup, s: Sys, step: Step, id: string)
    requires AllIndexed(s.w) && id !in s.w.cases && id in Apply(setup, s.w, step).cases
    ensures step.CreateStep? && step.id == id
    ensures CreateRollout(setup.h, s.w, step.input, setup.plan, id, step.clock).Ok?
    ensures Apply(setup, s.w, step) == CreateRollout(setup.h, s.w, step.input, setup.plan, id, step.clock).value
  {
    hide NextEffect, CheckInput, NewCase;
  }

  /**
   * In every run each rollout was created by an earlier request, and at every later moment is what that request asked
   * for.
   */
  lemma {:induction false} RolloutsAreAsAsked(setup: Setup, run: seq<Sys>, steps: seq<Step>, n: nat, id: string)
    requires IsRun(setup, run, steps) && n < |run| == |steps| + 1 && id in run[n].w.cases
    ensures exists m :: 0 <= m < n && MadeBy(setup, run[m].w, steps[m], id, run[n].w.cases[id].r)
    decreases n
  {
    hide Apply, Enabled, AllIndexed, MadeBy, Inv, SameIdentity, CreateRollout;
    assert n > 0;
    StepInRun(setup, run, steps, n - 1);
    if id in run[n - 1].w.cases {
      RolloutsAreAsAsked(setup, run, steps, n - 1, id);
      var m :| 0 <= m < n - 1 && MadeBy(setup, run[m].w, steps[m], id, run[n - 1].w.cases[id].r);
      RunExtends(setup, run, steps, n - 1, n, id);
      SameIdentityStaysMade(setup, run[m].w, steps[m], id, run[n - 1].w.cases[id].r, run[n].w.cases[id].r);
      assert m < n;
    } else {
      OnlyCreationsAdd(setup, run[n - 1], steps[n - 1], id);
      MadeAsAsked(setup, run[n - 1].w, steps[n - 1], id);
    }
  }

  lemma {:induction false} MadeAsAsked(setup: Setup, w: World, step: Step, id: string)
    requires step.CreateStep? && step.id == id
    requires CreateRollout(setup.h, w, step.input, setup.plan, id, step.clock).Ok?
    ensures var w' := CreateRollout(setup.h, w, step.input, setup.plan, id, step.clock).value;
      id in w'.cases && MadeBy(setup, w, step, id, w'.cases[id].r)
  {
    hide CreateRollout, AsAsked, AsFound;
    CreatedAsAsked(setup.h, w, step.input, setup.plan, id, step.clock);
  }
}
