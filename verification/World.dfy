/** The control plane's whole state, and what each locked operation does to it. */
module World {
  import opened Text
  import opened Wrappers
  import opened Lifecycle
  import opened Guardrails
  import opened Cohorts
  import opened RolloutCase
  import ConfigRegistry

  type Registry = ConfigRegistry.Registry

  datatype World = World(
    cases: map<string, Case>, active: map<string, string>, nextRevision: int, registry: Registry, agents: seq<Agent>)

  predicate AllIndexed(w: World) {
    forall id :: id in w.cases ==> Indexed(w.cases[id])
  }

  /** rolloutActiveKey, which is also the registry's state key. */
  function ActiveKey(configDefinitionID: string, environment: string): string {
    Join(configDefinitionID, environment)
  }

  function KeyOf(r: Rollout): string {
    ActiveKey(r.configDefinitionID, r.environment)
  }

  datatype ServiceError =
    | InvalidInput | NotFound | AlreadyExists | Conflict
    | BadRule(rule: RuleError) | RegistryFailed(cause: ConfigRegistry.RegistryError)

  datatype RolloutInput = RolloutInput(
    tenantID: string, key: string, environment: string, candidateVersionNumber: int, targetServices: seq<string>,
    stages: seq<Stage>, guardrails: seq<Rule>, requiredAckPercentage: real, deploymentTimeout: int,
    rolloutMaxDuration: int, rollbackTimeout: int)

  function RequestedPlan(input: RolloutInput, defaultPlan: seq<Stage>): seq<Stage> {
    if input.stages == [] then defaultPlan else input.stages
  }

  /** The first guardrail the service refuses, if any. */
  function RuleProblem(rules: seq<Rule>): Option<ServiceError> {
    if rules == [] then None
    else if RuleProblem(rules[..|rules| - 1]).Some? then RuleProblem(rules[..|rules| - 1])
    else
      var last := rules[|rules| - 1];
      match ValidateRule(last)
      case Err(e) => Some(BadRule(e))
      case Ok(_) => if last.query == "" then Some(InvalidInput) else None
  }

  /** What CreateRollout reads from the registry before it writes anything. */
  datatype Grounds = Grounds(definitionID: string, stableVersionID: string, candidate: ConfigRegistry.Version)

  function FindGrounds(s: Registry, input: RolloutInput): Result<Grounds, ServiceError> {
    match ConfigRegistry.FindDefinition(s, input.tenantID, input.key)
    case Err(e) => Err(RegistryFailed(e))
    case Ok(d) =>
      match ConfigRegistry.FindVersions(s, d.id)
      case Err(e) => Err(RegistryFailed(e))
      case Ok(versions) =>
        var i := ConfigRegistry.IndexByNumber(versions, input.candidateVersionNumber);
        if i == |versions| then Err(NotFound)
        else match ConfigRegistry.FindState(s, d.id, input.environment)
        case Err(e) => Err(RegistryFailed(e))
        case Ok(state) =>
          if state.stableVersionID == "" then Err(InvalidInput)
          else if state.stableVersionID == versions[i].id then Err(Conflict)
          else Ok(Grounds(d.id, state.stableVersionID, versions[i]))
  }

  function CheckInput(s: Registry, input: RolloutInput, defaultPlan: seq<Stage>): Result<Grounds, ServiceError> {
    if input.tenantID == "" || input.key == "" then Err(InvalidInput)
    else if !ConfigRegistry.ValidEnvironment(input.environment) then Err(InvalidInput)
    else if input.candidateVersionNumber < 1 then Err(InvalidInput)
    else if !ValidPlan(RequestedPlan(input, defaultPlan)) then Err(InvalidInput)
    else match RuleProblem(input.guardrails)
    case Some(e) => Err(e)
    case None => FindGrounds(s, input)
  }

  function NewRecord(input: RolloutInput, g: Grounds, id: string, firstStageID: string, now: Time): Rollout {
    Rollout(id, g.definitionID, input.tenantID, input.key, input.environment, input.targetServices,
            g.stableVersionID, g.candidate.id, g.candidate.versionNumber, Deploying, firstStageID, 0,
            if input.requiredAckPercentage == 0.0 then 95.0 else input.requiredAckPercentage,
            input.guardrails, map[], now,
            if input.deploymentTimeout == 0 then 90_000_000_000 else input.deploymentTimeout,
            if input.rolloutMaxDuration == 0 then 900_000_000_000 else input.rolloutMaxDuration,
            if input.rollbackTimeout == 0 then 120_000_000_000 else input.rollbackTimeout,
            NoRollback, now, now)
  }

  function NewCase(h: Hash, r: Rollout, stages: seq<Stage>, agents: seq<Agent>, revision: int, at: Time): Case
    requires |stages| > 0
  {
    var first := Cohort(h, r, stages[0], FilterAgents(agents, r.environment, r.targetServices), revision, at);
    Case(r, stages, [first] + seq(|stages| - 1, _ => []))
  }

  function CreateRollout(h: Hash, w: World, input: RolloutInput, defaultPlan: seq<Stage>, id: string, clock: Clock)
    : Result<World, ServiceError>
  {
    match CheckInput(w.registry, input, defaultPlan)
    case Err(e) => Err(e)
    case Ok(g) =>
      var stages := RequestedPlan(input, defaultPlan);
      var r := NewRecord(input, g, id, stages[0].id, clock.save);
      if id in w.cases then Err(AlreadyExists)
      else if KeyOf(r) in w.active && w.active[KeyOf(r)] in w.cases && !Terminal(w.cases[w.active[KeyOf(r)]].r.state)
      then Err(Conflict)
      else Ok(w.(cases := w.cases[id := NewCase(h, r, stages, w.agents, w.nextRevision, clock.build)],
                 active := w.active[KeyOf(r) := id], nextRevision := w.nextRevision + 1))
  }

  function Completion(s: Registry, r: Rollout, now: Time)
    : Result<(Registry, ConfigRegistry.EnvironmentState), ConfigRegistry.RegistryError>
  {
    ConfigRegistry.SetStable(s, r.tenantID, r.configKey, r.environment, r.candidateVersion, now)
  }

  /** Persist the effect of one visit to rollout `id`. */
  function Settle(w: World, id: string, e: Effect, now: Time): World {
    var key := KeyOf(e.next.r);
    w.(cases := w.cases[id := e.next],
       active := if Terminal(e.next.r.state) then w.active - {key} else w.active[key := id],
       nextRevision := if e.activated then w.nextRevision + 1 else w.nextRevision,
       registry := if e.completed && Completion(w.registry, e.next.r, now).Ok?
                   then Completion(w.registry, e.next.r, now).value.0 else w.registry)
  }

  /** The reconciler's work on one active rollout. */
  function VisitRollout(h: Hash, w: World, id: string, t: Tick): World
    requires id in w.cases && Indexed(w.cases[id])
  {
    if Terminal(w.cases[id].r.state) then w
    else Settle(w, id, NextEffect(h, w.cases[id], Visit(w.agents, w.nextRevision, t)), t.clock.save)
  }

  datatype AckReport = AckReport(counted: bool, coverage: Coverage, decision: StageDecision, rollout: Rollout)

  function Acknowledge(h: Hash, w: World, ack: Ack, t: Tick): Result<(World, AckReport), ServiceError>
    requires ack.rolloutID in w.cases ==> Indexed(w.cases[ack.rolloutID])
  {
    if ack.rolloutID !in w.cases then Err(NotFound)
    else if Terminal(w.cases[ack.rolloutID].r.state) then Err(Conflict)
    else
      var c := w.cases[ack.rolloutID];
      var e := NextEffect(h, c, AckVisit(ack, w.agents, w.nextRevision, t));
      Ok((Settle(w, ack.rolloutID, e, t.clock.save),
          AckReport(Counts(Current(c), ack), CoverageOf(Acknowledged(Current(c), ack)), e.decision, e.next.r)))
  }
}
