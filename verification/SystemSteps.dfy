/** The remaining operations keep the system invariant: creating rollouts, registering agents, writing the registry. */
module SystemSteps {
  import opened Text
  import opened Lifecycle
  import opened Guardrails
  import opened Cohorts
  import opened RolloutCase
  import opened CaseInvariant
  import opened CaseSteps
  import opened World
  import opened SystemInvariant
  import R = ConfigRegistry

  // ----- Creating a rollout -----

  lemma {:induction false} NoProblemMeansValid(rules: seq<Rule>)
    ensures RuleProblem(rules).None? <==> ValidRules(rules)
  {
    if rules != [] {
      var front, last := rules[..|rules| - 1], rules[|rules| - 1];
      NoProblemMeansValid(front);
      assert rules == front + [last];
    }
  }

  /** What the service assumes of a generated id: there, printable, and not spelled into the plan. */
  predicate ProperID(id: string, plan: seq<Stage>) {
    && id != "" && NulFree(id)
    && forall i :: 0 <= i < |plan| ==> plan[i].id != VerificationID(id)
  }

  lemma {:induction false} NewCaseIsShaped(
      h: Hash, r: Rollout, plan: seq<Stage>, agents: seq<Agent>, revision: int, at: Time)
    requires ValidPlan(plan) && DistinctStages(plan)
    requires forall i :: 0 <= i < |plan| ==> plan[i].id != VerificationID(r.id)
    requires r.currentStageID == plan[0].id && r.currentStageIndex == 0 && r.state == Deploying
    requires r.rollbackStatus == NoRollback
    requires r.stableVersionID != r.candidateVersionID && ValidRules(r.guardrails) && r.guardrailFailures == map[]
    ensures Shaped(NewCase(h, r, plan, agents, revision, at))
  {
    var c := NewCase(h, r, plan, agents, revision, at);
    assert Plan(c) == plan;
  }

  lemma {:induction false} NewCaseKeepsInv(
      h: Hash, r: Rollout, plan: seq<Stage>, agents: seq<Agent>, revision: int, at: Time)
    requires ValidPlan(plan) && Shaped(NewCase(h, r, plan, agents, revision, at)) && DistinctAgents(agents)
    requires r.currentStageID == plan[0].id && r.currentStageIndex == 0 && r.state == Deploying
    requires r.rollbackStatus == NoRollback
    requires ValidRules(r.guardrails) && r.guardrailFailures == map[] && r.stageStartedAt == r.createdAt
    ensures Inv(h, NewCase(h, r, plan, agents, revision, at))
  {
    var c := NewCase(h, r, plan, agents, revision, at);
    assert !Verifying(c);
    FilterKeepsDistinct(agents, r.environment, r.targetServices);
    NewCohortIsCandidate(h, r, plan[0], FilterAgents(agents, r.environment, r.targetServices), revision, at);
    assert Nested(c) by {
      assert forall k :: 0 <= k < |c.cohorts[0]| ==> c.cohorts[0][k] in c.cohorts[0];
    }
  }

  lemma {:induction false} NewCaseIsRegistered(
      h: Hash, r: Rollout, plan: seq<Stage>, agents: seq<Agent>, revision: int, at: Time)
    requires |plan| > 0
    ensures var c := NewCase(h, r, plan, agents, revision, at);
      |c.cohorts| == |plan| && Registered(c, agents)
      && (forall i :: 0 < i < |plan| ==> c.cohorts[i] == [])
      && forall k :: 0 <= k < |c.cohorts[0]| ==> c.cohorts[0][k].snapshotRevision == revision
  {
    var c := NewCase(h, r, plan, agents, revision, at);
    var scope := FilterAgents(agents, r.environment, r.targetServices);
    forall k | 0 <= k < |c.cohorts[0]|
      ensures c.cohorts[0][k].snapshotRevision == revision && Listed(scope, c.cohorts[0][k].agentID)
    {
      CohortStamps(h, r, plan[0], scope, revision, at, k);
      CohortMembers(h, r, plan[0], scope, revision, at, c.cohorts[0][k].agentID);
      assert c.cohorts[0][k] in c.cohorts[0];
    }
  }

  lemma {:induction false} CandidateIsNumbered(id: string, versions: seq<R.Version>, number: int)
    requires R.Numbered(id, versions) && R.IndexByNumber(versions, number) < |versions|
    ensures 1 <= number <= |versions| && R.IndexByNumber(versions, number) == number - 1
  {
    var i := R.IndexByNumber(versions, number);
    assert versions[i].versionNumber == i + 1;
  }

  predicate Grounded(s: Registry, input: RolloutInput, g: Grounds) {
    && g.definitionID in s.definitions && R.FindDefinition(s, input.tenantID, input.key).Ok?
    && R.FindDefinition(s, input.tenantID, input.key).value.id == g.definitionID
    && 1 <= g.candidate.versionNumber <= |R.VersionsOf(s, g.definitionID)|
    && R.VersionsOf(s, g.definitionID)[g.candidate.versionNumber - 1] == g.candidate
    && Pointer(s, ActiveKey(g.definitionID, input.environment)) == g.stableVersionID
    && R.NamesVersion(R.VersionsOf(s, g.definitionID), g.stableVersionID)
    && g.stableVersionID != g.candidate.id
  }

  lemma {:induction false} StableExists(s: Registry, id: string, environment: string)
    requires R.PointersExist(s) && R.FindState(s, id, environment).Ok? && R.ValidEnvironment(environment)
    ensures R.NamesVersion(R.VersionsOf(s, id), R.FindState(s, id, environment).value.stableVersionID)
  {
    var e := s.states[R.StateKey(id, environment)];
    JoinIsInjectiveOnTheRight(id, environment, e.configDefinitionID, e.environment);
  }

  lemma {:induction false} DefinitionFound(s: Registry, tenantID: string, key: string)
    requires R.KeysAgree(s) && R.FindDefinition(s, tenantID, key).Ok?
    ensures R.FindDefinition(s, tenantID, key).value.id in s.definitions
  {
  }

  lemma {:induction false} VersionsAreNumbered(s: Registry, id: string)
    requires R.VersionsNumbered(s)
    ensures R.Numbered(id, R.VersionsOf(s, id))
  {
  }

  lemma {:induction false} GroundsAreLinked(s: Registry, input: RolloutInput)
    requires R.KeysAgree(s) && R.VersionsNumbered(s) && R.PointersExist(s)
    requires FindGrounds(s, input).Ok? && R.ValidEnvironment(input.environment)
    ensures Grounded(s, input, FindGrounds(s, input).value)
  {
    hide R.KeysAgree, R.PointersExist, R.NamesVersion, R.Numbered;
    var d := R.FindDefinition(s, input.tenantID, input.key).value;
    DefinitionFound(s, input.tenantID, input.key);
    VersionsAreNumbered(s, d.id);
    CandidateIsNumbered(d.id, R.VersionsOf(s, d.id), input.candidateVersionNumber);
    StableExists(s, d.id, input.environment);
  }

  /** What CreateRollout is given: names the service cannot clash on, and a plan whose stages differ by name. */
  predicate Creatable(input: RolloutInput, defaultPlan: seq<Stage>, id: string) {
    var plan := RequestedPlan(input, defaultPlan);
    ProperID(id, plan) && DistinctStages(plan)
  }

  lemma {:induction false} NewRecordIsLinked(
      s: Registry, input: RolloutInput, g: Grounds, id: string, first: string, now: Time)
    requires Grounded(s, input, g) && R.ValidEnvironment(input.environment)
    ensures var r := NewRecord(input, g, id, first, now);
      Linked(s, r) && Pointer(s, KeyOf(r)) == r.stableVersionID && r.stableVersionID != r.candidateVersionID
  {
  }

  /** The file CreateRollout stores. */
  predicate Founded(h: Hash, s: Registry, id: string, c: Case) {
    && Inv(h, c) && c.r.id == id && Delivering(c)
    && Linked(s, c.r) && Pointer(s, KeyOf(c.r)) == c.r.stableVersionID
  }

  lemma {:induction false} CreatedCase(
      h: Hash, w: World, input: RolloutInput, defaultPlan: seq<Stage>, id: string, clock: Clock)
    requires R.KeysAgree(w.registry) && R.VersionsNumbered(w.registry) && R.PointersExist(w.registry)
    requires DistinctAgents(w.agents) && Creatable(input, defaultPlan, id)
    requires CreateRollout(h, w, input, defaultPlan, id, clock).Ok?
    ensures id in CreateRollout(h, w, input, defaultPlan, id, clock).value.cases
    ensures Founded(h, w.registry, id, CreateRollout(h, w, input, defaultPlan, id, clock).value.cases[id])
  {
    var plan := RequestedPlan(input, defaultPlan);
    var g := CheckInput(w.registry, input, defaultPlan).value;
    var r := NewRecord(input, g, id, plan[0].id, clock.save);
    NoProblemMeansValid(input.guardrails);
    GroundsAreLinked(w.registry, input);
    NewRecordIsLinked(w.registry, input, g, id, plan[0].id, clock.save);
    NewCaseIsShaped(h, r, plan, w.agents, w.nextRevision, clock.build);
    NewCaseKeepsInv(h, r, plan, w.agents, w.nextRevision, clock.build);
  }

  lemma {:induction false} AddedFileKeeps(h: Hash, w: World, w': World, id: string)
    requires Files(h, w) && RegistryLinks(w) && PointersHeld(w) && id !in w.cases && id != "" && NulFree(id)
    requires w'.registry == w.registry && w'.cases.Keys == w.cases.Keys + {id}
    requires forall j :: j in w.cases ==> w'.cases[j] == w.cases[j]
    requires Founded(h, w.registry, id, w'.cases[id])
    ensures Files(h, w') && RegistryLinks(w') && PointersHeld(w')
  {
    hide Inv, Linked;
    assert forall j :: j in w'.cases ==> j == id || j in w.cases;
  }

  lemma {:induction false} CreateKeepsAgents(
      h: Hash, w: World, input: RolloutInput, defaultPlan: seq<Stage>, id: string, clock: Clock)
    requires AgentsKnown(w) && CreateRollout(h, w, input, defaultPlan, id, clock).Ok?
    ensures AgentsKnown(CreateRollout(h, w, input, defaultPlan, id, clock).value)
  {
    hide Cohort, NewCase, NewRecord, ActiveKey;
    var plan := RequestedPlan(input, defaultPlan);
    var g := CheckInput(w.registry, input, defaultPlan).value;
    NewCaseIsRegistered(h, NewRecord(input, g, id, plan[0].id, clock.save), plan, w.agents, w.nextRevision,
                        clock.build);
  }

  lemma {:induction false} CreateKeepsRevisions(
      h: Hash, w: World, input: RolloutInput, defaultPlan: seq<Stage>, id: string, clock: Clock)
    requires RevisionsUnique(w) && id !in w.cases && CreateRollout(h, w, input, defaultPlan, id, clock).Ok?
    ensures RevisionsUnique(CreateRollout(h, w, input, defaultPlan, id, clock).value)
  {
    var plan := RequestedPlan(input, defaultPlan);
    var g := CheckInput(w.registry, input, defaultPlan).value;
    var r := NewRecord(input, g, id, plan[0].id, clock.save);
    NewCaseIsRegistered(h, r, plan, w.agents, w.nextRevision, clock.build);
    var w' := CreateRollout(h, w, input, defaultPlan, id, clock).value;
    forall j: string, i: nat, k: nat, n: int | Carries(w', j, i, k, n)
      ensures Carries(w, j, i, k, n) || (j == id && i == 0 && n == w.nextRevision)
    {
    }
  }

  lemma {:induction false} CreateKeepsActive(
      h: Hash, w: World, input: RolloutInput, defaultPlan: seq<Stage>, id: string, clock: Clock)
    requires ActiveAgrees(w) && id !in w.cases && CreateRollout(h, w, input, defaultPlan, id, clock).Ok?
    ensures ActiveAgrees(CreateRollout(h, w, input, defaultPlan, id, clock).value)
  {
    hide Cohort, FilterAgents, ActiveKey, R.FindDefinition;
    hide CheckInput, Linked, Inv;
  }

  lemma {:induction false} CreateAddsOneFile(
      h: Hash, w: World, input: RolloutInput, defaultPlan: seq<Stage>, id: string, clock: Clock)
    requires CreateRollout(h, w, input, defaultPlan, id, clock).Ok?
    ensures var w' := CreateRollout(h, w, input, defaultPlan, id, clock).value;
      && id !in w.cases && w'.cases.Keys == w.cases.Keys + {id}
      && (forall j :: j in w.cases ==> w'.cases[j] == w.cases[j])
      && w'.registry == w.registry && w'.agents == w.agents
  {
    hide CheckInput;
  }

  /** Creating a rollout keeps the system invariant. */
  lemma {:induction false} CreateKeepsWorldInv(
      h: Hash, w: World, input: RolloutInput, defaultPlan: seq<Stage>, id: string, clock: Clock)
    requires WorldInv(h, w) && Creatable(input, defaultPlan, id)
    requires CreateRollout(h, w, input, defaultPlan, id, clock).Ok?
    ensures WorldInv(h, CreateRollout(h, w, input, defaultPlan, id, clock).value)
  {
    hide Inv, Linked, RevisionsUnique, ActiveAgrees, Files, RegistryLinks, PointersHeld, R.NumbersAgree, R.KeysAgree;
    hide R.VersionsNumbered, R.PointersExist, CreateRollout, Founded;
    var w' := CreateRollout(h, w, input, defaultPlan, id, clock).value;
    CreateAddsOneFile(h, w, input, defaultPlan, id, clock);
    CreatedCase(h, w, input, defaultPlan, id, clock);
    AddedFileKeeps(h, w, w', id);
    CreateKeepsAgents(h, w, input, defaultPlan, id, clock);
    CreateKeepsActive(h, w, input, defaultPlan, id, clock);
    CreateKeepsRevisions(h, w, input, defaultPlan, id, clock);
  }

  // ----- Agents -----

  /** Index of the agent with that id, or the length. */
  function PlaceOf(agents: seq<Agent>, id: string): (i: nat)
    ensures i <= |agents|
    ensures forall j :: 0 <= j < i ==> agents[j].id != id
    ensures i < |agents| ==> agents[i].id == id
  {
    if agents == [] then 0
    else if agents[0].id == id then 0
    else 1 + PlaceOf(agents[1..], id)
  }

  /** The agents after `a` registers. */
  function Recorded(agents: seq<Agent>, a: Agent): seq<Agent> {
    var i := PlaceOf(agents, a.id);
    if i < |agents| then agents[i := a] else agents + [a]
  }

  function RegisterAgent(w: World, a: Agent): World {
    w.(agents := Recorded(w.agents, a))
  }

  lemma {:induction false} RecordedHolds(agents: seq<Agent>, a: Agent, b: Agent)
    requires DistinctAgents(agents)
    ensures DistinctAgents(Recorded(agents, a))
    ensures b in Recorded(agents, a) <==> b == a || (b.id != a.id && b in agents)
  {
    var i, after := PlaceOf(agents, a.id), Recorded(agents, a);
    if i < |agents| {
      assert after[i] == a;
    } else {
      assert after[|agents|] == a;
    }
    if b in agents {
      var k :| 0 <= k < |agents| && agents[k] == b;
      assert k != i ==> after[k] == b;
    }
  }

  /** Whoever registers replaces only itself in any scope. */
  lemma {:induction false} ScopeAfter(
      agents: seq<Agent>, a: Agent, environment: string, services: seq<string>, id: string)
    requires DistinctAgents(agents)
    ensures Listed(FilterAgents(Recorded(agents, a), environment, services), id)
      <==> if id == a.id then InScope(a, environment, services)
        else Listed(FilterAgents(agents, environment, services), id)
  {
    var before, after := FilterAgents(agents, environment, services),
      FilterAgents(Recorded(agents, a), environment, services);
    RecordedHolds(agents, a, a);
    if Listed(after, id) {
      var b :| b in after && b.id == id;
      RecordedHolds(agents, a, b);
    }
    if Listed(before, id) {
      var b :| b in before && b.id == id;
      RecordedHolds(agents, a, b);
      assert id != a.id ==> b in after;
    }
    if InScope(a, environment, services) {
      assert a in after;
    }
  }

  /** Wherever a delivering rollout has the agent as a target, its new record is still in that rollout's scope. */
  predicate StaysInReach(w: World, a: Agent) {
    forall id, i, k ::
      id in w.cases && Delivering(w.cases[id]) && 0 <= i < |w.cases[id].cohorts| && 0 <= k < |w.cases[id].cohorts[i]|
      && w.cases[id].cohorts[i][k].agentID == a.id ==>
        InScope(a, w.cases[id].r.environment, w.cases[id].r.targetServices)
  }

  lemma {:induction false} RegisterKeepsAgents(w: World, a: Agent)
    requires AgentsKnown(w)
    ensures AgentsKnown(RegisterAgent(w, a)) <==> a.id != "" && StaysInReach(w, a)
  {
    var w' := RegisterAgent(w, a);
    RecordedHolds(w.agents, a, a);
    NamedAgents(w.agents, a);
    forall id, i, k | id in w.cases && Delivering(w.cases[id]) && 0 <= i < |w.cases[id].cohorts|
        && 0 <= k < |w.cases[id].cohorts[i]|
      ensures var c := w.cases[id];
        Listed(FilterAgents(w'.agents, c.r.environment, c.r.targetServices), c.cohorts[i][k].agentID)
        <==> (c.cohorts[i][k].agentID == a.id ==> InScope(a, c.r.environment, c.r.targetServices))
    {
      var c := w.cases[id];
      ScopeAfter(w.agents, a, c.r.environment, c.r.targetServices, c.cohorts[i][k].agentID);
    }
  }

  lemma {:induction false} NamedAgents(agents: seq<Agent>, a: Agent)
    requires forall i :: 0 <= i < |agents| ==> agents[i].id != ""
    ensures (forall i :: 0 <= i < |Recorded(agents, a)| ==> Recorded(agents, a)[i].id != "") <==> a.id != ""
  {
    var i, after := PlaceOf(agents, a.id), Recorded(agents, a);
    if i == |agents| {
      assert after[|agents|] == a;
    }
  }

  lemma {:induction false} CasesAloneKeepRevisions(w: World, w': World)
    requires RevisionsUnique(w) && w'.cases == w.cases && w'.nextRevision == w.nextRevision
    ensures RevisionsUnique(w')
  {
    forall id: string, i: nat, k: nat, n: int ensures Carries(w', id, i, k, n) == Carries(w, id, i, k, n) {
    }
  }

  lemma {:induction false} CasesAloneKeepStore(h: Hash, w: World, w': World)
    requires Files(h, w) && ActiveAgrees(w) && RevisionsUnique(w)
    requires w'.cases == w.cases && w'.active == w.active && w'.nextRevision == w.nextRevision
    ensures Files(h, w') && ActiveAgrees(w') && RevisionsUnique(w')
  {
    CasesAloneKeepRevisions(w, w');
  }

  lemma {:induction false} RegisterKeepsLinks(w: World, a: Agent)
    requires RegistryLinks(w) && PointersHeld(w)
    ensures RegistryLinks(RegisterAgent(w, a)) && PointersHeld(RegisterAgent(w, a))
  {
  }

  /** Registering keeps the system invariant exactly when no delivering rollout loses a target from its scope. */
  lemma {:induction false} RegisterKeepsWorldInv(h: Hash, w: World, a: Agent)
    requires WorldInv(h, w)
    ensures WorldInv(h, RegisterAgent(w, a)) <==> a.id != "" && StaysInReach(w, a)
  {
    hide Inv, Linked, RevisionsUnique, ActiveAgrees, AgentsKnown, Files, RegistryLinks, PointersHeld, R.RegistryInv;
    CasesAloneKeepStore(h, w, RegisterAgent(w, a));
    RegisterKeepsAgents(w, a);
    RegisterKeepsLinks(w, a);
  }

  // ----- Registry writes -----

  lemma {:induction false} WriteKeepsLinks(w: World, s': Registry)
    requires RegistryLinks(w) && R.KeysAgree(w.registry) && R.Grows(w.registry, s')
    ensures RegistryLinks(w.(registry := s'))
  {
    forall id | id in w.cases ensures Linked(s', w.cases[id].r) {
      LinkedGrows(w.registry, s', w.cases[id].r);
    }
  }

  lemma {:induction false} WriteKeepsPointers(w: World, s': Registry)
    requires PointersHeld(w) && ActiveAgrees(w)
    ensures PointersHeld(w.(registry := s')) <==> forall k :: k in w.active ==> Pointer(s', k) == Pointer(w.registry, k)
  {
    var w' := w.(registry := s');
    if PointersHeld(w') {
      forall k | k in w.active ensures Pointer(s', k) == Pointer(w.registry, k) {
        assert w.active[k] in w'.cases && KeyOf(w'.cases[w.active[k]].r) == k;
      }
    }
  }

  /** A registry write keeps the system invariant exactly when it moves no active rollout's pointer. */
  lemma {:induction false} RegistryWriteKeepsWorldInv(h: Hash, w: World, s': Registry)
    requires WorldInv(h, w) && R.RegistryInv(s') && R.Grows(w.registry, s')
    ensures WorldInv(h, w.(registry := s')) <==> forall k :: k in w.active ==> Pointer(s', k) == Pointer(w.registry, k)
  {
    hide PointersHeld, Inv, Linked, RevisionsUnique, ActiveAgrees, Files, R.Grows, Pointer, R.NumbersAgree, R.KeysAgree;
    hide R.VersionsNumbered, R.PointersExist, RegistryLinks, InReach, DistinctAgents;
    CasesAloneKeepStore(h, w, w.(registry := s'));
    WriteKeepsLinks(w, s');
    WriteKeepsPointers(w, s');
    assert AgentsKnown(w.(registry := s'));
  }
}
