/**
 * internal/rollout/service.go: the locked operations, over the keyed store, the registry and the agent list.
 * Every operation is proved to move the whole state exactly as World.dfy says and to keep the system invariant.
 */
module RolloutService {
  import opened Text
  import opened Wrappers
  import opened Lifecycle
  import opened Guardrails
  import opened Cohorts
  import opened RolloutCase
  import opened CaseInvariant
  import opened CaseSteps
  import opened World
  import W = World
  import opened SystemInvariant
  import opened SystemSteps
  import opened RolloutStore
  import opened RolloutWrites
  import opened Creation
  import ConfigRegistry
  import ConfigStores

  /** The registered agents, as far as rollouts look at them. */
  class AgentDirectory {
    var agents: seq<Agent>

    constructor ()
      ensures agents == []
    {
      agents := [];
    }

    /** SaveAgent: a known agent's record is overwritten. */
    method Register(a: Agent)
      modifies this
      ensures agents == Recorded(old(agents), a)
    {
      for i := 0 to |agents|
        invariant agents == old(agents)
        invariant PlaceOf(agents, a.id) >= i
      {
        if agents[i].id == a.id {
          agents := agents[i := a];
          return;
        }
      }
      agents := agents + [a];
    }

    method Get(agentID: string) returns (found: Option<Agent>)
      ensures found.Some? <==> Listed(agents, agentID)
      ensures found.Some? ==> found.value in agents && found.value.id == agentID
    {
      for i := 0 to |agents|
        invariant forall j :: 0 <= j < i ==> agents[j].id != agentID
      {
        if agents[i].id == agentID {
          return Some(agents[i]);
        }
      }
      found := None;
    }
  }

  /** The world after `r` replaces its stored record. */
  function Saved(w: World, r: Rollout): World
    requires r.id in w.cases
  {
    w.(cases := w.cases[r.id := w.cases[r.id].(r := r)],
       active := if Terminal(r.state) then w.active - {KeyOf(r)} else w.active[KeyOf(r) := r.id])
  }

  /** The world after stage `i` of rollout `id` gets targets and a revision is used up. */
  function Activation(w: World, id: string, i: nat, targets: seq<StageTarget>): World
    requires id in w.cases && i < |w.cases[id].cohorts|
  {
    w.(cases := w.cases[id := w.cases[id].(cohorts := w.cases[id].cohorts[i := w.cases[id].cohorts[i] + targets])],
       nextRevision := w.nextRevision + 1)
  }

  /** The world after targets are appended to stage `i` of rollout `id`. */
  function Extended(w: World, id: string, i: nat, targets: seq<StageTarget>): World
    requires id in w.cases && i < |w.cases[id].cohorts|
  {
    w.(cases := w.cases[id := w.cases[id].(cohorts := w.cases[id].cohorts[i := w.cases[id].cohorts[i] + targets])])
  }

  lemma {:induction false} BumpThenExtend(w: World, id: string, i: nat, targets: seq<StageTarget>)
    requires id in w.cases && i < |w.cases[id].cohorts|
    ensures Extended(w.(nextRevision := w.nextRevision + 1), id, i, targets) == Activation(w, id, i, targets)
  {
  }

  /** The world after the verification stage and its targets are stored. */
  function WithVerification(w: World, r: Rollout, checks: seq<StageTarget>): World
    requires r.id in w.cases
  {
    var c := w.cases[r.id];
    w.(cases := w.cases[r.id := Case(r, c.stages + [Stage(VerificationID(r.id), 100, 0)], c.cohorts + [checks])])
  }

  function VisitAll(h: Hash, w: World, order: seq<string>, ticks: map<string, Tick>): World {
    if order == [] then w
    else
      var before := VisitAll(h, w, order[..|order| - 1], ticks);
      var id := order[|order| - 1];
      if id in before.cases && Indexed(before.cases[id]) && id in ticks then VisitRollout(h, before, id, ticks[id])
      else before
  }

  /** The world after the current stage's targets of rollout `id` are replaced. */
  function WithCurrent(w: World, id: string, targets: seq<StageTarget>): World
    requires id in w.cases && Indexed(w.cases[id])
  {
    w.(cases := w.cases[id := w.cases[id].(cohorts := w.cases[id].cohorts[Position(w.cases[id]) := targets])])
  }

  lemma {:induction false} AckMarksCurrent(c: Case, ack: Ack)
    requires Indexed(c)
    ensures AckCase(c, ack) == c.(cohorts := c.cohorts[Position(c) := Acknowledged(Current(c), ack)])
    ensures Indexed(AckCase(c, ack)) && AckCase(c, ack).r == c.r
    ensures Current(AckCase(c, ack)) == Acknowledged(Current(c), ack)
  {
    hide Acknowledged;
  }

  lemma {:induction false} BumpKeepsStages(db: Db)
    ensures Bumped(db).stages == db.stages && Bumped(db).rollouts == db.rollouts
  {
  }

  /** The verification stage stored, before it has targets. */
  function Staged(db: Db, id: string): Db {
    if id in db.stages then WithStage(db, id, Stage(VerificationID(id), 100, 0)) else db
  }

  lemma {:induction false} UpdateKeepsStages(db: Db, r: Rollout)
    ensures var db' := Updated(db, r);
      db'.stages == db.stages && db'.nextRevision == db.nextRevision && db'.rollouts.Keys == db.rollouts.Keys + {r.id}
  {
  }

  lemma {:induction false} SettleReplacesOneFile(w: World, id: string, e: Effect, now: Time)
    ensures Settle(w, id, e, now).cases == w.cases[id := e.next]
  {
  }

  lemma {:induction false} PromotedRecordKeepsID(c: Case, at: Time)
    requires Indexed(c) && c.r.currentStageIndex < |c.stages| - 1
    ensures PromotedRecord(c, at).id == c.r.id
  {
  }

  /** The writes of a promotion, as the log shows them. */
  lemma {:induction false} PromotionWrote(before: Trail, after: Trail, r: Rollout, c: Case, n: Case)
    requires StoreInv(before.now) && Keyed(after.now) && r.id in before.now.rollouts && FilesOf(before.now)[r.id] == c
    requires after.log == before.log + [Updated(before.now, r), Bumped(Updated(before.now, r)), after.now]
    requires FilesOf(after.now) == FilesOf(before.now)[r.id := n]
    ensures Wrote(before, after, r.id, [c.(r := r), c.(r := r), n])
  {
    hide NoOrphans, FileOf, FilesOf, DistinctStages, NulFree, Wrote, Updated;
    UpdateView(before.now, r);
    RevisionView(Updated(before.now, r), Updated(before.now, r).nextRevision + 1);
    WroteThree(before, Updated(before.now, r), Bumped(Updated(before.now, r)), after.now, r.id, c.(r := r), c.(r := r),
               n);
  }

  /** The writes of a creation. */
  lemma {:induction false} CreationWrote(
      before: Trail, after: Trail, r: Rollout, plan: seq<Stage>, targets: seq<StageTarget>)
    requires StoreInv(before.now) && Keyed(after.now) && r.id !in before.now.rollouts && NulFree(r.id)
    requires DistinctStages(plan) && |plan| > 0
    requires after.log == before.log + [Inserted(before.now, r, plan), Bumped(Inserted(before.now, r, plan)), after.now]
    requires FilesOf(after.now) == FilesOf(before.now)[r.id := Case(r, plan, seq(|plan|, _ => [])[0 := targets])]
    ensures Wrote(before, after, r.id, CreationWrites(FilesOf(after.now)[r.id]))
  {
    hide NoOrphans, FileOf, FilesOf, DistinctStages, NulFree, Wrote, Inserted;
    var opening: Case := Case(r, plan, seq(|plan|, _ => []));
    InsertView(before.now, r, plan);
    RevisionView(Inserted(before.now, r, plan), Inserted(before.now, r, plan).nextRevision + 1);
    WroteThree(before, Inserted(before.now, r, plan), Bumped(Inserted(before.now, r, plan)), after.now, r.id,
               opening, opening, FilesOf(after.now)[r.id]);
  }

  lemma {:induction false} ActivationReplacesOneFile(w: World, id: string, i: nat, targets: seq<StageTarget>)
    requires id in w.cases && i < |w.cases[id].cohorts| && w.cases[id].cohorts[i] == []
    ensures Activation(w, id, i, targets).cases
      == w.cases[id := w.cases[id].(cohorts := w.cases[id].cohorts[i := targets])]
  {
    assert [] + targets == targets;
  }

  /** The files of a verification that is being staged: its revision, its stage, its targets. */
  function StagedWrites(c: Case, checks: seq<StageTarget>): seq<Case> {
    [c, WithStageOnly(c), Case(c.r, c.stages + [Stage(VerificationID(c.r.id), 100, 0)], c.cohorts + [checks])]
  }

  /** The files of its record, and of its end when there is nobody to check. */
  function BegunWrites(c: Case, checks: seq<StageTarget>, t: Tick): seq<Case> {
    var staged := Case(c.r, c.stages + [Stage(VerificationID(c.r.id), 100, 0)], c.cohorts + [checks]);
    var begun := BegunRecord(c.r, t.clock.decide);
    [staged.(r := begun)]
    + if |checks| > 0 then []
      else [staged.(r := begun.(state := RolledBack, rollbackStatus := Verified, updatedAt := t.clock.save))]
  }

  lemma {:induction false} RollbackWritesSplit(c: Case, revision: int, t: Tick, checks: seq<StageTarget>)
    requires Indexed(c) && !Verifying(c) && checks == VerificationTargets(c.r, Current(c), revision, t.clock.decide)
    ensures RollbackWrites(c, revision, t) == StagedWrites(c, checks) + BegunWrites(c, checks, t)
  {
  }

  lemma {:induction false} VerificationWrote(before: Trail, after: Trail, c: Case, checks: seq<StageTarget>)
    requires StoreInv(before.now) && Keyed(after.now) && c.r.id in before.now.rollouts
    requires FilesOf(before.now)[c.r.id] == c
    requires !HasStage(before.now, c.r.id, VerificationID(c.r.id))
    requires after.log == before.log + [Bumped(before.now), Staged(Bumped(before.now), c.r.id), after.now]
    requires FilesOf(after.now) == FilesOf(before.now)[c.r.id :=
      Case(c.r, c.stages + [Stage(VerificationID(c.r.id), 100, 0)], c.cohorts + [checks])]
    ensures Wrote(before, after, c.r.id, StagedWrites(c, checks))
  {
    hide NoOrphans, FileOf, FilesOf, DistinctStages, NulFree, Wrote, HasStage, WithStage;
    var bumped, stage := Bumped(before.now), Stage(VerificationID(c.r.id), 100, 0);
    FilesMirror(before.now);
    RevisionView(before.now, before.now.nextRevision + 1);
    FilesMirror(bumped);
    RevisionKeepsStages(before.now, before.now.nextRevision + 1, c.r.id, stage.id);
    StageView(bumped, c.r.id, stage);
    WroteThree(before, bumped, Staged(bumped, c.r.id), after.now, c.r.id, c, WithStageOnly(c),
               Case(c.r, c.stages + [stage], c.cohorts + [checks]));
  }

  lemma {:induction false} VerifiedFile(w: World, r: Rollout, checks: seq<StageTarget>)
    requires r.id in w.cases && w.cases[r.id].r == r
    ensures var c := w.cases[r.id];
      WithVerification(w, r, checks).cases
      == w.cases[r.id := Case(c.r, c.stages + [Stage(VerificationID(c.r.id), 100, 0)], c.cohorts + [checks])]
  {
  }

  lemma {:induction false} DeliveringWrote(
      h: Hash, c: Case, agents: seq<Agent>, revision: int, t: Tick, a: Trail, b: Trail, d: Trail)
    requires Promotable(c)
    requires Wrote(a, b, c.r.id, ObservationWrites(c, t))
    requires Wrote(b, d, c.r.id, ActWrites(h, Observed(c, t), Decide(c, t), agents, revision, t))
    ensures Wrote(a, d, c.r.id, ProgressWrites(h, c, agents, revision, t))
  {
    hide Wrote, ObservationWrites, ActWrites, Observed, Decide, RollbackWrites;
    WroteMore(a, b, d, c.r.id, ObservationWrites(c, t),
              ActWrites(h, Observed(c, t), Decide(c, t), agents, revision, t));
  }

  lemma {:induction false} AcknowledgedWrote(
      h: Hash, c: Case, ack: Ack, agents: seq<Agent>, revision: int, t: Tick, a: Trail, b: Trail, d: Trail)
    requires Indexed(c) && !Terminal(c.r.state)
    requires Wrote(a, b, c.r.id, AckWrites(c, ack))
    requires Wrote(b, d, c.r.id, ProgressWrites(h, AckCase(c, ack), agents, revision, t))
    ensures Wrote(a, d, c.r.id, EventWrites(h, c, AckVisit(ack, agents, revision, t)))
  {
    hide Wrote, AckWrites, ProgressWrites;
    WroteMore(a, b, d, c.r.id, AckWrites(c, ack), ProgressWrites(h, AckCase(c, ack), agents, revision, t));
  }

  /** What acknowledging does to a running rollout, before it is settled. */
  function AckEffect(h: Hash, w: World, id: string, ack: Ack, t: Tick): Effect
    requires id in w.cases && Indexed(w.cases[id])
  {
    Progress(h, AckCase(w.cases[id], ack), w.agents, w.nextRevision, t)
  }

  function ReportOf(c: Case, ack: Ack, effect: Effect): AckReport
    requires Indexed(c)
  {
    AckReport(Counts(Current(c), ack), CoverageOf(Acknowledged(Current(c), ack)), effect.decision, effect.next.r)
  }

  /** A creation leaves the world, and answers, as World.dfy says: an error changes nothing. */
  predicate Answers(h: Hash, w: World, w': World, input: RolloutInput, plan: seq<Stage>, id: string, clock: Clock,
                    result: Result<(Rollout, seq<StageTarget>), ServiceError>)
  {
    match W.CreateRollout(h, w, input, plan, id, clock)
    case Err(e) => result == Err(e) && w' == w
    case Ok(next) =>
      w' == next && id in next.cases && Indexed(next.cases[id])
      && result == Ok((next.cases[id].r, Current(next.cases[id])))
  }

  class Service {
    const store: MemoryStore
    const registry: ConfigStores.Service
    const agents: AgentDirectory
    const hash: Hash
    const stagePlan: seq<Stage>

    constructor (
        store: MemoryStore, registry: ConfigStores.Service, agents: AgentDirectory, hash: Hash, stagePlan: seq<Stage>)
      ensures this.store == store && this.registry == registry && this.agents == agents
      ensures this.hash == hash && this.stagePlan == stagePlan
    {
      this.store, this.registry, this.agents, this.hash, this.stagePlan := store, registry, agents, hash, stagePlan;
    }

    /** The state as World.dfy sees it. */
    function View(): World
      requires Keyed(store.State())
      reads store, registry.store, agents
    {
      World(FilesOf(store.State()), store.activeRollout, store.nextRevision, registry.store.State(), agents.agents)
    }

    ghost predicate Valid()
      reads store, registry.store, agents
    {
      StoreInv(store.State()) && WorldInv(hash, View())
    }

    // ----- Single writes -----

    method Save(r: Rollout) returns (result: Result<(), ServiceError>)
      requires StoreInv(store.State()) && r.id in store.rollouts
      modifies store
      ensures StoreInv(store.State()) && result.Ok? && r.id in store.rollouts
      ensures View() == Saved(old(View()), r)
      ensures store.State() == Updated(old(store.State()), r) && store.log == old(store.log) + [store.State()]
      ensures r.id in old(View()).cases
      ensures Wrote(old(store.Written()), store.Written(), r.id, [old(View()).cases[r.id].(r := r)])
    {
      hide NoOrphans, FileOf, FilesOf, Wrote, DistinctStages, NulFree;
      FilesMirror(store.State());
      UpdateView(store.State(), r);
      WroteOne(store.Written(), Updated(store.State(), r), r.id, View().cases[r.id].(r := r));
      result := store.UpdateRollout(r);
    }

    method Transition(r: Rollout, next: State, at: Time) returns (result: Result<Rollout, ServiceError>)
      requires StoreInv(store.State()) && r.id in store.rollouts
      modifies store
      ensures StoreInv(store.State()) && r.id in store.rollouts
      ensures CanTransition(r.state, next) ==>
        result == Ok(r.(state := next, updatedAt := at))
        && View() == Saved(old(View()), r.(state := next, updatedAt := at))
        && Wrote(old(store.Written()), store.Written(), r.id,
                 [old(View()).cases[r.id].(r := r.(state := next, updatedAt := at))])
      ensures !CanTransition(r.state, next) ==>
        result == Err(InvalidInput) && View() == old(View()) && store.Written() == old(store.Written())
    {
      hide Wrote, NoOrphans, FileOf, FilesOf, DistinctStages, NulFree;
      FilesMirror(store.State());
      if !CanTransition(r.state, next) {
        return Err(InvalidInput);
      }
      var moved := r.(state := next, updatedAt := at);
      var saved := Save(moved);
      result := match saved case Ok(_) => Ok(moved) case Err(e) => Err(e);
    }

    method TakeRevision() returns (revision: int)
      requires StoreInv(store.State())
      modifies store
      ensures StoreInv(store.State())
      ensures revision == old(store.nextRevision) && store.State() == Bumped(old(store.State()))
      ensures View() == old(View()).(nextRevision := revision + 1)
      ensures store.log == old(store.log) + [store.State()]
    {
      hide FileOf, FilesOf, NoOrphans, DistinctStages, NulFree;
      revision := store.NextSnapshotRevision();
      RevisionView(old(store.State()), store.nextRevision);
    }

    /** Freeze the cohort of stage `i`. */
    method ActivateStage(r: Rollout, i: nat, at: Time) returns (result: Result<seq<StageTarget>, ServiceError>)
      requires StoreInv(store.State()) && r.id in store.rollouts && i < |store.stages[r.id]|
      requires r.id != "" && r.configDefinitionID != "" && r.candidateVersionID != "" && store.stages[r.id][i].id != ""
      requires store.nextRevision >= 1 && forall j :: 0 <= j < |agents.agents| ==> agents.agents[j].id != ""
      modifies store
      ensures StoreInv(store.State())
      ensures result == Ok(Cohort(hash, r, old(store.stages)[r.id][i],
                                  FilterAgents(agents.agents, r.environment, r.targetServices),
                                  old(store.nextRevision), at))
      ensures View() == Activation(old(View()), r.id, i, result.value)
      ensures store.log == old(store.log) + [Bumped(old(store.State())), store.State()]
    {
      hide Cohort, FileOf, FilesOf, NoOrphans, DistinctStages, NulFree, FilterAgents, Extended, Activation, Bumped;
      BumpKeepsStages(store.State());
      FilesMirror(store.State());
      var stage := store.stages[r.id][i];
      var revision := TakeRevision();
      var built := BuildCohort(r, stage, revision, at);
      match built {
        case Err(e) => return Err(e);
        case Ok(targets) =>
          BumpThenExtend(old(View()), r.id, i, targets);
          SaveCohort(r, i, targets);
          result := Ok(targets);
      }
    }

    /** The agents in scope now, and the targets of those the stage's percentage reaches. */
    method BuildCohort(r: Rollout, stage: Stage, revision: int, at: Time)
      returns (result: Result<seq<StageTarget>, ServiceError>)
      requires r.id != "" && r.configDefinitionID != "" && r.candidateVersionID != "" && stage.id != "" && revision >= 1
      requires forall j :: 0 <= j < |agents.agents| ==> agents.agents[j].id != ""
      ensures result
        == Ok(Cohort(hash, r, stage, FilterAgents(agents.agents, r.environment, r.targetServices), revision, at))
      ensures forall k :: 0 <= k < |result.value| ==>
        result.value[k].rolloutID == r.id && result.value[k].stageID == stage.id
    {
      hide Cohort;
      var scope := SelectAgents(agents.agents, r.environment, r.targetServices);
      var built := BuildStageTargets(hash, r, stage, scope, revision, at);
      TargetsAreAddressed(hash, r, stage, scope, revision, at);
      result := match built case Ok(targets) => Ok(targets) case Err(_) => Err(InvalidInput);
    }

    /** Append the targets of stage `i`. */
    method SaveCohort(r: Rollout, i: nat, targets: seq<StageTarget>)
      requires StoreInv(store.State()) && r.id in store.rollouts && i < |store.stages[r.id]|
      requires i < |View().cases[r.id].cohorts|
      requires forall k :: 0 <= k < |targets| ==>
        targets[k].rolloutID == r.id && targets[k].stageID == store.stages[r.id][i].id
      modifies store
      ensures StoreInv(store.State())
      ensures View() == Extended(old(View()), r.id, i, targets)
      ensures store.log == old(store.log) + [store.State()]
    {
      hide FileOf, FilesOf, NoOrphans, AppendedAll, DistinctStages, NulFree;
      ghost var db := store.State();
      FilesMirror(db);
      store.SaveStageTargets(targets);
      AppendView(db, store.State(), r.id, i, targets);
    }

    // ----- Evaluation -----

    method EvaluateGuardrails(r: Rollout, tick: Tick) returns (result: Result<(Status, Rollout), ServiceError>)
      requires StoreInv(store.State()) && r.id in store.rollouts
      requires ValidRules(r.guardrails) && NonNegative(r.guardrailFailures)
      modifies store
      ensures StoreInv(store.State())
      ensures result == Ok((RoundStatus(r.guardrails, tick.results, r.guardrailFailures),
                            r.(guardrailFailures := Round(r.guardrails, tick.results, r.guardrailFailures),
                               updatedAt := tick.clock.decide)))
      ensures View() == Saved(old(View()), result.value.1)
      ensures result.value.0 == Unhealthy <==>
        exists i: nat :: i < |r.guardrails| && TripsInRound(r.guardrails, tick.results, r.guardrailFailures, i)
      ensures result.value.0 == Healthy <==>
        forall i: nat :: i < |r.guardrails| ==>
          Sampled(tick.results, i) && !TripsInRound(r.guardrails, tick.results, r.guardrailFailures, i)
      ensures r.id in old(View()).cases
      ensures Wrote(old(store.Written()), store.Written(), r.id, [old(View()).cases[r.id].(r := result.value.1)])
    {
      hide NoOrphans, FileOf, FilesOf, DistinctStages, NulFree, Updated, EvaluateQueryResult, NextCount, NextStatus;
      hide Wrote, TripsInRound, Sampled;
      RoundVerdict(r.guardrails, tick.results, r.guardrailFailures);
      var failures := r.guardrailFailures;
      var evaluations: seq<Evaluation> := [];
      for i := 0 to |r.guardrails|
        invariant store.Written() == old(store.Written())
        invariant failures == RoundCounters(r.guardrails, tick.results, r.guardrailFailures, i) && NonNegative(failures)
        invariant (set e | e in evaluations :: e.status)
          == RoundStatuses(r.guardrails, tick.results, r.guardrailFailures, i)
      {
        var rule := r.guardrails[i];
        var previous := CounterOf(failures, rule.name);
        EvaluationSucceeds(rule, ResultAt(tick.results, i), previous, tick.clock.decide);
        var evaluation := EvaluateQueryResult(rule, ResultAt(tick.results, i), previous, tick.clock.decide);
        match evaluation {
          case Err(e) => return Err(BadRule(e));
          case Ok(done) =>
            failures := failures[rule.name := done.consecutiveFailures];
            StatusesSnoc(evaluations, done);
            evaluations := evaluations + [done];
        }
      }
      var evaluated := r.(guardrailFailures := failures, updatedAt := tick.clock.decide);
      var saved := Save(evaluated);
      var status := AggregateStatus(evaluations);
      result := match saved case Ok(_) => Ok((status, evaluated)) case Err(e) => Err(e);
    }

    /** `r` and `targets` are the stored record and current cohort of rollout `r.id`. */
    predicate Holds(r: Rollout, targets: seq<StageTarget>)
      requires Keyed(store.State())
      reads store, registry.store, agents
    {
      && r.id in View().cases && View().cases[r.id].r == r
      && Indexed(View().cases[r.id]) && Current(View().cases[r.id]) == targets
    }

    method EvaluateStageDecision(r: Rollout, targets: seq<StageTarget>, current: Stage, tick: Tick)
      returns (result: Result<(StageDecision, Rollout), ServiceError>)
      requires StoreInv(store.State()) && Holds(r, targets)
      requires ValidRules(r.guardrails) && NonNegative(r.guardrailFailures)
      requires current == View().cases[r.id].stages[r.currentStageIndex]
      modifies store
      ensures StoreInv(store.State())
      ensures var c := old(View()).cases[r.id];
        result == Ok((Decide(c, tick), Observed(c, tick).r)) && View() == Evaluated(old(View()), r.id, tick)
        && Wrote(old(store.Written()), store.Written(), r.id, ObservationWrites(c, tick))
      ensures var c, now, decision := old(View()).cases[r.id], tick.clock.decide, result.value.0;
        && (decision == DecisionRollback <==>
              TooOld(r, now) || Late(c, now) || (Due(c, now) && Verdict(c, tick) == Unhealthy))
        && (decision == DecisionPromote <==> !TooOld(r, now) && Due(c, now) && Verdict(c, tick) == Healthy)
        && (decision == DecisionPause <==> !TooOld(r, now) && Due(c, now) && Verdict(c, tick) == Unknown)
    {
      hide Wrote, NoOrphans, FileOf, FilesOf, DistinctStages, NulFree, RoundStatus, Round, TooOld, Late, Due, Verdict;
      DecisionMeans(View().cases[r.id], tick);
      FilesMirror(store.State());
      WroteNothing(store.Written(), r.id);
      if r.rolloutMaxDuration > 0 && tick.clock.decide - r.createdAt >= r.rolloutMaxDuration {
        return Ok((DecisionRollback, r));
      }
      var decision := EvaluateStageProgress(targets, r.requiredAckPercent, r.stageStartedAt, tick.clock.decide,
                                            current.minimumDuration, r.deploymentTimeout);
      if decision != DecisionPromote {
        return Ok((decision, r));
      }
      if |r.guardrails| == 0 {
        return Ok((DecisionPromote, r));
      }
      var evaluated := EvaluateGuardrails(r, tick);
      match evaluated {
        case Err(e) => result := Err(e);
        case Ok(outcome) =>
          var verdict := match outcome.0
            case Healthy => DecisionPromote
            case Unhealthy => DecisionRollback
            case Unknown => DecisionPause;
          result := Ok((verdict, outcome.1));
      }
    }

    // ----- Promotion -----

    method Complete(r: Rollout, at: Time) returns (result: Result<Rollout, ServiceError>)
      requires StoreInv(store.State()) && r.id in store.rollouts && Delivering(View().cases[r.id])
      requires View().cases[r.id].r == r
      requires ConfigRegistry.RegistryInv(registry.store.State()) && Linked(registry.store.State(), r)
      modifies store, registry.store
      ensures StoreInv(store.State())
      ensures result == Ok(r.(state := Completed, updatedAt := at))
      ensures View()
        == Settle(old(View()), r.id,
                  Effect(WithState(old(View()).cases[r.id], Completed, at), false, true, DecisionPromote), at)
      ensures Wrote(old(store.Written()), store.Written(), r.id, [WithState(old(View()).cases[r.id], Completed, at)])
    {
      hide Linked, ConfigRegistry.RegistryInv, NoOrphans, Wrote, FileOf, DistinctStages, NulFree;
      if !CanTransition(r.state, Evaluating) && r.state != Evaluating {
        return Err(InvalidInput);
      }
      CompletionSucceeds(registry.store.State(), r, at);
      var moved := registry.SetStableVersion(r.tenantID, r.configKey, r.environment, r.candidateVersion, at);
      match moved {
        case Err(e) => result := Err(RegistryFailed(e));
        case Ok(_) =>
          var completed := r.(state := Completed, updatedAt := at);
          var saved := Save(completed);
          result := match saved case Ok(_) => Ok(completed) case Err(e) => Err(e);
      }
    }

    /** Store the record that names a stage, then that stage's targets. */
    method SaveAndActivate(r: Rollout, i: nat, at: Time) returns (result: Result<seq<StageTarget>, ServiceError>)
      requires StoreInv(store.State()) && r.id in store.rollouts && i < |store.stages[r.id]|
      requires store.stages[r.id][i].id != ""
      requires i < |View().cases[r.id].cohorts|
      requires r.id != "" && r.configDefinitionID != "" && r.candidateVersionID != ""
      requires store.nextRevision >= 1 && forall j :: 0 <= j < |agents.agents| ==> agents.agents[j].id != ""
      modifies store
      ensures StoreInv(store.State())
      ensures result == Ok(Cohort(hash, r, old(store.stages)[r.id][i],
                                  FilterAgents(agents.agents, r.environment, r.targetServices),
                                  old(store.nextRevision), at))
      ensures View() == Activation(Saved(old(View()), r), r.id, i, result.value)
      ensures store.log == old(store.log)
        + [Updated(old(store.State()), r), Bumped(Updated(old(store.State()), r)), store.State()]
    {
      hide Cohort, NoOrphans, FileOf, FilesOf, Activation, DistinctStages, NulFree, Bumped, Updated, Saved, Wrote;
      UpdateKeepsStages(store.State(), r);
      var saved := Save(r);
      match saved {
        case Err(e) => result := Err(e);
        case Ok(_) => result := ActivateStage(r, i, at);
      }
    }

    method PromoteToNext(r: Rollout, stages: seq<Stage>, tick: Tick) returns (result: Result<Rollout, ServiceError>)
      requires StoreInv(store.State()) && r.id in store.rollouts
      requires var c := View().cases[r.id];
        c.r == r && c.stages == stages && Indexed(c) && r.currentStageIndex < |stages| - 1
      requires stages[r.currentStageIndex + 1].id != "" && View().cases[r.id].cohorts[r.currentStageIndex + 1] == []
      requires r.id != "" && r.configDefinitionID != "" && r.candidateVersionID != ""
      requires store.nextRevision >= 1 && forall j :: 0 <= j < |agents.agents| ==> agents.agents[j].id != ""
      modifies store
      ensures StoreInv(store.State())
      ensures result == Ok(PromotedRecord(old(View()).cases[r.id], tick.clock.save))
      ensures View() == Activation(
        Saved(old(View()), PromotedRecord(old(View()).cases[r.id], tick.clock.save)), r.id, r.currentStageIndex + 1,
        Cohort(hash, PromotedRecord(old(View()).cases[r.id], tick.clock.save), stages[r.currentStageIndex + 1],
               FilterAgents(agents.agents, r.environment, r.targetServices), old(store.nextRevision), tick.clock.build))
      ensures var saved := Updated(old(store.State()), PromotedRecord(old(View()).cases[r.id], tick.clock.save));
        store.log == old(store.log) + [saved, Bumped(saved), store.State()]
    {
      hide Cohort, NoOrphans, FileOf, FilesOf, Activation, Saved, DistinctStages, NulFree, Updated, Bumped;
      FilesMirror(store.State());
      var next := r.currentStageIndex + 1;
      var promoted := r.(state := Deploying, currentStageIndex := next, currentStageID := stages[next].id,
                         stageStartedAt := tick.clock.save, updatedAt := tick.clock.save);
      var activated := SaveAndActivate(promoted, next, tick.clock.build);
      result := match activated case Ok(_) => Ok(promoted) case Err(e) => Err(e);
    }

    method Promote(r: Rollout, stages: seq<Stage>, tick: Tick) returns (result: Result<Rollout, ServiceError>)
      requires StoreInv(store.State()) && r.id in store.rollouts
      requires var c := View().cases[r.id];
        c.r == r && c.stages == stages && Promotable(c)
      requires ConfigRegistry.RegistryInv(registry.store.State()) && Linked(registry.store.State(), r)
      requires r.id != "" && r.configDefinitionID != "" && r.candidateVersionID != ""
      requires store.nextRevision >= 1 && forall j :: 0 <= j < |agents.agents| ==> agents.agents[j].id != ""
      modifies store, registry.store
      ensures StoreInv(store.State())
      ensures var effect := PromoteEffect(hash, old(View()).cases[r.id], agents.agents, old(store.nextRevision), tick);
        result == Ok(effect.next.r) && View() == Settle(old(View()), r.id, effect, tick.clock.save)
      ensures Wrote(old(store.Written()), store.Written(), r.id,
                    PromoteWrites(hash, old(View()).cases[r.id], agents.agents, old(store.nextRevision), tick))
    {
      hide Linked, ConfigRegistry.RegistryInv, Cohort, NoOrphans, Settle, Activation, Saved, FileOf, FilesOf, Wrote;
      hide Updated, Bumped;
      hide DistinctStages, NulFree;
      ghost var w := View();
      FilesMirror(store.State());
      if r.currentStageIndex == |stages| - 1 {
        result := Complete(r, tick.clock.save);
      } else {
        result := PromoteToNext(r, stages, tick);
        NextStageIsSettled(hash, w, r.id, agents.agents, tick);
        SettleReplacesOneFile(w, r.id, PromoteEffect(hash, w.cases[r.id], agents.agents, w.nextRevision, tick),
                              tick.clock.save);
        PromotedRecordKeepsID(w.cases[r.id], tick.clock.save);
        PromotionWrote(old(store.Written()), store.Written(), PromotedRecord(w.cases[r.id], tick.clock.save),
                       w.cases[r.id], PromotedTo(hash, w.cases[r.id], agents.agents, w.nextRevision, tick));
      }
    }

    // ----- Rollback -----

    method BuildVerification(r: Rollout, candidates: seq<StageTarget>, revision: int, now: Time)
      returns (checks: seq<StageTarget>)
      ensures checks == VerificationTargets(r, candidates, revision, now)
    {
      checks := [];
      for i := 0 to |candidates|
        invariant checks == VerificationTargets(r, candidates[..i], revision, now)
      {
        checks := checks + [VerificationTarget(r, candidates[i], revision, now)];
      }
      assert candidates[..|candidates|] == candidates;
    }

    /** Store the verification stage and its targets. */
    method SaveVerification(r: Rollout, checks: seq<StageTarget>)
      requires StoreInv(store.State()) && r.id in store.rollouts && store.rollouts[r.id] == r
      requires !HasStage(store.State(), r.id, VerificationID(r.id))
      requires forall k :: 0 <= k < |checks| ==>
        checks[k].rolloutID == r.id && checks[k].stageID == VerificationID(r.id)
      modifies store
      ensures StoreInv(store.State()) && r.id in store.rollouts
      ensures View() == WithVerification(old(View()), r, checks)
      ensures store.log == old(store.log) + [Staged(old(store.State()), r.id), store.State()]
    {
      hide FileOf, FilesOf, NoOrphans, AppendedAll, HasStage, WithStage;
      ghost var db := store.State();
      FilesMirror(db);
      NewStageIsSaved(db, r.id, Stage(VerificationID(r.id), 100, 0));
      var staged := store.SaveStage(r.id, Stage(VerificationID(r.id), 100, 0));
      ghost var db1 := store.State();
      store.SaveStageTargets(checks);
      VerificationStored(db, db1, store.State(), r, checks);
    }

    method ActivateRollbackVerification(r: Rollout, candidates: seq<StageTarget>, tick: Tick)
      returns (result: Result<Rollout, ServiceError>)
      requires StoreInv(store.State()) && Holds(r, candidates)
      requires r.state == RollingBack && !Verifying(View().cases[r.id])
      requires !HasStage(store.State(), r.id, VerificationID(r.id))
      modifies store
      ensures StoreInv(store.State())
      ensures var effect := RollbackEffect(old(View()).cases[r.id], old(store.nextRevision), tick);
        result == Ok(effect.next.r) && View() == Settle(old(View()), r.id, effect, tick.clock.save)
      ensures Wrote(old(store.Written()), store.Written(), r.id,
                    RollbackWrites(old(View()).cases[r.id], old(store.nextRevision), tick))
    {
      hide NoOrphans, HasStage, FileOf, FilesOf, Saved, Settle, RollbackEffect, DistinctStages, NulFree, Updated;
      hide Bumped, Staged;
      hide Wrote, VerificationTargets, WithVerification;
      ghost var w := View();
      ghost var c := w.cases[r.id];
      VerificationIsSettled(w, r.id, tick);
      FilesMirror(store.State());
      var now := tick.clock.decide;
      var checks := StageVerification(r, candidates, now);
      VerifiedFile(w.(nextRevision := w.nextRevision + 1), r, checks);
      VerificationWrote(old(store.Written()), store.Written(), c, checks);
      ghost var between := store.Written();
      result := SaveBegun(BegunRecord(r, now), |checks| == 0, tick.clock.save);
      RollbackWritesSplit(c, w.nextRevision, tick, checks);
      WroteMore(old(store.Written()), between, store.Written(), r.id, StagedWrites(c, checks),
                BegunWrites(c, checks, tick));
    }

    /** Store the record of a verification that began, and of one that ended at once. */
    method SaveBegun(begun: Rollout, over: bool, at: Time) returns (result: Result<Rollout, ServiceError>)
      requires StoreInv(store.State()) && begun.id in store.rollouts
      modifies store
      ensures StoreInv(store.State())
      ensures var ended := begun.(state := RolledBack, rollbackStatus := Verified, updatedAt := at);
        begun.id in old(View()).cases && result == Ok(if over then ended else begun)
        && View() == (if over then Saved(Saved(old(View()), begun), ended) else Saved(old(View()), begun))
        && Wrote(old(store.Written()), store.Written(), begun.id,
                 [old(View()).cases[begun.id].(r := begun)]
                 + if over then [old(View()).cases[begun.id].(r := ended)] else [])
    {
      hide NoOrphans, FileOf, FilesOf, DistinctStages, NulFree, Updated, Wrote;
      FilesMirror(store.State());
      ghost var c := View().cases[begun.id];
      var saved := Save(begun);
      assert [c.(r := begun)] + [] == [c.(r := begun)];
      if over {
        var ended := begun.(state := RolledBack, rollbackStatus := Verified, updatedAt := at);
        ghost var between := store.Written();
        saved := Save(ended);
        WroteMore(old(store.Written()), between, store.Written(), begun.id, [c.(r := begun)], [c.(r := ended)]);
        result := match saved case Ok(_) => Ok(ended) case Err(e) => Err(e);
      } else {
        result := match saved case Ok(_) => Ok(begun) case Err(e) => Err(e);
      }
    }

    method StageVerification(r: Rollout, candidates: seq<StageTarget>, now: Time) returns (checks: seq<StageTarget>)
      requires StoreInv(store.State()) && r.id in store.rollouts && store.rollouts[r.id] == r
      requires !HasStage(store.State(), r.id, VerificationID(r.id))
      modifies store
      ensures StoreInv(store.State()) && r.id in store.rollouts
      ensures checks == VerificationTargets(r, candidates, old(store.nextRevision), now)
      ensures View() == WithVerification(old(View()).(nextRevision := old(store.nextRevision) + 1), r, checks)
      ensures store.log
        == old(store.log) + [Bumped(old(store.State())), Staged(Bumped(old(store.State())), r.id), store.State()]
    {
      hide NoOrphans, HasStage, FileOf, FilesOf, DistinctStages, NulFree, WithVerification, VerificationTargets;
      hide WithStage;
      FilesMirror(store.State());
      var revision := TakeRevision();
      RevisionKeepsStages(old(store.State()), store.nextRevision, r.id, VerificationID(r.id));
      checks := BuildVerification(r, candidates, revision, now);
      SaveVerification(r, checks);
    }

    method ReconcileRollback(r: Rollout, targets: seq<StageTarget>, tick: Tick)
      returns (result: Result<Rollout, ServiceError>)
      requires StoreInv(store.State()) && Holds(r, targets)
      requires r.state == RollingBack
      requires !Verifying(View().cases[r.id]) ==> !HasStage(store.State(), r.id, VerificationID(r.id))
      requires KeyOf(r) in store.activeRollout && store.activeRollout[KeyOf(r)] == r.id
      modifies store
      ensures StoreInv(store.State())
      ensures var effect := RollbackEffect(old(View()).cases[r.id], old(store.nextRevision), tick);
        result == Ok(effect.next.r) && View() == Settle(old(View()), r.id, effect, tick.clock.save)
      ensures Wrote(old(store.Written()), store.Written(), r.id,
                    RollbackWrites(old(View()).cases[r.id], old(store.nextRevision), tick))
      ensures (&& r.currentStageID == VerificationID(r.id) && targets != []
               && !CoverageReached(targets, r.requiredAckPercent)
               && (r.rollbackTimeout <= 0 || tick.clock.decide < r.stageStartedAt + r.rollbackTimeout)) ==>
        result == Ok(r) && store.Written() == old(store.Written())
    {
      hide Wrote, NoOrphans, FileOf, FilesOf, DistinctStages, NulFree, HasStage, CoverageReached, BeginVerification;
      hide Updated;
      FilesMirror(store.State());
      WroteNothing(store.Written(), r.id);
      if r.currentStageID != VerificationID(r.id) {
        result := ActivateRollbackVerification(r, targets, tick);
        return;
      }
      if CoverageReached(targets, r.requiredAckPercent) || |targets| == 0 {
        var verified := r.(state := RolledBack, rollbackStatus := Verified, updatedAt := tick.clock.save);
        var saved := Save(verified);
        return match saved case Ok(_) => Ok(verified) case Err(e) => Err(e);
      }
      if r.rollbackTimeout > 0 && tick.clock.decide - r.stageStartedAt >= r.rollbackTimeout {
        var partially := r.(state := RolledBack, rollbackStatus := Partial, updatedAt := tick.clock.save);
        var saved := Save(partially);
        return match saved case Ok(_) => Ok(partially) case Err(e) => Err(e);
      }
      result := Ok(r);
    }

    // ----- One visit -----

    /** What a visit relies on, of the rollout in hand. */
    ghost predicate Ready(r: Rollout)
      requires Keyed(store.State())
      reads store, registry.store, agents
    {
      && r.id in store.rollouts && r.id in View().cases && View().cases[r.id].r == r && Promotable(View().cases[r.id])
      && ConfigRegistry.RegistryInv(registry.store.State()) && Linked(registry.store.State(), r)
      && r.id != "" && r.configDefinitionID != "" && r.candidateVersionID != ""
      && store.nextRevision >= 1 && (forall j :: 0 <= j < |agents.agents| ==> agents.agents[j].id != "")
      && KeyOf(r) in store.activeRollout && store.activeRollout[KeyOf(r)] == r.id
    }

    /** Apply a decision to the evaluated record. */
    method Act(r: Rollout, stages: seq<Stage>, decision: StageDecision, tick: Tick)
      returns (result: Result<Rollout, ServiceError>)
      requires StoreInv(store.State()) && Ready(r) && View().cases[r.id].stages == stages
      modifies store, registry.store
      ensures StoreInv(store.State())
      ensures var c, revision := old(View()).cases[r.id], old(store.nextRevision);
        var effect := ActEffect(hash, c, decision, agents.agents, revision, tick);
        result == Ok(effect.next.r) && View() == Settle(old(View()), r.id, effect, tick.clock.save)
      ensures Wrote(old(store.Written()), store.Written(), r.id,
                    ActWrites(hash, old(View()).cases[r.id], decision, agents.agents, old(store.nextRevision), tick))
    {
      hide Linked, ConfigRegistry.RegistryInv, NoOrphans, FileOf, FilesOf, Saved, Settle, PromoteEffect, Wrote;
      hide PromoteWrites;
      hide DistinctStages, NulFree;
      FilesMirror(store.State());
      WroteNothing(store.Written(), r.id);
      match decision {
        case DecisionPromote =>
          result := Promote(r, stages, tick);
        case DecisionRollback =>
          if r.state == RollingBack {
            return Ok(r);
          }
          SavingSettles(View(), r.(state := RollingBack, updatedAt := tick.clock.save), decision, tick.clock.save);
          result := Transition(r, RollingBack, tick.clock.save);
        case DecisionPause =>
          if r.state == Paused {
            NothingSettles(View(), r.id, decision, tick.clock.save);
            return Ok(r);
          }
          SavingSettles(View(), r.(state := Paused, updatedAt := tick.clock.save), decision, tick.clock.save);
          result := Transition(r, Paused, tick.clock.save);
        case DecisionWait =>
          NothingSettles(View(), r.id, decision, tick.clock.save);
          result := Ok(r);
      }
    }

    method DecideAndAct(r: Rollout, targets: seq<StageTarget>, stages: seq<Stage>, tick: Tick)
      returns (result: Result<(StageDecision, Rollout), ServiceError>)
      requires StoreInv(store.State()) && Ready(r) && Holds(r, targets) && stages == View().cases[r.id].stages
      requires ValidRules(r.guardrails) && NonNegative(r.guardrailFailures)
      modifies store, registry.store
      ensures StoreInv(store.State())
      ensures var effect := Progress(hash, old(View()).cases[r.id], agents.agents, old(store.nextRevision), tick);
        result == Ok((effect.decision, effect.next.r)) && View() == Settle(old(View()), r.id, effect, tick.clock.save)
      ensures Wrote(old(store.Written()), store.Written(), r.id,
                    ProgressWrites(hash, old(View()).cases[r.id], agents.agents, old(store.nextRevision), tick))
    {
      hide Linked, ConfigRegistry.RegistryInv, NoOrphans, FileOf, FilesOf, Saved, Settle, ActEffect, Decide, Observed;
      hide DistinctStages, NulFree, ValidRules, NonNegative, Progress, Consults, Evaluated, Current, Promotable;
      hide SameIdentity;
      hide Wrote, ProgressWrites, ObservationWrites, ActWrites;
      ghost var c := View().cases[r.id];
      FilesMirror(store.State());
      EvaluationSettles(hash, View(), r.id, agents.agents, tick);
      var evaluated := EvaluateStageDecision(r, targets, stages[r.currentStageIndex], tick);
      match evaluated {
        case Err(e) => result := Err(e);
        case Ok(outcome) =>
          LinkedIgnoresProgress(registry.store.State(), r, outcome.1);
          FilesMirror(store.State());
          ghost var between := store.Written();
          var acted := Act(outcome.1, stages, outcome.0, tick);
          DeliveringWrote(hash, c, agents.agents, old(store.nextRevision), tick,
                          old(store.Written()), between, store.Written());
          result := match acted case Ok(after) => Ok((outcome.0, after)) case Err(e) => Err(e);
      }
    }

    // ----- Creating a rollout -----

    method CheckRules(rules: seq<Rule>) returns (problem: Option<ServiceError>)
      ensures problem == RuleProblem(rules)
    {
      for i := 0 to |rules|
        invariant RuleProblem(rules[..i]).None?
      {
        assert rules[..i + 1][..i] == rules[..i];
        FirstProblemStands(rules, i + 1);
        match ValidateRule(rules[i]) {
          case Err(e) => return Some(BadRule(e));
          case Ok(_) =>
        }
        if rules[i].query == "" {
          return Some(InvalidInput);
        }
      }
      assert rules[..|rules|] == rules;
      problem := None;
    }

    /** Everything CreateRollout refuses before it writes. */
    method ReadGrounds(input: RolloutInput) returns (result: Result<Grounds, ServiceError>)
      ensures result == FindGrounds(registry.store.State(), input)
    {
      var definition := registry.GetDefinition(input.tenantID, input.key);
      match definition {
        case Err(e) => return Err(RegistryFailed(e));
        case Ok(d) =>
          var listed := registry.ListVersions(input.tenantID, input.key);
          match listed {
            case Err(e) => return Err(RegistryFailed(e));
            case Ok(versions) =>
              var i := ConfigRegistry.IndexByNumber(versions, input.candidateVersionNumber);
              if i == |versions| {
                return Err(NotFound);
              }
              var stored := registry.GetEnvironmentState(input.tenantID, input.key, input.environment);
              match stored {
                case Err(e) => return Err(RegistryFailed(e));
                case Ok(state) =>
                  if state.stableVersionID == "" {
                    return Err(InvalidInput);
                  }
                  if state.stableVersionID == versions[i].id {
                    return Err(Conflict);
                  }
                  result := Ok(Grounds(d.id, state.stableVersionID, versions[i]));
              }
          }
      }
    }

    method Check(input: RolloutInput) returns (result: Result<Grounds, ServiceError>)
      ensures result == CheckInput(registry.store.State(), input, stagePlan)
    {
      if input.tenantID == "" || input.key == "" {
        return Err(InvalidInput);
      }
      if !ConfigRegistry.ValidEnvironment(input.environment) {
        return Err(InvalidInput);
      }
      if input.candidateVersionNumber < 1 {
        return Err(InvalidInput);
      }
      var planned := ValidateStagePlan(RequestedPlan(input, stagePlan));
      if !planned {
        return Err(InvalidInput);
      }
      var problem := CheckRules(input.guardrails);
      match problem {
        case Some(e) => return Err(e);
        case None => result := ReadGrounds(input);
      }
    }

    method CreateRollout(input: RolloutInput, id: string, clock: Clock)
      returns (result: Result<(Rollout, seq<StageTarget>), ServiceError>)
      requires Valid()
      requires W.CreateRollout(hash, View(), input, stagePlan, id, clock).Ok? ==> Creatable(input, stagePlan, id)
      modifies store
      ensures Valid()
      ensures Answers(hash, old(View()), View(), input, stagePlan, id, clock, result)
      ensures result.Err? ==> store.Written() == old(store.Written())
      ensures result.Ok? ==>
        id in View().cases && Wrote(old(store.Written()), store.Written(), id, CreationWrites(View().cases[id]))
        && View().cases[id].r == result.value.0 && AtTheStart(result.value.0, id, View().cases[id].stages, clock.save)
        && AsAsked(input, result.value.0) && AsFound(registry.store.State(), input, result.value.0)
        && PlanFor(input, stagePlan, View().cases[id].stages)
    {
      hide Wrote, CreationWrites, WorldInv, AsAsked, AsFound, AtTheStart, PlanFor, W.CreateRollout, CheckInput;
      ghost var w := View();
      if W.CreateRollout(hash, w, input, stagePlan, id, clock).Ok? {
        CreatedAsAsked(hash, w, input, stagePlan, id, clock);
      }
      RefusedInput(hash, w, input, stagePlan, id, clock);
      var checked := Check(input);
      match checked {
        case Err(e) => result := Err(e);
        case Ok(g) => result := Launch(input, g, id, clock);
      }
    }

    /** Store a new rollout and its stages. */
    method Store(r: Rollout, stages: seq<Stage>) returns (result: Result<(), ServiceError>)
      requires StoreInv(store.State()) && !Terminal(r.state)
      requires r.id !in store.rollouts && !Occupied(store.State(), KeyOf(r)) ==> NulFree(r.id) && DistinctStages(stages)
      modifies store
      ensures StoreInv(store.State())
      ensures result == if r.id in old(View()).cases then Err(AlreadyExists)
                        else if Occupied(old(store.State()), KeyOf(r)) then Err(Conflict) else Ok(())
      ensures result.Err? ==> View() == old(View()) && store.Written() == old(store.Written())
      ensures result.Ok? ==>
        View() == Opened(old(View()), r, stages) && r.id !in old(store.rollouts)
        && r.id in store.rollouts && store.stages[r.id] == stages && store.nextRevision == old(store.nextRevision)
        && store.State() == Inserted(old(store.State()), r, stages) && store.log == old(store.log) + [store.State()]
    {
      hide NoOrphans, FileOf, FilesOf, DistinctStages, NulFree;
      FilesMirror(store.State());
      result := store.CreateRollout(r, stages);
      if result.Ok? {
        InsertView(old(store.State()), r, stages);
      }
    }

    /** The writes of CreateRollout, once the input is accepted. */
    method Launch(input: RolloutInput, g: Grounds, id: string, clock: Clock)
      returns (result: Result<(Rollout, seq<StageTarget>), ServiceError>)
      requires Valid() && CheckInput(registry.store.State(), input, stagePlan) == Ok(g)
      requires W.CreateRollout(hash, View(), input, stagePlan, id, clock).Ok? ==> Creatable(input, stagePlan, id)
      modifies store
      ensures Valid()
      ensures Answers(hash, old(View()), View(), input, stagePlan, id, clock, result)
      ensures result.Err? ==> store.Written() == old(store.Written())
      ensures result.Ok? ==>
        id in View().cases && Wrote(old(store.Written()), store.Written(), id, CreationWrites(View().cases[id]))
    {
      hide WorldInv, NoOrphans, FileOf, FilesOf, CheckInput, Cohort, W.CreateRollout, NewRecord, Activation, ValidPlan;
      hide DistinctStages, Answers, Wrote, CreationWrites, Bumped, Inserted, Opened;
      var stages := RequestedPlan(input, stagePlan);
      AcceptedPlan(View(), input, stagePlan, g);
      var r := NewRecord(input, g, id, stages[0].id, clock.save);
      ghost var w := View();
      CreatedWorld(hash, w, input, stagePlan, id, g, clock);
      FilesMirror(store.State());
      if W.CreateRollout(hash, w, input, stagePlan, id, clock).Ok? {
        AcceptedIsOpenable(hash, w, input, stagePlan, id, g, clock.save);
      }
      var created := Store(r, stages);
      match created {
        case Err(e) => result := Err(e);
        case Ok(_) =>
          OpenedFile(w, r, stages);
          var activated := ActivateStage(r, 0, clock.build);
          CreateKeepsWorldInv(hash, w, input, stagePlan, id, clock);
          LaunchWrote(old(store.Written()), store.Written(), w, View(), r, stages, activated.value);
          result := match activated case Ok(targets) => Ok((r, targets)) case Err(e) => Err(e);
      }
    }

    // ----- The locked operations -----

    method VisitDelivering(r: Rollout, targets: seq<StageTarget>, tick: Tick)
      returns (result: Result<(StageDecision, Rollout), ServiceError>)
      requires StoreInv(store.State()) && Holds(r, targets) && Fit(View(), r.id) && Delivering(View().cases[r.id])
      modifies store, registry.store
      ensures StoreInv(store.State())
      ensures var effect := Progress(hash, old(View()).cases[r.id], agents.agents, old(store.nextRevision), tick);
        result == Ok((effect.decision, effect.next.r)) && View() == Settle(old(View()), r.id, effect, tick.clock.save)
      ensures Wrote(old(store.Written()), store.Written(), r.id,
                    ProgressWrites(hash, old(View()).cases[r.id], agents.agents, old(store.nextRevision), tick))
    {
      hide Linked, ConfigRegistry.RegistryInv, NoOrphans, FileOf, FilesOf, Settle, DistinctStages, NulFree, ValidRules;
      hide NonNegative;
      hide Progress, Promotable, VerificationID, Current, Wrote, ProgressWrites;
      FilesMirror(store.State());
      var stages := store.ListStages(r.id);
      match stages {
        case Err(e) => result := Err(e);
        case Ok(plan) =>
          if r.currentStageIndex < 0 || r.currentStageIndex >= |plan| {
            return Err(InvalidInput);
          }
          result := DecideAndAct(r, targets, plan, tick);
      }
    }

    /** The tail shared by reconcileRollout and Acknowledge, once the targets are read. */
    method VisitTargets(r: Rollout, targets: seq<StageTarget>, tick: Tick)
      returns (result: Result<(StageDecision, Rollout), ServiceError>)
      requires StoreInv(store.State()) && Holds(r, targets) && Fit(View(), r.id)
      requires Delivering(View().cases[r.id]) || r.state == RollingBack
      modifies store, registry.store
      ensures StoreInv(store.State())
      ensures var effect := Progress(hash, old(View()).cases[r.id], agents.agents, old(store.nextRevision), tick);
        result == Ok((effect.decision, effect.next.r)) && View() == Settle(old(View()), r.id, effect, tick.clock.save)
      ensures Wrote(old(store.Written()), store.Written(), r.id,
                    ProgressWrites(hash, old(View()).cases[r.id], agents.agents, old(store.nextRevision), tick))
    {
      hide Linked, ConfigRegistry.RegistryInv, NoOrphans, FileOf, FilesOf, Settle, DistinctStages, NulFree, ValidRules;
      hide NonNegative;
      hide Progress, RollbackEffect, HasStage, Promotable, VerificationID, Current, Wrote, ObservationWrites, ActWrites;
      hide RollbackWrites;
      if r.state == RollingBack {
        FilesMirror(store.State());
        RollingBackProgress(hash, View().cases[r.id], agents.agents, store.nextRevision, tick);
        if !Verifying(View().cases[r.id]) {
          NewStageOfView(store.State(), r.id, VerificationID(r.id));
        }
        var rolled := ReconcileRollback(r, targets, tick);
        result := match rolled case Ok(after) => Ok((DecisionWait, after)) case Err(e) => Err(e);
      } else {
        result := VisitDelivering(r, targets, tick);
      }
    }

    method ReconcileRollout(r: Rollout, tick: Tick) returns (result: Result<Rollout, ServiceError>)
      requires Valid() && r.id in View().cases && View().cases[r.id].r == r && !Terminal(r.state)
      requires Timely(View().cases[r.id], tick)
      modifies store, registry.store
      ensures Valid() && result.Ok?
      ensures AllIndexed(old(View())) && View() == VisitRollout(hash, old(View()), r.id, tick)
      ensures Wrote(old(store.Written()), store.Written(), r.id,
                    EventWrites(hash, old(View()).cases[r.id], Visit(agents.agents, old(store.nextRevision), tick)))
    {
      hide WorldInv, NoOrphans, FileOf, FilesOf, Settle, Progress, Shaped, Fit, VisitRollout, DistinctStages, NulFree;
      hide Wrote, ProgressWrites;
      FilesMirror(store.State());
      VisitIsSound(hash, View(), r.id, tick);
      CurrentIsStored(store.State(), r.id);
      var copy := store.ListStageTargets(r.id, r.currentStageID);
      var visited := VisitTargets(r, copy[..], tick);
      result := match visited case Ok(p) => Ok(p.1) case Err(e) => Err(e);
    }

    /** Mark the acknowledged target in the store. */
    method MarkTarget(r: Rollout, ack: Ack) returns (counted: bool, targets: seq<StageTarget>)
      requires StoreInv(store.State()) && r.id in View().cases && View().cases[r.id].r == r
      requires Shaped(View().cases[r.id])
      modifies store
      ensures StoreInv(store.State())
      ensures counted == Counts(Current(old(View()).cases[r.id]), ack)
      ensures targets == Acknowledged(Current(old(View()).cases[r.id]), ack)
      ensures View() == old(View()).(cases := old(View()).cases[r.id := AckCase(old(View()).cases[r.id], ack)])
      ensures Holds(r, targets)
      ensures Wrote(old(store.Written()), store.Written(), r.id, AckWrites(old(View()).cases[r.id], ack))
    {
      hide Shaped, FileOf, FilesOf, NoOrphans, Acknowledged, DistinctStages, NulFree, Counts, TargetsAt, Replaced;
      hide Wrote;
      WroteNothing(store.Written(), r.id);
      ghost var c := View().cases[r.id];
      FilesMirror(store.State());
      StageOfCurrent(c);
      CurrentIsStored(store.State(), r.id);
      AckMarksCurrent(c, ack);
      var copy := store.ListStageTargets(r.id, r.currentStageID);
      counted := ApplyAck(copy, ack);
      targets := copy[..];
      if counted {
        ReplaceCurrent(r, targets);
      } else {
        UncountedChangesNothing(c, ack);
      }
    }

    /** Write the targets of the current stage back. */
    method ReplaceCurrent(r: Rollout, targets: seq<StageTarget>)
      requires StoreInv(store.State()) && r.id in View().cases && View().cases[r.id].r == r
      requires Shaped(View().cases[r.id])
      modifies store
      ensures StoreInv(store.State())
      ensures View() == WithCurrent(old(View()), r.id, targets)
      ensures Indexed(old(View()).cases[r.id])
      ensures Wrote(old(store.Written()), store.Written(), r.id, [WithCurrent(old(View()), r.id, targets).cases[r.id]])
    {
      hide Shaped, FileOf, FilesOf, NoOrphans, DistinctStages, NulFree, Wrote;
      ghost var c := View().cases[r.id];
      FilesMirror(store.State());
      StageOfCurrent(c);
      ghost var replaced := Replaced(store.State(), r.id, r.currentStageID, targets);
      TargetsView(store.State(), replaced, r.id, Position(c), targets);
      WroteOne(store.Written(), replaced, r.id, WithCurrent(View(), r.id, targets).cases[r.id]);
      store.ReplaceStageTargets(r.id, r.currentStageID, targets);
    }

    /** Acknowledge, once the rollout is known to be running. */
    method AcknowledgeRunning(r: Rollout, ack: Ack, tick: Tick) returns (result: Result<AckReport, ServiceError>)
      requires Keyed(store.State()) && r.id in View().cases && View().cases[r.id].r == r && Indexed(View().cases[r.id])
      requires r.id == ack.rolloutID && !Terminal(r.state) && Timely(View().cases[r.id], tick) && AllIndexed(View())
      requires Valid()
      modifies store, registry.store
      ensures Keyed(store.State())
      ensures result == Ok(ReportOf(old(View()).cases[r.id], ack, AckEffect(hash, old(View()), r.id, ack, tick)))
      ensures View() == Settle(old(View()), r.id, AckEffect(hash, old(View()), r.id, ack, tick), tick.clock.save)
      ensures Valid()
      ensures Wrote(old(store.Written()), store.Written(), r.id,
                    EventWrites(hash, old(View()).cases[r.id],
                                AckVisit(ack, agents.agents, old(store.nextRevision), tick)))
    {
      hide WorldInv, NoOrphans, FileOf, FilesOf, Settle, Progress, Shaped, Fit, DistinctStages, NulFree, Acknowledged;
      hide Counts;
      hide Holds, Timely, Current, CoverageOf, AckCase, Wrote, AckWrites, ProgressWrites;
      ghost var c := View().cases[r.id];
      FilesMirror(store.State());
      AckIsSound(hash, View(), ack, tick);
      var counted, targets := MarkTarget(r, ack);
      ghost var between := store.Written();
      var visited := VisitTargets(r, targets, tick);
      AcknowledgedWrote(hash, c, ack, agents.agents, old(store.nextRevision), tick,
                        old(store.Written()), between, store.Written());
      var coverage := AcknowledgementCoverage(targets);
      result := match visited case Ok(p) => Ok(AckReport(counted, coverage, p.0, p.1)) case Err(e) => Err(e);
    }

    method Acknowledge(ack: Ack, tick: Tick) returns (result: Result<AckReport, ServiceError>)
      requires Valid()
      requires ack.rolloutID in View().cases ==> Timely(View().cases[ack.rolloutID], tick)
      modifies store, registry.store
      ensures Valid() && AllIndexed(old(View()))
      ensures match W.Acknowledge(hash, old(View()), ack, tick)
        case Ok(p) =>
          result == Ok(p.1) && View() == p.0
          && Wrote(old(store.Written()), store.Written(), ack.rolloutID,
                   EventWrites(hash, old(View()).cases[ack.rolloutID],
                               AckVisit(ack, agents.agents, old(store.nextRevision), tick)))
        case Err(e) => result == Err(e) && View() == old(View()) && store.Written() == old(store.Written())
    {
      hide WorldInv, NoOrphans, FileOf, FilesOf, Settle, Progress, DistinctStages, NulFree, Acknowledged, Counts;
      hide AckCase, Timely;
      hide Wrote, EventWrites;
      FilesMirror(store.State());
      InvIsIndexed(hash, View());
      var stored := store.GetRollout(ack.rolloutID);
      match stored {
        case Err(e) => result := Err(e);
        case Ok(r) =>
          if Terminal(r.state) {
            return Err(Conflict);
          }
          result := AcknowledgeRunning(r, ack, tick);
      }
    }

    /** Visit every active rollout once. Whatever the clock and the queries answer, no visit fails. */
    method ReconcileActive(ticks: map<string, Tick>)
      returns (result: Result<(), ServiceError>, ghost order: seq<string>)
      requires Valid() && Ticked(View(), ticks)
      modifies store, registry.store
      ensures Valid() && result.Ok?
      ensures Distinct(order) && ActiveOnes(old(View()), order)
      ensures View() == VisitAll(hash, old(View()), order, ticks)
    {
      hide WorldInv, NoOrphans, FileOf, FilesOf, Settle, VisitRollout, Distinct, ActiveOnes, Timely;
      ghost var w := View();
      FilesMirror(store.State());
      ActiveOfInv(hash, w);
      ghost var keys;
      var active;
      active, keys := store.ListActiveRollouts();
      order := seq(|active|, i requires 0 <= i < |active| => active[i].id);
      KeysOrderTheActive(w, keys, order);
      for i := 0 to |active|
        invariant Valid() && View() == VisitAll(hash, w, order[..i], ticks)
        invariant forall j :: i <= j < |order| ==>
          order[j] in View().cases && View().cases[order[j]] == w.cases[order[j]]
      {
        if Terminal(active[i].state) {
          continue;
        }
        ghost var before := View();
        NextVisit(hash, w, order, i, ticks);
        var visited := ReconcileRollout(active[i], ticks[active[i].id]);
        VisitLeavesOthers(hash, before, order[i], ticks[order[i]]);
        match visited {
          case Err(e) => return Err(e), order;
          case Ok(_) =>
        }
      }
      assert order[..|active|] == order;
      result := Ok(());
    }

    method GetRollout(rolloutID: string) returns (result: Result<(Rollout, seq<StageTarget>, Coverage), ServiceError>)
      requires Valid()
      ensures result.Ok? <==> rolloutID in View().cases
      ensures result.Err? ==> result.error == NotFound
      ensures rolloutID in View().cases ==> Indexed(View().cases[rolloutID])
      ensures result.Ok? ==>
        (var c := View().cases[rolloutID]; result.value == (c.r, Current(c), CoverageOf(Current(c))))
    {
      var stored := store.GetRollout(rolloutID);
      match stored {
        case Err(e) => result := Err(e);
        case Ok(r) =>
          assert Inv(hash, View().cases[rolloutID]);
          CurrentIsStored(store.State(), rolloutID);
          var copy := store.ListStageTargets(r.id, r.currentStageID);
          var coverage := AcknowledgementCoverage(copy[..]);
          result := Ok((r, copy[..], coverage));
      }
    }

    method ActiveRollout(configDefinitionID: string, environment: string)
      returns (result: Result<(Rollout, seq<StageTarget>), ServiceError>)
      requires Valid()
      ensures ActiveKey(configDefinitionID, environment) !in View().active ==> result == Err(NotFound)
      ensures ActiveKey(configDefinitionID, environment) in View().active ==>
        (var id := View().active[ActiveKey(configDefinitionID, environment)];
         id in View().cases && Indexed(View().cases[id]) && !Terminal(View().cases[id].r.state)
         && result == Ok((View().cases[id].r, Current(View().cases[id]))))
    {
      var found := store.GetActiveRollout(configDefinitionID, environment);
      match found {
        case Err(e) => result := Err(e);
        case Ok(r) =>
          assert Inv(hash, View().cases[r.id]);
          CurrentIsStored(store.State(), r.id);
          var copy := store.ListStageTargets(r.id, r.currentStageID);
          result := Ok((r, copy[..]));
      }
    }
  }

  /** The world once a rollout is stored and indexed, before its first stage is activated. */
  function Opened(w: World, r: Rollout, stages: seq<Stage>): World {
    w.(cases := w.cases[r.id := Case(r, stages, seq(|stages|, _ => []))], active := w.active[KeyOf(r) := r.id])
  }

  lemma {:induction false} OpenedFile(w: World, r: Rollout, stages: seq<Stage>)
    ensures var w' := Opened(w, r, stages);
      && r.id in w'.cases && w'.cases[r.id] == Case(r, stages, seq(|stages|, _ => []))
      && w'.cases == w.cases[r.id := w'.cases[r.id]] && w'.nextRevision == w.nextRevision
  {
  }

  lemma {:induction false} LaunchWrote(
      before: Trail, after: Trail, w: World, w': World, r: Rollout, stages: seq<Stage>, targets: seq<StageTarget>)
    requires StoreInv(before.now) && Keyed(after.now) && w.cases == FilesOf(before.now)
    requires w'.cases == FilesOf(after.now)
    requires r.id !in before.now.rollouts && NulFree(r.id) && DistinctStages(stages) && |stages| > 0
    requires var opening := Opened(w, r, stages);
      r.id in opening.cases && 0 < |opening.cases[r.id].cohorts| && w' == Activation(opening, r.id, 0, targets)
    requires var inserted := Inserted(before.now, r, stages);
      after.log == before.log + [inserted] + [Bumped(inserted), after.now]
    ensures r.id in w'.cases && Wrote(before, after, r.id, CreationWrites(w'.cases[r.id]))
  {
    hide NoOrphans, FileOf, FilesOf, DistinctStages, NulFree, Wrote, Inserted, Opened, Activation, CreationWrites;
    OpenedFile(w, r, stages);
    ActivationReplacesOneFile(Opened(w, r, stages), r.id, 0, targets);
    CreationWrote(before, after, r, stages, targets);
  }

  predicate Taken(w: World, r: Rollout) {
    KeyOf(r) in w.active && w.active[KeyOf(r)] in w.cases && !Terminal(w.cases[w.active[KeyOf(r)]].r.state)
  }

  /** What storing and activating the first stage relies on. */
  predicate Openable(w: World, r: Rollout, id: string, stages: seq<Stage>) {
    && |stages| > 0 && stages[0].id != "" && DistinctStages(stages)
    && r.id == id && r.id != "" && NulFree(r.id) && r.state == Deploying
    && r.configDefinitionID != "" && r.candidateVersionID != ""
    && w.nextRevision >= 1 && (forall j :: 0 <= j < |w.agents| ==> w.agents[j].id != "")
  }

  lemma {:induction false} AcceptedIsLinked(
      s: Registry, input: RolloutInput, plan: seq<Stage>, id: string, g: Grounds, first: string, now: Time)
    requires CheckInput(s, input, plan) == Ok(g) && ConfigRegistry.RegistryInv(s)
    ensures Linked(s, NewRecord(input, g, id, first, now))
  {
    hide ConfigRegistry.NumbersAgree, ConfigRegistry.PointersExist, ConfigRegistry.VersionsNumbered;
    hide ConfigRegistry.KeysAgree;
    hide ValidPlan, RuleProblem, FindGrounds, Grounded, Linked, NewRecord;
    GroundsAreLinked(s, input);
    NewRecordIsLinked(s, input, g, id, first, now);
  }

  lemma {:induction false} RefusedInput(
      h: Hash, w: World, input: RolloutInput, plan: seq<Stage>, id: string, clock: Clock)
    ensures CheckInput(w.registry, input, plan).Err? ==>
      W.CreateRollout(h, w, input, plan, id, clock) == Err(CheckInput(w.registry, input, plan).error)
  {
    hide CheckInput;
  }

  lemma {:induction false} AcceptedPlan(w: World, input: RolloutInput, plan: seq<Stage>, g: Grounds)
    requires CheckInput(w.registry, input, plan) == Ok(g)
    ensures |RequestedPlan(input, plan)| > 0
  {
    hide FindGrounds, RuleProblem;
  }

  lemma {:induction false} AcceptedIsOpenable(
      h: Hash, w: World, input: RolloutInput, plan: seq<Stage>, id: string, g: Grounds, now: Time)
    requires WorldInv(h, w) && CheckInput(w.registry, input, plan) == Ok(g) && Creatable(input, plan, id)
    ensures var stages := RequestedPlan(input, plan);
      |stages| > 0 && Openable(w, NewRecord(input, g, id, stages[0].id, now), id, stages)
  {
    hide Files, ActiveAgrees, RegistryLinks, PointersHeld, Linked, ConfigRegistry.NumbersAgree;
    hide ConfigRegistry.PointersExist, Registered;
    var stages := RequestedPlan(input, plan);
    assert ValidStage(stages[0], PreviousPercentage(stages, 0));
    AcceptedIsLinked(w.registry, input, plan, id, g, stages[0].id, now);
    NamesAreGiven(w.registry, NewRecord(input, g, id, stages[0].id, now));
    FirstRevision(w);
  }

  lemma {:induction false} CreatedWorld(
      h: Hash, w: World, input: RolloutInput, plan: seq<Stage>, id: string, g: Grounds, clock: Clock)
    requires CheckInput(w.registry, input, plan) == Ok(g) && |RequestedPlan(input, plan)| > 0
    ensures var stages := RequestedPlan(input, plan);
      var r := NewRecord(input, g, id, stages[0].id, clock.save);
      var targets := Cohort(h, r, stages[0], FilterAgents(w.agents, r.environment, r.targetServices), w.nextRevision,
                            clock.build);
      var w' := Activation(Opened(w, r, stages), id, 0, targets);
      var refusal := if id in w.cases then AlreadyExists else Conflict;
      && r.id == id && r.state == Deploying
      && W.CreateRollout(h, w, input, plan, id, clock)
        == (if id in w.cases || Taken(w, r) then Err(refusal) else Ok(w'))
      && (id in w.cases || Taken(w, r) ==> Answers(h, w, w, input, plan, id, clock, Err(refusal)))
      && (id !in w.cases && !Taken(w, r) && Creatable(input, plan, id) ==>
            Answers(h, w, w', input, plan, id, clock, Ok((r, targets))))
  {
    hide Cohort, CheckInput;
    var stages := RequestedPlan(input, plan);
    var r := NewRecord(input, g, id, stages[0].id, clock.save);
    var targets := Cohort(h, r, stages[0], FilterAgents(w.agents, r.environment, r.targetServices), w.nextRevision,
                          clock.build);
    var empty: seq<seq<StageTarget>> := seq(|stages|, _ => []);
    assert empty[0] + targets == targets;
    assert [targets] + seq(|stages| - 1, _ => []) == empty[0 := targets];
    var c := NewCase(h, r, stages, w.agents, w.nextRevision, clock.build);
    assert c.cohorts == empty[0 := targets];
    assert Creatable(input, plan, id) ==> !Verifying(c) && Current(c) == targets;
    assert Opened(w, r, stages).cases[id].cohorts == empty;
    var w' := Activation(Opened(w, r, stages), id, 0, targets);
    assert w'.cases[id] == c;
    assert w'.cases == w.cases[id := c];
  }

  /** A tick for every active rollout, none before its stage began. */
  predicate Ticked(w: World, ticks: map<string, Tick>) {
    forall id :: id in w.cases && !Terminal(w.cases[id].r.state) ==> id in ticks && Timely(w.cases[id], ticks[id])
  }

  predicate Distinct(order: seq<string>) {
    forall i, j :: 0 <= i < j < |order| ==> order[i] != order[j]
  }

  ghost predicate ActiveOnes(w: World, order: seq<string>) {
    forall id :: id in order <==> id in w.cases && !Terminal(w.cases[id].r.state)
  }

  lemma {:induction false} ActiveOfInv(h: Hash, w: World)
    requires WorldInv(h, w)
    ensures ActiveAgrees(w)
  {
  }

  lemma {:induction false} KeysOrderTheActive(w: World, keys: seq<string>, order: seq<string>)
    requires ActiveAgrees(w) && |keys| == |order|
    requires forall i :: 0 <= i < |keys| ==> keys[i] in w.active && w.active[keys[i]] == order[i]
    requires forall i, j :: 0 <= i < j < |keys| ==> keys[i] != keys[j]
    requires forall k :: k in w.active && !Terminal(w.cases[w.active[k]].r.state) ==> k in keys
    ensures Distinct(order) && ActiveOnes(w, order)
  {
    forall id | id in w.cases && !Terminal(w.cases[id].r.state) ensures id in order {
      var i :| 0 <= i < |keys| && keys[i] == KeyOf(w.cases[id].r);
      assert order[i] == id;
    }
  }

  lemma {:induction false} NextVisit(h: Hash, w: World, order: seq<string>, i: nat, ticks: map<string, Tick>)
    requires i < |order|
    ensures VisitAll(h, w, order[..i + 1], ticks) ==
      (var before := VisitAll(h, w, order[..i], ticks);
       var id := order[i];
       if id in before.cases && Indexed(before.cases[id]) && id in ticks then VisitRollout(h, before, id, ticks[id])
       else before)
  {
    hide VisitRollout, Indexed;
    assert order[..i + 1][..i] == order[..i];
  }

  lemma {:induction false} VisitLeavesOthers(h: Hash, w: World, id: string, t: Tick)
    requires id in w.cases && Indexed(w.cases[id])
    ensures forall j :: j in w.cases && j != id ==>
      j in VisitRollout(h, w, id, t).cases && VisitRollout(h, w, id, t).cases[j] == w.cases[j]
  {
    hide NextEffect;
  }

  lemma {:induction false} FirstProblemStands(rules: seq<Rule>, i: nat)
    requires i <= |rules|
    ensures RuleProblem(rules[..i]).Some? ==> RuleProblem(rules) == RuleProblem(rules[..i])
    decreases |rules|
  {
    if i < |rules| {
      var front := rules[..|rules| - 1];
      assert front[..i] == rules[..i];
      FirstProblemStands(front, i);
    } else {
      assert rules[..i] == rules;
    }
  }

  /** What the system invariant gives a visit to rollout `id`. */
  ghost predicate Fit(w: World, id: string) {
    && id in w.cases && Indexed(w.cases[id])
    && (Delivering(w.cases[id]) ==> Promotable(w.cases[id]))
    && (!Verifying(w.cases[id]) ==>
          forall i :: 0 <= i < |w.cases[id].stages| ==> w.cases[id].stages[i].id != VerificationID(id))
    && ValidRules(w.cases[id].r.guardrails) && NonNegative(w.cases[id].r.guardrailFailures)
    && ConfigRegistry.RegistryInv(w.registry) && Linked(w.registry, w.cases[id].r)
    && id != "" && w.cases[id].r.configDefinitionID != "" && w.cases[id].r.candidateVersionID != ""
    && w.nextRevision >= 1 && (forall j :: 0 <= j < |w.agents| ==> w.agents[j].id != "")
    && KeyOf(w.cases[id].r) in w.active && w.active[KeyOf(w.cases[id].r)] == id
  }

  lemma {:induction false} RollingBackProgress(h: Hash, c: Case, agents: seq<Agent>, revision: int, t: Tick)
    requires Indexed(c) && c.r.state == RollingBack
    ensures Progress(h, c, agents, revision, t) == RollbackEffect(c, revision, t)
    ensures Progress(h, c, agents, revision, t).decision == DecisionWait
  {
  }

  lemma {:induction false} NewStageOfView(db: Db, id: string, stageID: string)
    requires Keyed(db) && id in db.rollouts
    requires forall i :: 0 <= i < |db.stages[id]| ==> db.stages[id][i].id != stageID
    ensures !HasStage(db, id, stageID)
  {
  }

  lemma {:induction false} NamesAreGiven(s: ConfigRegistry.Registry, r: Rollout)
    requires ConfigRegistry.KeysAgree(s) && ConfigRegistry.VersionsNumbered(s) && Linked(s, r)
    ensures r.configDefinitionID != "" && r.candidateVersionID != ""
  {
    assert Blank("");
    VersionsAreNumbered(s, r.configDefinitionID);
  }

  /** The part of Fit that one file decides. */
  predicate FitFile(c: Case) {
    && Indexed(c) && (Delivering(c) ==> Promotable(c))
    && (!Verifying(c) ==> forall i :: 0 <= i < |c.stages| ==> c.stages[i].id != VerificationID(c.r.id))
    && ValidRules(c.r.guardrails) && NonNegative(c.r.guardrailFailures)
  }

  lemma {:induction false} InvFileIsFit(h: Hash, c: Case)
    requires Inv(h, c) && !Terminal(c.r.state)
    ensures FitFile(c) && Shaped(c) && (Delivering(c) || c.r.state == RollingBack)
  {
    hide Nested, Mirrored, Earned, Paced, Guarded, Concluded;
    if Delivering(c) {
      DeliveringIsPromotable(h, c);
    }
  }

  lemma {:induction false} InvIsFit(h: Hash, w: World, id: string)
    requires WorldInv(h, w) && id in w.cases && !Terminal(w.cases[id].r.state)
    ensures Fit(w, id) && w.cases[id].r.id == id && Shaped(w.cases[id])
    ensures Delivering(w.cases[id]) || w.cases[id].r.state == RollingBack
  {
    hide RevisionsUnique, PointersHeld, ConfigRegistry.NumbersAgree, ConfigRegistry.PointersExist, Inv, Linked, Shaped;
    hide Promotable, Registered, DistinctAgents;
    InvFileIsFit(h, w.cases[id]);
    NamesAreGiven(w.registry, w.cases[id].r);
    FirstRevision(w);
  }

  lemma {:induction false} FirstRevision(w: World)
    requires RevisionsUnique(w)
    ensures w.nextRevision >= 1
  {
  }

  lemma {:induction false} InvIsIndexed(h: Hash, w: World)
    requires WorldInv(h, w)
    ensures forall id :: id in w.cases ==> Indexed(w.cases[id]) && w.cases[id].r.id == id
  {
    forall id | id in w.cases ensures Indexed(w.cases[id]) && w.cases[id].r.id == id {
      assert Inv(h, w.cases[id]);
    }
  }

  lemma {:induction false} VisitIsSound(h: Hash, w: World, id: string, t: Tick)
    requires WorldInv(h, w) && id in w.cases && !Terminal(w.cases[id].r.state) && Timely(w.cases[id], t)
    ensures AllIndexed(w) && Fit(w, id) && w.cases[id].r.id == id && Shaped(w.cases[id])
    ensures Delivering(w.cases[id]) || w.cases[id].r.state == RollingBack
    ensures VisitRollout(h, w, id, t)
      == Settle(w, id, Progress(h, w.cases[id], w.agents, w.nextRevision, t), t.clock.save)
    ensures WorldInv(h, VisitRollout(h, w, id, t))
  {
    hide Inv, Fit, Progress, Settle;
    InvIsFit(h, w, id);
    InvIsIndexed(h, w);
    var e := Visit(w.agents, w.nextRevision, t);
    SettleKeepsWorldInv(h, w, id, e, NextEffect(h, w.cases[id], e), t.clock.save);
  }

  lemma {:induction false} StageOfCurrent(c: Case)
    requires Shaped(c)
    ensures Indexed(c) && c.stages[Position(c)].id == c.r.currentStageID
  {
  }

  lemma {:induction false} UncountedChangesNothing(c: Case, ack: Ack)
    requires Indexed(c) && !Counts(Current(c), ack)
    ensures AckCase(c, ack) == c && Acknowledged(Current(c), ack) == Current(c)
  {
    assert c.cohorts[Position(c) := Current(c)] == c.cohorts;
  }

  lemma {:induction false} AckKeepsFit(w: World, id: string, ack: Ack)
    requires Fit(w, id)
    ensures Fit(w.(cases := w.cases[id := AckCase(w.cases[id], ack)]), id)
  {
    hide ConfigRegistry.RegistryInv, Linked, Acknowledged;
  }

  lemma {:induction false} SettlingAfterAck(w: World, id: string, a: Case, e: Effect, now: Time)
    requires id in w.cases
    ensures Settle(w.(cases := w.cases[id := a]), id, e, now) == Settle(w, id, e, now)
  {
  }

  lemma {:induction false} AckVisitKeepsWorldInv(h: Hash, w: World, ack: Ack, t: Tick)
    requires WorldInv(h, w) && ack.rolloutID in w.cases && !Terminal(w.cases[ack.rolloutID].r.state)
    requires Timely(w.cases[ack.rolloutID], t) && Indexed(w.cases[ack.rolloutID])
    ensures WorldInv(h, Settle(w, ack.rolloutID,
      Progress(h, AckCase(w.cases[ack.rolloutID], ack), w.agents, w.nextRevision, t), t.clock.save))
  {
    hide WorldInv, Inv, Progress, Settle, AckCase;
    var e := AckVisit(ack, w.agents, w.nextRevision, t);
    CaseOfInv(h, w, ack.rolloutID);
    AgentsOfInv(h, w, ack.rolloutID);
    SettleKeepsWorldInv(h, w, ack.rolloutID, e, NextEffect(h, w.cases[ack.rolloutID], e), t.clock.save);
  }

  /** The world once the acknowledged target is marked, before the visit. */
  function Marked(w: World, id: string, ack: Ack): World
    requires id in w.cases && Indexed(w.cases[id])
  {
    w.(cases := w.cases[id := AckCase(w.cases[id], ack)])
  }

  /** A marked file is as fit for a visit as it was before, and settles to what World.dfy says. */
  lemma {:induction false} AckIsSound(h: Hash, w: World, ack: Ack, t: Tick)
    requires ack.rolloutID in w.cases && Indexed(w.cases[ack.rolloutID])
    requires WorldInv(h, w) && !Terminal(w.cases[ack.rolloutID].r.state) && Timely(w.cases[ack.rolloutID], t)
    ensures Shaped(w.cases[ack.rolloutID]) && w.cases[ack.rolloutID].r.id == ack.rolloutID
    ensures Delivering(w.cases[ack.rolloutID]) || w.cases[ack.rolloutID].r.state == RollingBack
    ensures Fit(Marked(w, ack.rolloutID, ack), ack.rolloutID)
    ensures AckCase(w.cases[ack.rolloutID], ack).r == w.cases[ack.rolloutID].r
    ensures Settle(Marked(w, ack.rolloutID, ack), ack.rolloutID, AckEffect(h, w, ack.rolloutID, ack, t), t.clock.save)
      == Settle(w, ack.rolloutID, AckEffect(h, w, ack.rolloutID, ack, t), t.clock.save)
    ensures WorldInv(h, Settle(w, ack.rolloutID, AckEffect(h, w, ack.rolloutID, ack, t), t.clock.save))
  {
    hide WorldInv, Inv, Fit, Shaped, Progress, Settle, Acknowledged;
    var c := w.cases[ack.rolloutID];
    InvIsFit(h, w, ack.rolloutID);
    AckKeepsFit(w, ack.rolloutID, ack);
    AckVisitKeepsWorldInv(h, w, ack, t);
    SettlingAfterAck(w, ack.rolloutID, AckCase(c, ack), Progress(h, AckCase(c, ack), w.agents, w.nextRevision, t),
                     t.clock.save);
  }

  lemma {:induction false} AgentsOfInv(h: Hash, w: World, id: string)
    requires WorldInv(h, w) && id in w.cases
    ensures DistinctAgents(w.agents) && InReach(w.cases[id], w.agents)
  {
  }

  lemma {:induction false} CaseOfInv(h: Hash, w: World, id: string)
    requires WorldInv(h, w) && id in w.cases
    ensures Inv(h, w.cases[id])
  {
  }

  lemma {:induction false} CurrentIsStored(db: Db, id: string)
    requires Keyed(db) && id in db.rollouts && Shaped(FilesOf(db)[id])
    ensures TargetsAt(db, id, db.rollouts[id].currentStageID) == Current(FilesOf(db)[id])
  {
    var c := FilesOf(db)[id];
    assert c == FileOf(db, id);
    assert c.cohorts[Position(c)] == TargetsAt(db, id, c.stages[Position(c)].id);
  }

  /** A visit's effect once its decision is made. */
  function ActEffect(h: Hash, c: Case, decision: StageDecision, agents: seq<Agent>, revision: int, t: Tick): Effect
    requires Indexed(c)
  {
    match decision
    case DecisionPromote => PromoteEffect(h, c, agents, revision, t)
    case DecisionRollback => Effect(WithState(c, RollingBack, t.clock.save), false, false, DecisionRollback)
    case DecisionPause =>
      Effect(if c.r.state == Paused then c else WithState(c, Paused, t.clock.save), false, false, DecisionPause)
    case DecisionWait => Effect(c, false, false, DecisionWait)
  }

  lemma {:induction false} SavingSettles(w: World, r: Rollout, decision: StageDecision, now: Time)
    requires r.id in w.cases
    ensures Saved(w, r) == Settle(w, r.id, Effect(w.cases[r.id].(r := r), false, false, decision), now)
  {
  }

  lemma {:induction false} NothingSettles(w: World, id: string, decision: StageDecision, now: Time)
    requires id in w.cases && !Terminal(w.cases[id].r.state)
    requires KeyOf(w.cases[id].r) in w.active && w.active[KeyOf(w.cases[id].r)] == id
    ensures Settle(w, id, Effect(w.cases[id], false, false, decision), now) == w
  {
    assert w.cases[id := w.cases[id]] == w.cases;
    assert w.active[KeyOf(w.cases[id].r) := id] == w.active;
  }

  /** The world after the guardrail round of a visit, if there was one. */
  function Evaluated(w: World, id: string, t: Tick): World
    requires id in w.cases && w.cases[id].r.id == id && Indexed(w.cases[id])
  {
    if Consults(w.cases[id], t) then Saved(w, Observed(w.cases[id], t).r) else w
  }

  lemma {:induction false} SettlingAfterSaving(w: World, id: string, c: Case, e: Effect, now: Time)
    requires id in w.cases && c.r.id == id && c == w.cases[id].(r := c.r)
    requires !Terminal(c.r.state) && KeyOf(e.next.r) == KeyOf(c.r)
    ensures Settle(Saved(w, c.r), id, e, now) == Settle(w, id, e, now)
  {
  }

  lemma {:induction false} ActKeepsKey(
      h: Hash, c: Case, decision: StageDecision, agents: seq<Agent>, revision: int, t: Tick)
    requires Indexed(c)
    ensures KeyOf(ActEffect(h, c, decision, agents, revision, t).next.r) == KeyOf(c.r)
    ensures ActEffect(h, c, decision, agents, revision, t).decision == decision
  {
  }

  lemma {:induction false} ProgressActs(h: Hash, c: Case, agents: seq<Agent>, revision: int, t: Tick)
    requires Indexed(c) && Delivering(c)
    ensures Progress(h, c, agents, revision, t) == ActEffect(h, Observed(c, t), Decide(c, t), agents, revision, t)
  {
    hide PromoteEffect, RoundStatus, Round, StageProgress;
  }

  lemma {:induction false} EvaluationSettles(h: Hash, w: World, id: string, agents: seq<Agent>, t: Tick)
    requires id in w.cases && w.cases[id].r.id == id && Promotable(w.cases[id])
    requires KeyOf(w.cases[id].r) in w.active && w.active[KeyOf(w.cases[id].r)] == id
    ensures var c, w1 := w.cases[id], Evaluated(w, id, t);
      && w1.cases.Keys == w.cases.Keys && w1.cases[id] == Observed(c, t) && Promotable(w1.cases[id])
      && SameIdentity(c.r, w1.cases[id].r) && w1.cases[id].r.id == id && w1.cases[id].stages == c.stages
      && w1.cases[id].r.configDefinitionID == c.r.configDefinitionID && KeyOf(w1.cases[id].r) == KeyOf(c.r)
      && w1.cases[id].r.candidateVersionID == c.r.candidateVersionID && w1.registry == w.registry
      && w1.agents == w.agents
      && w1.nextRevision == w.nextRevision && w1.active == w.active
      && Settle(w1, id, ActEffect(h, w1.cases[id], Decide(c, t), agents, w.nextRevision, t), t.clock.save)
         == Settle(w, id, Progress(h, c, agents, w.nextRevision, t), t.clock.save)
      && Progress(h, c, agents, w.nextRevision, t)
        == ActEffect(h, w1.cases[id], Decide(c, t), agents, w.nextRevision, t)
      && Progress(h, c, agents, w.nextRevision, t).decision == Decide(c, t)
  {
    hide ActEffect, Decide, Progress, Round, StageProgress, Settle;
    var c := w.cases[id];
    ProgressActs(h, c, agents, w.nextRevision, t);
    ActKeepsKey(h, Observed(c, t), Decide(c, t), agents, w.nextRevision, t);
    if Consults(c, t) {
      SettlingAfterSaving(w, id, Observed(c, t), Progress(h, c, agents, w.nextRevision, t), t.clock.save);
      assert w.active[KeyOf(c.r) := id] == w.active;
    }
  }

  lemma {:induction false} StatusesSnoc(evaluations: seq<Evaluation>, e: Evaluation)
    ensures (set x | x in evaluations + [e] :: x.status) == (set x | x in evaluations :: x.status) + {e.status}
  {
    assert e in evaluations + [e];
    forall x | x in evaluations ensures x in evaluations + [e] {
    }
  }

  function BegunRecord(r: Rollout, at: Time): Rollout {
    r.(currentStageID := VerificationID(r.id), stageStartedAt := at, updatedAt := at)
  }

  lemma {:induction false} VerificationIsSettled(w: World, id: string, t: Tick)
    requires id in w.cases && w.cases[id].r.id == id && Indexed(w.cases[id]) && w.cases[id].r.state == RollingBack
    requires !Verifying(w.cases[id])
    ensures var c := w.cases[id];
      var begun := BegunRecord(c.r, t.clock.decide);
      var checks := VerificationTargets(c.r, Current(c), w.nextRevision, t.clock.decide);
      var saved := Saved(WithVerification(w.(nextRevision := w.nextRevision + 1), c.r, checks), begun);
      var ended := begun.(state := RolledBack, rollbackStatus := Verified, updatedAt := t.clock.save);
      && RollbackEffect(c, w.nextRevision, t).next.r == (if checks == [] then ended else begun)
      && Settle(w, id, RollbackEffect(c, w.nextRevision, t), t.clock.save)
         == if checks == [] then Saved(saved, ended) else saved
  {
  }

  lemma {:induction false} VerificationStored(db: Db, staged: Db, stored: Db, r: Rollout, checks: seq<StageTarget>)
    requires StoreInv(db) && r.id in db.rollouts && db.rollouts[r.id] == r && !HasStage(db, r.id, VerificationID(r.id))
    requires forall k :: 0 <= k < |checks| ==> checks[k].rolloutID == r.id && checks[k].stageID == VerificationID(r.id)
    requires staged == WithStage(db, r.id, Stage(VerificationID(r.id), 100, 0))
    requires stored == staged.(targets := AppendedAll(staged.targets, checks))
    ensures StoreInv(stored)
    ensures FilesOf(stored) == FilesOf(db)[r.id :=
      Case(r, db.stages[r.id] + [Stage(VerificationID(r.id), 100, 0)], FilesOf(db)[r.id].cohorts + [checks])]
  {
    hide FileOf, FilesOf, NoOrphans, AppendedAll, HasStage, WithStage, DistinctStages, NulFree;
    var stage := Stage(VerificationID(r.id), 100, 0);
    FilesMirror(db);
    StageView(db, r.id, stage);
    NewStageIsSaved(db, r.id, stage);
    var n, cohorts := |db.stages[r.id]|, FilesOf(db)[r.id].cohorts;
    assert FilesOf(staged)[r.id] == Case(r, staged.stages[r.id], cohorts + [[]]);
    AppendView(staged, stored, r.id, n, checks);
    LastCohortFilled(cohorts, checks);
    assert FilesOf(stored)[r.id] == Case(r, staged.stages[r.id], cohorts + [checks]);
  }

  lemma {:induction false} NewStageIsSaved(db: Db, id: string, stage: Stage)
    requires Keyed(db) && id in db.rollouts && !HasStage(db, id, stage.id)
    ensures WithStage(db, id, stage) == db.(stages := db.stages[id := db.stages[id] + [stage]])
  {
  }

  lemma {:induction false} RevisionKeepsStages(db: Db, n: int, id: string, stageID: string)
    requires !HasStage(db, id, stageID)
    ensures !HasStage(db.(nextRevision := n), id, stageID)
  {
  }

  lemma {:induction false} LastCohortFilled(cohorts: seq<seq<StageTarget>>, checks: seq<StageTarget>)
    ensures (cohorts + [[]])[|cohorts| := (cohorts + [[]])[|cohorts|] + checks] == cohorts + [checks]
  {
    assert (cohorts + [[]])[|cohorts|] == [];
    assert [] + checks == checks;
  }

  lemma {:induction false} CompletionSucceeds(s: ConfigRegistry.Registry, r: Rollout, now: Time)
    requires ConfigRegistry.RegistryInv(s) && Linked(s, r)
    ensures Completion(s, r, now).Ok?
    ensures Completion(s, r.(state := Completed, updatedAt := now), now) == Completion(s, r, now)
  {
    hide ConfigRegistry.RegistryInv, Linked;
    CompletionSetsThePointer(s, r, now);
  }

  /** A delivering file whose next stage, if there is one, is still empty. */
  predicate Promotable(c: Case) {
    && Indexed(c) && Delivering(c)
    && (c.r.currentStageIndex < |c.stages| - 1 ==>
          c.stages[c.r.currentStageIndex + 1].id != "" && c.cohorts[c.r.currentStageIndex + 1] == [])
  }

  lemma {:induction false} DeliveringIsPromotable(h: Hash, c: Case)
    requires Shaped(c) && Delivering(c) && Activated(h, c)
    ensures Promotable(c)
  {
    assert Plan(c) == c.stages;
    if c.r.currentStageIndex < |c.stages| - 1 {
      assert ValidStage(c.stages[c.r.currentStageIndex + 1], PreviousPercentage(c.stages, c.r.currentStageIndex + 1));
    }
  }

  lemma {:induction false} NextStageIsSettled(h: Hash, w: World, id: string, agents: seq<Agent>, t: Tick)
    requires id in w.cases && w.cases[id].r.id == id && Promotable(w.cases[id])
    requires w.cases[id].r.currentStageIndex < |w.cases[id].stages| - 1
    ensures var c := w.cases[id];
      var next := c.r.currentStageIndex + 1;
      var r := PromotedRecord(c, t.clock.save);
      Activation(Saved(w, r), id, next,
                 Cohort(h, r, c.stages[next], FilterAgents(agents, r.environment, r.targetServices),
                        w.nextRevision, t.clock.build))
      == Settle(w, id, PromoteEffect(h, c, agents, w.nextRevision, t), t.clock.save)
  {
    hide Cohort;
    var c := w.cases[id];
    var next := c.r.currentStageIndex + 1;
    var r := PromotedRecord(c, t.clock.save);
    var targets := Cohort(h, r, c.stages[next], FilterAgents(agents, r.environment, r.targetServices), w.nextRevision,
                          t.clock.build);
    assert c.cohorts[next] + targets == targets;
  }

  lemma {:induction false} TargetsAreAddressed(
      h: Hash, r: Rollout, s: Stage, scope: seq<Agent>, revision: int, at: Time)
    ensures forall k :: 0 <= k < |Cohort(h, r, s, scope, revision, at)| ==>
      Cohort(h, r, s, scope, revision, at)[k].rolloutID == r.id
      && Cohort(h, r, s, scope, revision, at)[k].stageID == s.id
  {
    forall k | 0 <= k < |Cohort(h, r, s, scope, revision, at)|
      ensures Cohort(h, r, s, scope, revision, at)[k].rolloutID == r.id
      ensures Cohort(h, r, s, scope, revision, at)[k].stageID == s.id
    {
      CohortStamps(h, r, s, scope, revision, at, k);
    }
  }
}
