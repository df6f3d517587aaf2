/** Progress, timing, history and uniqueness over every run. */
module RunTheorems {
  import opened Lifecycle
  import opened Cohorts
  import opened RolloutCase
  import opened CaseInvariant
  import opened CaseSteps
  import opened RolloutTheorems
  import opened World
  import opened SystemInvariant
  import opened SystemRuns

  // ----- Lifecycle -----

  /** Whatever lies between two moments, the later state is one the transition table leads to, and endings are final. */
  lemma {:induction false} StatesFollowTheTable(
      setup: Setup, run: seq<Sys>, steps: seq<Step>, i: nat, j: nat, id: string)
    requires IsRun(setup, run, steps) && i <= j < |run| && id in run[i].w.cases
    ensures id in run[j].w.cases
    ensures Stored(run[i].w.cases[id].r.state) && Reaches(run[i].w.cases[id].r.state, run[j].w.cases[id].r.state)
    ensures Terminal(run[i].w.cases[id].r.state) ==> run[j].w.cases[id] == run[i].w.cases[id]
    ensures run[j].w.cases[id].r.state == RolledBack <==> run[j].w.cases[id].r.rollbackStatus != NoRollback
  {
    hide IsRun, Activated, Nested, Mirrored, Earned, Paced, Guarded, Concluded, Reaches, IsPath;
    RunExtends(setup, run, steps, i, j, id);
    StoredChangesAreTheTablesClosure(run[i].w.cases[id].r.state, run[j].w.cases[id].r.state);
  }

  /**
   * A rolled-back rollout is verified exactly when its check was covered or had nobody to ask, and partial otherwise.
   */
  lemma {:induction false} RollbacksConclude(setup: Setup, run: seq<Sys>, steps: seq<Step>, i: nat, id: string)
    requires IsRun(setup, run, steps) && i < |run| && id in run[i].w.cases && run[i].w.cases[id].r.state == RolledBack
    ensures var c := run[i].w.cases[id];
      Indexed(c) && Verifying(c) && (c.r.rollbackStatus == Verified || c.r.rollbackStatus == Partial)
      && (c.r.rollbackStatus == Verified <==> Current(c) == [] || CoverageReached(Current(c), c.r.requiredAckPercent))
      && (c.r.rollbackStatus == Partial ==> 0 < c.r.rollbackTimeout <= c.r.updatedAt - c.r.stageStartedAt)
  {
    hide IsRun, Activated, Nested, Mirrored, Earned, Paced, Guarded;
    ReachableStatesAreSound(setup, run, steps, i);
    CaseIsSound(setup.h, run[i], id);
  }

  // ----- Earned promotion and frozen cohorts -----

  /**
   * Every stage a rollout has left behind, at any moment of any run, holds a non-empty cohort that met the requirement.
   */
  lemma {:induction false} PromotionsAreEarned(
      setup: Setup, run: seq<Sys>, steps: seq<Step>, i: nat, id: string, stage: nat)
    requires IsRun(setup, run, steps) && i < |run| && id in run[i].w.cases
    requires stage < run[i].w.cases[id].r.currentStageIndex
          || (stage == run[i].w.cases[id].r.currentStageIndex && run[i].w.cases[id].r.state == Completed)
    ensures var c := run[i].w.cases[id];
      stage < |c.cohorts| && c.cohorts[stage] != []
      && CoverageOf(c.cohorts[stage]).percentage >= c.r.requiredAckPercent
  {
    hide IsRun, Activated, Nested, Mirrored, Paced, Guarded, Concluded;
    ReachableStatesAreSound(setup, run, steps, i);
    CaseIsSound(setup.h, run[i], id);
  }

  /** Once activated, a cohort keeps its agents, buckets, expected version and revision; acked targets stay acked. */
  lemma {:induction false} CohortsStayFrozen(
      setup: Setup, run: seq<Sys>, steps: seq<Step>, i: nat, j: nat, id: string, stage: nat, k: nat)
    requires IsRun(setup, run, steps) && i <= j < |run| && id in run[i].w.cases
    requires stage <= run[i].w.cases[id].r.currentStageIndex
    requires stage < |run[i].w.cases[id].cohorts| && k < |run[i].w.cases[id].cohorts[stage]|
    ensures id in run[j].w.cases && stage < |run[j].w.cases[id].cohorts|
    ensures |run[j].w.cases[id].cohorts[stage]| == |run[i].w.cases[id].cohorts[stage]|
    ensures SameTarget(run[i].w.cases[id].cohorts[stage][k], run[j].w.cases[id].cohorts[stage][k])
  {
    hide IsRun, Activated, Nested, Mirrored, Earned, Paced, Guarded, Concluded, SameTarget;
    RunExtends(setup, run, steps, i, j, id);
    assert Frozen(run[i].w.cases[id], stage);
  }

  // ----- Time -----

  /** A rollout whose minimum durations add up to its maximum duration completes in no run. */
  lemma {:induction false} SlowPlansNeverComplete(setup: Setup, run: seq<Sys>, steps: seq<Step>, i: nat, id: string)
    requires IsRun(setup, run, steps) && i < |run| && id in run[i].w.cases && Indexed(run[i].w.cases[id])
    requires var c := run[i].w.cases[id];
      0 < c.r.rolloutMaxDuration <= MinimumSum(Plan(c), |Plan(c)|)
    ensures run[i].w.cases[id].r.state != Completed
  {
    hide IsRun, Activated, Nested, Mirrored, Earned, Guarded, Concluded;
    ReachableStatesAreSound(setup, run, steps, i);
    CaseIsSound(setup.h, run[i], id);
    TooSlowPlanNeverCompletes(run[i].w.cases[id]);
  }

  /** A candidate stage starts no earlier than creation plus the minimum durations of the stages before it. */
  lemma {:induction false} StagesKeepTheirPace(setup: Setup, run: seq<Sys>, steps: seq<Step>, i: nat, id: string)
    requires IsRun(setup, run, steps) && i < |run| && id in run[i].w.cases
    ensures var c := run[i].w.cases[id];
      0 <= c.r.currentStageIndex <= |c.stages|
      && c.r.createdAt + MinimumSum(c.stages, c.r.currentStageIndex) <= c.r.stageStartedAt <= run[i].clock
  {
    hide IsRun, Activated, Nested, Mirrored, Earned, Guarded, Concluded;
    ReachableStatesAreSound(setup, run, steps, i);
    CaseIsSound(setup.h, run[i], id);
  }

  // ----- Guaranteed end -----

  predicate Visits(step: Step, id: string) {
    step.VisitStep? && step.id == id
  }

  lemma {:induction false} VisitMoves(setup: Setup, run: seq<Sys>, steps: seq<Step>, n: nat, id: string)
    requires IsRun(setup, run, steps) && n < |steps| && id in run[n].w.cases && Visits(steps[n], id)
    ensures n + 1 < |run| && id in run[n + 1].w.cases
    ensures Shaped(run[n].w.cases[id]) && Shaped(run[n + 1].w.cases[id])
    ensures run[n + 1].w.cases[id]
      == Next(setup.h, run[n].w.cases[id], Visit(run[n].w.agents, run[n].w.nextRevision, steps[n].tick))
  {
    hide IsRun, Next, Enabled, Apply, Activated, Nested, Mirrored, Earned, Paced, Guarded, Concluded, AllIndexed;
    hide ValidPlan, DistinctStages, Extends, NextEffect;
    StepInRun(setup, run, steps, n);
    RunLater(setup, run, steps, n, n + 1, id);
    StepOnOneRollout(setup, run[n], steps[n], id);
  }

  /**
   * Three reconciler visits end any rollout, whatever else happens between them: one at or after its creation plus its
   * maximum duration, any later one, and one at least its rollback timeout after verification began.
   */
  lemma {:induction false} EveryRolloutEnds(
      setup: Setup, run: seq<Sys>, steps: seq<Step>, i: nat, j: nat, k: nat, id: string)
    requires IsRun(setup, run, steps) && i < j < k < |steps| && |run| == |steps| + 1
    requires id in run[i].w.cases && id in run[j + 1].w.cases
    requires Visits(steps[i], id) && Visits(steps[j], id) && Visits(steps[k], id)
    requires run[i].w.cases[id].r.rolloutMaxDuration > 0
    requires steps[i].tick.clock.decide >= run[i].w.cases[id].r.createdAt + run[i].w.cases[id].r.rolloutMaxDuration
    requires 0 < run[i].w.cases[id].r.rollbackTimeout
    requires steps[k].tick.clock.decide >= run[j + 1].w.cases[id].r.stageStartedAt
      + run[i].w.cases[id].r.rollbackTimeout
    ensures id in run[k + 1].w.cases && Terminal(run[k + 1].w.cases[id].r.state)
  {
    hide IsRun, Next, Inv, AllIndexed, WorldInv, Shaped, Extends, Terminal;
    RunLength(setup, run, steps);
    VisitMoves(setup, run, steps, i, id);
    RunLater(setup, run, steps, i, j, id);
    RunLater(setup, run, steps, i + 1, j, id);
    VisitMoves(setup, run, steps, j, id);
    RunLater(setup, run, steps, j + 1, k, id);
    RunLater(setup, run, steps, i, k, id);
    VisitMoves(setup, run, steps, k, id);
    ReachableStatesAreSound(setup, run, steps, j + 1);
    ThreeVisitsEnd(setup.h,
                   run[i].w.cases[id], Visit(run[i].w.agents, run[i].w.nextRevision, steps[i].tick),
                   run[i + 1].w.cases[id],
                   run[j].w.cases[id], Visit(run[j].w.agents, run[j].w.nextRevision, steps[j].tick),
                   run[j + 1].w.cases[id],
                   run[k].w.cases[id], Visit(run[k].w.agents, run[k].w.nextRevision, steps[k].tick));
  }

  lemma {:induction false} RunLength(setup: Setup, run: seq<Sys>, steps: seq<Step>)
    requires IsRun(setup, run, steps)
    ensures |run| == |steps| + 1
  {
  }

  lemma {:induction false} RunLater(setup: Setup, run: seq<Sys>, steps: seq<Step>, i: nat, j: nat, id: string)
    requires IsRun(setup, run, steps) && i <= j < |run| && id in run[i].w.cases
    ensures id in run[j].w.cases && Shaped(run[i].w.cases[id]) && Shaped(run[j].w.cases[id])
    ensures Extends(run[i].w.cases[id], run[j].w.cases[id])
    ensures run[j].w.cases[id].r.rollbackTimeout == run[i].w.cases[id].r.rollbackTimeout
  {
    hide IsRun, Activated, Nested, Mirrored, Earned, Paced, Guarded, Concluded;
    RunExtends(setup, run, steps, i, j, id);
  }

  // ----- Completion -----

  /** Visits to one rollout, in order, each of which finds it favourable or already completed. */
  ghost predicate FavourableVisits(run: seq<Sys>, steps: seq<Step>, visits: seq<nat>, id: string) {
    && (forall k :: 0 < k < |visits| ==> visits[k - 1] < visits[k])
    && forall k :: 0 <= k < |visits| ==>
         && visits[k] < |steps| && visits[k] < |run| && Visits(steps[visits[k]], id)
         && id in run[visits[k]].w.cases && Indexed(run[visits[k]].w.cases[id])
         && (|| run[visits[k]].w.cases[id].r.state == Completed
             || Favourable(run[visits[k]].w.cases[id], steps[visits[k]].tick))
  }

  /** `n` is completed, or `k` stages further than `c`. */
  predicate Further(c: Case, n: Case, k: nat)
    requires Indexed(c) && Indexed(n)
  {
    PlanLength(n) == PlanLength(c) && (n.r.state == Completed || n.r.currentStageIndex >= c.r.currentStageIndex + k)
  }

  lemma {:induction false} FurtherComposes(h: Hash, a: Case, b: Case, c: Case, d: Case, k: nat)
    requires Inv(h, a) && Inv(h, b) && Inv(h, c) && Inv(h, d) && Extends(b, c)
    requires Further(a, b, k) && Further(c, d, 1)
    requires c.r.state == Completed ==> d.r.state == Completed
    ensures Further(a, d, k + 1)
  {
    hide Activated, Nested, Mirrored, Earned, Paced, Guarded, Concluded, ValidPlan, DistinctStages;
  }

  lemma {:induction false} OneVisitFurther(setup: Setup, run: seq<Sys>, steps: seq<Step>, v: nat, id: string)
    requires IsRun(setup, run, steps) && v < |steps| && |run| == |steps| + 1 && Visits(steps[v], id)
    requires id in run[v].w.cases && Indexed(run[v].w.cases[id])
    requires run[v].w.cases[id].r.state == Completed || Favourable(run[v].w.cases[id], steps[v].tick)
    ensures id in run[v + 1].w.cases && Inv(setup.h, run[v].w.cases[id]) && Inv(setup.h, run[v + 1].w.cases[id])
    ensures Further(run[v].w.cases[id], run[v + 1].w.cases[id], 1)
    ensures run[v].w.cases[id].r.state == Completed ==> run[v + 1].w.cases[id].r.state == Completed
  {
    hide IsRun, Next, Activated, Nested, Mirrored, Earned, Paced, Guarded, Concluded, ValidPlan, DistinctStages;
    RunExtends(setup, run, steps, v, v + 1, id);
    VisitMoves(setup, run, steps, v, id);
    if run[v].w.cases[id].r.state != Completed {
      FavourableVisitsAdvance(setup.h, run[v].w.cases[id],
                              Visit(run[v].w.agents, run[v].w.nextRevision, steps[v].tick));
    }
  }

  lemma {:induction false} FavourableSoFar(
      setup: Setup, run: seq<Sys>, steps: seq<Step>, visits: seq<nat>, id: string, k: nat)
    requires IsRun(setup, run, steps) && |run| == |steps| + 1 && FavourableVisits(run, steps, visits, id)
    requires k < |visits|
    ensures id in run[visits[k] + 1].w.cases && Inv(setup.h, run[visits[k] + 1].w.cases[id])
    ensures Inv(setup.h, run[visits[0]].w.cases[id])
    ensures Further(run[visits[0]].w.cases[id], run[visits[k] + 1].w.cases[id], k + 1)
  {
    hide IsRun, Favourable, Inv, Further, Extends;
    var v := visits[k];
    OneVisitFurther(setup, run, steps, v, id);
    if k > 0 {
      FavourableSoFar(setup, run, steps, visits, id, k - 1);
      RunExtends(setup, run, steps, visits[k - 1] + 1, v, id);
      FurtherComposes(setup.h, run[visits[0]].w.cases[id], run[visits[k - 1] + 1].w.cases[id], run[v].w.cases[id],
                      run[v + 1].w.cases[id], k);
    }
  }

  lemma {:induction false} NoStageLeft(h: Hash, c: Case, n: Case)
    requires Inv(h, c) && Inv(h, n) && Further(c, n, |Plan(c)| - c.r.currentStageIndex)
    ensures n.r.state == Completed
  {
    hide Activated, Nested, Mirrored, Earned, Paced, Guarded, Concluded, ValidPlan, DistinctStages;
  }

  /** As many favourable visits as stages remain complete a rollout, whatever else happens between them. */
  lemma {:induction false} RolloutsComplete(setup: Setup, run: seq<Sys>, steps: seq<Step>, visits: seq<nat>, id: string)
    requires IsRun(setup, run, steps) && |run| == |steps| + 1 && FavourableVisits(run, steps, visits, id)
    requires visits != []
    requires var c := run[visits[0]].w.cases[id]; |visits| == |Plan(c)| - c.r.currentStageIndex
    ensures id in run[visits[|visits| - 1] + 1].w.cases
    ensures run[visits[|visits| - 1] + 1].w.cases[id].r.state == Completed
  {
    hide IsRun, Favourable, Inv, Further, PlanLength;
    FavourableSoFar(setup, run, steps, visits, id, |visits| - 1);
    NoStageLeft(setup.h, run[visits[0]].w.cases[id], run[visits[|visits| - 1] + 1].w.cases[id]);
  }

  // ----- Finitely many changes -----

  /** A run that goes on for ever, from a sound state. */
  ghost predicate EndlessRun(setup: Setup, run: nat -> Sys, steps: nat -> Step) {
    && SysInv(setup.h, run(0)) && AllIndexed(run(0).w)
    && forall n: nat ::
         AllIndexed(run(n).w) && Enabled(setup, run(n), steps(n)) && run(n + 1) == Advance(setup, run(n), steps(n))
  }

  lemma {:induction false} EndlessRunsAreSound(setup: Setup, run: nat -> Sys, steps: nat -> Step, n: nat)
    requires EndlessRun(setup, run, steps)
    ensures SysInv(setup.h, run(n)) && AllIndexed(run(n).w)
  {
    hide SysInv, Enabled, Advance;
    if n > 0 {
      EndlessRunsAreSound(setup, run, steps, n - 1);
      assert run(n - 1 + 1) == Advance(setup, run(n - 1), steps(n - 1));
      StepKeepsSysInv(setup, run(n - 1), steps(n - 1));
    }
  }

  lemma {:induction false} EndlessRunsKeepRollouts(
      setup: Setup, run: nat -> Sys, steps: nat -> Step, start: nat, n: nat, id: string)
    requires EndlessRun(setup, run, steps) && id in run(start).w.cases && start <= n
    ensures id in run(n).w.cases
    decreases n
  {
    hide SysInv, Enabled, Advance;
    if n > start {
      EndlessRunsKeepRollouts(setup, run, steps, start, n - 1, id);
      EndlessRunsAreSound(setup, run, steps, n - 1);
      assert run(n - 1 + 1) == Advance(setup, run(n - 1), steps(n - 1));
      StepExtends(setup, run(n - 1), steps(n - 1), id);
    }
  }

  /** One rollout's own infinite run inside the system's. */
  function FileAt(run: nat -> Sys, id: string, otherwise: Case, n: nat): Case {
    if id in run(n).w.cases then run(n).w.cases[id] else otherwise
  }

  lemma {:induction false} EndlessStepIsOwn(setup: Setup, run: nat -> Sys, steps: nat -> Step, n: nat, id: string)
    requires EndlessRun(setup, run, steps) && id in run(n).w.cases
    ensures id in run(n + 1).w.cases && Inv(setup.h, run(n).w.cases[id])
    ensures Admissible(run(n).w.cases[id], EventOf(run(n).w, steps(n), id))
    ensures run(n + 1).w.cases[id] == Next(setup.h, run(n).w.cases[id], EventOf(run(n).w, steps(n), id))
  {
    hide Enabled, Apply, Next, Inv, Admissible, ActiveAgrees, RegistryLinks, PointersHeld, RevisionsUnique;
    EndlessRunsAreSound(setup, run, steps, n);
    CaseIsSound(setup.h, run(n), id);
    StepOnOneRollout(setup, run(n), steps(n), id);
    StepIsAdmissible(setup, run(n), steps(n), id);
  }

  function OwnRun(run: nat -> Sys, id: string, start: nat): nat -> Case
    requires id in run(start).w.cases
  {
    (n: nat) => FileAt(run, id, run(start).w.cases[id], start + n)
  }

  function OwnEvents(run: nat -> Sys, steps: nat -> Step, id: string, start: nat): nat -> Event {
    (n: nat) => EventOf(run(start + n).w, steps(start + n), id)
  }

  lemma {:induction false} OwnAt(run: nat -> Sys, id: string, start: nat, n: nat)
    requires id in run(start).w.cases && id in run(start + n).w.cases
    ensures OwnRun(run, id, start)(n) == run(start + n).w.cases[id]
  {
    assert OwnRun(run, id, start)(n) == FileAt(run, id, run(start).w.cases[id], start + n);
  }

  lemma {:induction false} OwnStep(setup: Setup, run: nat -> Sys, steps: nat -> Step, start: nat, id: string, n: nat)
    requires EndlessRun(setup, run, steps) && id in run(start).w.cases
    ensures var own, events := OwnRun(run, id, start), OwnEvents(run, steps, id, start);
      Inv(setup.h, own(n)) && Admissible(own(n), events(n)) && own(n + 1) == Next(setup.h, own(n), events(n))
  {
    hide EndlessRun, Inv, Admissible, Next, EventOf, OwnRun;
    EndlessRunsKeepRollouts(setup, run, steps, start, start + n, id);
    EndlessStepIsOwn(setup, run, steps, start + n, id);
    assert start + (n + 1) == start + n + 1;
    OwnAt(run, id, start, n);
    OwnAt(run, id, start, n + 1);
  }

  lemma {:induction false} OwnRunIsARun(setup: Setup, run: nat -> Sys, steps: nat -> Step, start: nat, id: string)
    requires EndlessRun(setup, run, steps) && id in run(start).w.cases
    ensures InfiniteRun(setup.h, OwnRun(run, id, start), OwnEvents(run, steps, id, start))
  {
    hide EndlessRun, Activated, Nested, Mirrored, Earned, Paced, Guarded, Concluded, Admissible, Next, OwnEvents;
    hide OwnRun;
    var own, events := OwnRun(run, id, start), OwnEvents(run, steps, id, start);
    forall n: nat
      ensures Inv(setup.h, own(n)) && Admissible(own(n), events(n)) && own(n + 1) == Next(setup.h, own(n), events(n))
    {
      OwnStep(setup, run, steps, start, id, n);
    }
    assert InfiniteRun(setup.h, own, events);
  }

  ghost predicate StaysQuiet(run: nat -> Sys, id: string, n: nat) {
    id in run(n).w.cases && id in run(n + 1).w.cases && Quiet(run(n).w.cases[id], run(n + 1).w.cases[id])
  }

  lemma {:induction false} OwnQuiet(setup: Setup, run: nat -> Sys, steps: nat -> Step, start: nat, id: string, m: nat)
    requires EndlessRun(setup, run, steps) && id in run(start).w.cases
    requires Quiet(OwnRun(run, id, start)(m), OwnRun(run, id, start)(m + 1))
    ensures StaysQuiet(run, id, start + m)
  {
    hide EndlessRun, Quiet, OwnRun;
    EndlessRunsKeepRollouts(setup, run, steps, start, start + m, id);
    EndlessRunsKeepRollouts(setup, run, steps, start, start + m + 1, id);
    assert start + (m + 1) == start + m + 1;
    OwnAt(run, id, start, m);
    OwnAt(run, id, start, m + 1);
  }

  lemma {:induction false} OwnRunSettles(setup: Setup, run: nat -> Sys, steps: nat -> Step, start: nat, id: string)
    returns (quiet: nat)
    requires EndlessRun(setup, run, steps) && id in run(start).w.cases
    ensures QuietFrom(OwnRun(run, id, start), quiet)
  {
    hide EndlessRun, InfiniteRun, Quiet, Inv, OwnEvents, OwnRun, QuietFrom;
    var own, events := OwnRun(run, id, start), OwnEvents(run, steps, id, start);
    OwnRunIsARun(setup, run, steps, start, id);
    RunIsShaped(setup.h, own, events, 0);
    quiet := EventuallyQuiet(setup.h, own, events, 0, RankOf(own(0)));
  }

  /** In an endless run every rollout's state, stage and targets change only finitely often. */
  lemma {:induction false} RolloutsSettle(setup: Setup, run: nat -> Sys, steps: nat -> Step, start: nat, id: string)
    returns (last: nat)
    requires EndlessRun(setup, run, steps) && id in run(start).w.cases
    ensures last >= start && forall n: nat :: n >= last ==> StaysQuiet(run, id, n)
  {
    hide EndlessRun, Quiet, OwnRun, StaysQuiet;
    var quiet := OwnRunSettles(setup, run, steps, start, id);
    last := start + quiet;
    forall n: nat | n >= last ensures StaysQuiet(run, id, n) {
      var m: nat := n - start;
      assert Quiet(OwnRun(run, id, start)(m), OwnRun(run, id, start)(m + 1));
      OwnQuiet(setup, run, steps, start, id, m);
    }
  }

  // ----- Revisions -----

  lemma {:induction false} RevisionsOnlyRise(setup: Setup, run: seq<Sys>, steps: seq<Step>, i: nat, j: nat)
    requires IsRun(setup, run, steps) && i <= j < |run|
    ensures run[i].w.nextRevision <= run[j].w.nextRevision
    decreases j
  {
    hide Enabled, NextEffect, CheckInput, RegistryStep;
    if i < j {
      RevisionsOnlyRise(setup, run, steps, i, j - 1);
      assert run[j - 1 + 1] == Advance(setup, run[j - 1], steps[j - 1]);
    }
  }

  /** At any moment, two targets carrying one revision belong to the same stage of the same rollout. */
  lemma {:induction false} RevisionNamesItsActivation(
      setup: Setup, run: seq<Sys>, steps: seq<Step>, n: nat, id: string, i: nat, k: nat, id': string, i': nat, k': nat,
      revision: int)
    requires IsRun(setup, run, steps) && n < |run|
    requires Carries(run[n].w, id, i, k, revision) && Carries(run[n].w, id', i', k', revision)
    ensures id == id' && i == i' && 1 <= revision < run[n].w.nextRevision
  {
    hide IsRun, Files, AgentsKnown, ActiveAgrees, RegistryLinks, PointersHeld;
    ReachableStatesAreSound(setup, run, steps, n);
  }
}
