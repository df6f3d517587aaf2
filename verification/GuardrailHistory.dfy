/** Guardrail counters against everything the queries returned since the rollout began. */
module GuardrailHistory {
  import opened Lifecycle
  import opened Guardrails
  import opened Cohorts
  import opened RolloutCase
  import opened CaseInvariant
  import opened CaseSteps
  import opened World
  import opened SystemRuns

  /** The file as the decision sees it, after the acknowledgement, if any, is marked. */
  function SeenBy(c: Case, e: Event): Case
    requires Indexed(c)
  {
    if e.AckVisit? then AckCase(c, e.ack) else c
  }

  /** The guardrail round a step makes, if it makes one. */
  function RoundIn(c: Case, e: Event): seq<seq<QueryResult>>
    requires Indexed(c)
  {
    if Delivering(c) && !e.Idle? && Consults(SeenBy(c, e), e.tick) then [e.tick.results] else []
  }

  lemma {:induction false} ProgressRecordsItsRound(h: Hash, c: Case, agents: seq<Agent>, revision: int, t: Tick)
    requires Indexed(c) && (Delivering(c) || c.r.state == RollingBack)
    ensures Progress(h, c, agents, revision, t).next.r.guardrails == c.r.guardrails
    ensures Progress(h, c, agents, revision, t).next.r.guardrailFailures
         == if Delivering(c) && Consults(c, t) then Round(c.r.guardrails, t.results, c.r.guardrailFailures)
            else c.r.guardrailFailures
  {
    hide CoverageReached, Cohort, Round, RoundStatus, Consults, StageProgress;
  }

  lemma {:induction false} StepRecordsItsRound(h: Hash, c: Case, e: Event)
    requires Indexed(c) && Stored(c.r.state)
    ensures Next(h, c, e).r.guardrailFailures
         == if RoundIn(c, e) == [] then c.r.guardrailFailures
            else Round(c.r.guardrails, e.tick.results, c.r.guardrailFailures)
    ensures Next(h, c, e).r.guardrails == c.r.guardrails
  {
    hide Round, Acknowledged, Consults, Progress;
    if !Terminal(c.r.state) && !e.Idle? {
      ProgressRecordsItsRound(h, SeenBy(c, e), e.agents, e.revision, e.tick);
    }
  }

  /** The rounds rollout `id` went through in the first `n` steps. */
  ghost function RoundsOf(run: seq<Sys>, steps: seq<Step>, id: string, n: nat): seq<seq<QueryResult>> {
    if n == 0 then []
    else RoundsOf(run, steps, id, n - 1)
         + if n <= |steps| && n <= |run| then RoundBy(run[n - 1].w, steps[n - 1], id) else []
  }

  /** The round a step runs for rollout `id`, if it does. */
  function RoundBy(w: World, step: Step, id: string): seq<seq<QueryResult>> {
    if id in w.cases && Indexed(w.cases[id]) then RoundIn(w.cases[id], EventOf(w, step, id)) else []
  }

  lemma {:induction false} NoRoundsBeforeCreation(setup: Setup, run: seq<Sys>, steps: seq<Step>, id: string, n: nat)
    requires IsRun(setup, run, steps) && n < |run| && id !in run[n].w.cases
    ensures n <= |steps| && RoundsOf(run, steps, id, n) == []
  {
    hide Enabled, Apply, Inv, SysInv;
    if n > 0 {
      StepInRun(setup, run, steps, n - 1);
      if id in run[n - 1].w.cases {
        ReachableStatesAreSound(setup, run, steps, n - 1);
        StepExtends(setup, run[n - 1], steps[n - 1], id);
      }
      NoRoundsBeforeCreation(setup, run, steps, id, n - 1);
    }
  }

  lemma {:induction false} NewRolloutsHaveNoCounters(setup: Setup, s: Sys, step: Step, id: string)
    requires AllIndexed(s.w) && id !in s.w.cases && id in Apply(setup, s.w, step).cases
    ensures Apply(setup, s.w, step).cases[id].r.guardrailFailures == map[]
  {
    hide CheckInput, NextEffect, RegistryStep;
  }

  lemma {:induction false} RoundsExtend(h: Hash, c: Case, e: Event, rounds: seq<seq<QueryResult>>)
    requires Shaped(c) && c.r.guardrailFailures == AfterRounds(c.r.guardrails, rounds)
    ensures Next(h, c, e).r.guardrailFailures == AfterRounds(c.r.guardrails, rounds + RoundIn(c, e))
    ensures Next(h, c, e).r.guardrails == c.r.guardrails
  {
    hide Next, Round, ValidPlan, DistinctStages;
    StepRecordsItsRound(h, c, e);
    var all := rounds + RoundIn(c, e);
    if RoundIn(c, e) != [] {
      assert all[..|all| - 1] == rounds;
    } else {
      assert all == rounds;
    }
  }

  /** At every moment a rollout's counters are what its own rounds, in order, leave behind. */
  lemma {:induction false} CountersComeFromRounds(setup: Setup, run: seq<Sys>, steps: seq<Step>, id: string, n: nat)
    requires IsRun(setup, run, steps) && n < |run| && id in run[n].w.cases
    ensures n <= |steps|
    ensures run[n].w.cases[id].r.guardrailFailures
         == AfterRounds(run[n].w.cases[id].r.guardrails, RoundsOf(run, steps, id, n))
  {
    hide Enabled, Apply, Next, AfterRounds, RoundIn, Activated, Nested, Mirrored, Earned, Paced, Guarded, Concluded;
    hide Shaped;
    if n > 0 {
      StepInRun(setup, run, steps, n - 1);
      if id in run[n - 1].w.cases {
        CountersComeFromRounds(setup, run, steps, id, n - 1);
        StepOnOneRollout(setup, run[n - 1], steps[n - 1], id);
        ReachableStatesAreSound(setup, run, steps, n - 1);
        CaseIsSound(setup.h, run[n - 1], id);
        RoundsExtend(setup.h, run[n - 1].w.cases[id], EventOf(run[n - 1].w, steps[n - 1], id),
                     RoundsOf(run, steps, id, n - 1));
      } else {
        NewRolloutsHaveNoCounters(setup, run[n - 1], steps[n - 1], id);
        NoRoundsBeforeCreation(setup, run, steps, id, n - 1);
        assert RoundsOf(run, steps, id, n) == [] + [];
        EmptyHistory(run[n].w.cases[id].r.guardrails);
      }
    }
  }

  lemma {:induction false} EmptyHistory(rules: seq<Rule>)
    ensures AfterRounds(rules, []) == map[]
  {
  }

  lemma {:induction false} DistinctNamesAgree(rules: seq<Rule>)
    requires DistinctNames(rules)
    ensures NamesAgree(rules)
  {
  }

  /** While a rollout delivers, no counter has reached its rule's threshold, if rules of one name need the same. */
  lemma {:induction false} CountersStayBelow(setup: Setup, run: seq<Sys>, steps: seq<Step>, id: string, n: nat)
    requires IsRun(setup, run, steps) && n < |run| && id in run[n].w.cases && Delivering(run[n].w.cases[id])
    requires NamesAgree(run[n].w.cases[id].r.guardrails)
    ensures BelowThreshold(run[n].w.cases[id].r.guardrails, run[n].w.cases[id].r.guardrailFailures)
  {
    hide IsRun, Activated, Nested, Mirrored, Earned, Paced, Concluded, Shaped, BelowThreshold, NamesAgree;
    ReachableStatesAreSound(setup, run, steps, n);
    CaseIsSound(setup.h, run[n], id);
  }

  /**
   * In every run each counter is the number of failing samples its rule got since the last passing one, unknowns
   * skipped; and while the rollout delivers that number is below the rule's threshold.
   */
  lemma {:induction false} CountersRefineHistory(
      setup: Setup, run: seq<Sys>, steps: seq<Step>, id: string, n: nat, i: nat)
    requires IsRun(setup, run, steps) && n < |run| && id in run[n].w.cases
    requires var rules := run[n].w.cases[id].r.guardrails; DistinctNames(rules) && i < |rules|
    ensures var r := run[n].w.cases[id].r;
      n <= |steps|
      && CounterOf(r.guardrailFailures, r.guardrails[i].name)
         == CurrentStreak(r.guardrails[i], ResultsOf(RoundsOf(run, steps, id, n), i))
      && (Delivering(run[n].w.cases[id]) ==>
            CurrentStreak(r.guardrails[i], ResultsOf(RoundsOf(run, steps, id, n), i))
            < RequiredFailures(r.guardrails[i]))
  {
    hide IsRun, AfterRounds, RoundsOf, CurrentStreak, ResultsOf, Activated, Nested, Mirrored, Earned, Paced, Concluded;
    hide Shaped;
    CountersComeFromRounds(setup, run, steps, id, n);
    DistinctNamesAgree(run[n].w.cases[id].r.guardrails);
    CounterRefinesHistory(run[n].w.cases[id].r.guardrails, RoundsOf(run, steps, id, n), i);
    ReachableStatesAreSound(setup, run, steps, n);
    CaseIsSound(setup.h, run[n], id);
  }

  // ----- Pauses -----

  /** A paused rollout has its coverage, and acknowledgements cannot take it away. */
  lemma {:induction false} PauseIsCovered(setup: Setup, run: seq<Sys>, steps: seq<Step>, id: string, n: nat)
    requires IsRun(setup, run, steps) && n < |run| && id in run[n].w.cases && run[n].w.cases[id].r.state == Paused
    ensures Indexed(run[n].w.cases[id])
    ensures CoverageReached(Current(run[n].w.cases[id]), run[n].w.cases[id].r.requiredAckPercent)
    ensures run[n].w.cases[id].r.guardrails != []
  {
    hide IsRun, Activated, Nested, Mirrored, Paced, Concluded;
    ReachableStatesAreSound(setup, run, steps, n);
    CaseIsSound(setup.h, run[n], id);
  }

  lemma {:induction false} PausedStageIsCovered(h: Hash, c: Case, t: Tick)
    requires Inv(h, c) && c.r.state == Paused
    ensures Indexed(c) && StageProgress(c, t) != DecisionRollback
  {
    hide Activated, Nested, Mirrored, Paced, Concluded, CoverageReached;
    assert Position(c) == c.r.currentStageIndex;
  }

  /** A visit that starts a rollback decided to. */
  lemma {:induction false} RollbackWasDecided(h: Hash, c: Case, agents: seq<Agent>, revision: int, t: Tick)
    requires Indexed(c) && c.r.state == Paused && Progress(h, c, agents, revision, t).next.r.state == RollingBack
    ensures Decide(c, t) == DecisionRollback
  {
    hide PromotedTo, Decide, Round;
    PausedStays(h, Observed(c, t), agents, revision, t);
  }

  lemma {:induction false} PausedStays(h: Hash, c: Case, agents: seq<Agent>, revision: int, t: Tick)
    requires Indexed(c)
    ensures PromoteEffect(h, c, agents, revision, t).next.r.state != RollingBack
  {
    hide Cohort;
  }

  lemma {:induction false} PausedProgress(h: Hash, c: Case, agents: seq<Agent>, revision: int, t: Tick)
    requires Inv(h, c) && c.r.state == Paused && Progress(h, c, agents, revision, t).next.r.state == RollingBack
    ensures Expired(c, t) || RoundStatus(c.r.guardrails, t.results, c.r.guardrailFailures) == Unhealthy
  {
    hide Inv, Progress, RoundStatus, StageProgress, Expired;
    PausedStageIsCovered(h, c, t);
    RollbackWasDecided(h, c, agents, revision, t);
  }

  /**
   * From a pause only the maximum duration or an unhealthy guardrail round starts a rollback; the stage timeout never
   * does.
   */
  lemma {:induction false} OnlyTimeOrGuardrailsEndAPause(h: Hash, c: Case, e: Event)
    requires Inv(h, c) && c.r.state == Paused && Next(h, c, e).r.state == RollingBack
    ensures !e.Idle?
    ensures Expired(c, e.tick) || RoundStatus(c.r.guardrails, e.tick.results, c.r.guardrailFailures) == Unhealthy
  {
    hide Inv, Progress, RoundStatus, Expired, AckCase;
    match e
    case Idle =>
    case Visit(agents, revision, t) =>
      IndexedInv(h, c);
      PausedProgress(h, c, agents, revision, t);
    case AckVisit(ack, agents, revision, t) =>
      IndexedInv(h, c);
      AckKeepsInv(h, c, ack);
      AckKeepsTheRecord(c, ack);
      PausedProgress(h, AckCase(c, ack), agents, revision, t);
      AckKeepsTheClock(c, ack, t);
  }

  lemma {:induction false} IndexedInv(h: Hash, c: Case)
    requires Inv(h, c)
    ensures Indexed(c)
  {
  }

  lemma {:induction false} AckKeepsTheRecord(c: Case, ack: Ack)
    requires Indexed(c)
    ensures AckCase(c, ack).r == c.r
  {
  }

  lemma {:induction false} AckKeepsTheClock(c: Case, ack: Ack, t: Tick)
    requires Indexed(c)
    ensures Expired(AckCase(c, ack), t) == Expired(c, t)
  {
  }
}
