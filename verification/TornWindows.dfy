/**
 * When a read that is not atomic takes the candidate away from an agent: the windows, exactly, over every run. One lies
 * inside a promotion, between the write of the record and the write of the next stage's targets; the other spans a
 * completion, for a read whose pointer was read before it and whose rollout after it.
 */
module TornWindows {
  import opened Lifecycle
  import opened Guardrails
  import opened Cohorts
  import opened RolloutCase
  import opened CaseInvariant
  import opened CaseSteps
  import opened Effective
  import opened RolloutTheorems
  import opened World
  import opened SystemInvariant
  import opened SystemRuns
  import opened SystemTheorems
  import opened RolloutWrites
  import opened TornReads
  import RolloutService

  // ----- Which files of a step name which stage -----

  predicate SameStage(c: Case, m: Case) {
    m.r.currentStageID == c.r.currentStageID && m.r.currentStageIndex == c.r.currentStageIndex
  }

  /** The record names a stage that has no targets. */
  predicate Unfilled(m: Case) {
    Indexed(m) && Current(m) == []
  }

  /** The record is already that of `n`, whose current stage has no targets yet. */
  predicate Named(n: Case, m: Case) {
    m.r == n.r && m.stages == n.stages && Unfilled(m)
  }

  /** `files` keep the stage of `c`; or the last three name the next one, and only the last has its targets. */
  ghost predicate Staged(c: Case, files: seq<Case>, n: Case) {
    if n.r.currentStageIndex == c.r.currentStageIndex then forall k :: 0 <= k < |files| ==> SameStage(c, files[k])
    else
      && |files| >= 3 && (forall k :: 0 <= k < |files| - 3 ==> SameStage(c, files[k]))
      && Named(n, files[|files| - 3]) && Named(n, files[|files| - 2]) && files[|files| - 1] == n
      && 0 <= n.r.currentStageIndex == c.r.currentStageIndex + 1 < |n.stages|
      && n.r.currentStageID == n.stages[n.r.currentStageIndex].id
  }

  lemma {:induction false} StagedAfter(c: Case, before: seq<Case>, o: Case, files: seq<Case>, n: Case)
    requires (forall k :: 0 <= k < |before| ==> SameStage(c, before[k])) && SameStage(c, o) && Staged(o, files, n)
    ensures Staged(c, before + files, n)
  {
    hide Named;
    var all := before + files;
    forall k | 0 <= k < |all| && (n.r.currentStageIndex == c.r.currentStageIndex || k < |all| - 3)
      ensures SameStage(c, all[k])
    {
      if k >= |before| {
        assert all[k] == files[k - |before|];
      }
    }
  }

  /** Candidate stages only, and the next one is empty. */
  predicate Unverified(c: Case) {
    && Indexed(c) && NextIsEmpty(c) && c.r.state != RollingBack
    && forall i :: 0 <= i < |c.stages| ==> c.stages[i].id != VerificationID(c.r.id)
  }

  lemma {:induction false} PromoteStaged(h: Hash, c: Case, agents: seq<Agent>, revision: int, t: Tick)
    requires Unverified(c)
    ensures Staged(c, PromoteWrites(h, c, agents, revision, t), PromoteEffect(h, c, agents, revision, t).next)
  {
    hide Cohort;
  }

  lemma {:induction false} ActStaged(
      h: Hash, c: Case, decision: StageDecision, agents: seq<Agent>, revision: int, t: Tick)
    requires Unverified(c)
    ensures Staged(c, ActWrites(h, c, decision, agents, revision, t),
                   RolloutService.ActEffect(h, c, decision, agents, revision, t).next)
  {
    hide PromoteWrites, PromoteEffect;
    PromoteStaged(h, c, agents, revision, t);
  }

  lemma {:induction false} ObservedIsUnverified(c: Case, t: Tick)
    requires Unverified(c)
    ensures Unverified(Observed(c, t)) && SameStage(c, Observed(c, t))
    ensures forall k :: 0 <= k < |ObservationWrites(c, t)| ==> SameStage(c, ObservationWrites(c, t)[k])
  {
    hide Consults, Round;
  }

  lemma {:induction false} ProgressStaged(h: Hash, c: Case, agents: seq<Agent>, revision: int, t: Tick)
    requires Unverified(c) && Delivering(c)
    ensures Staged(c, ProgressWrites(h, c, agents, revision, t), Progress(h, c, agents, revision, t).next)
  {
    hide Staged, ObservationWrites, ActWrites, RolloutService.ActEffect, Observed, Decide, Progress, Unverified;
    hide SameStage;
    assert c.r.state != RollingBack;
    ObservedIsUnverified(c, t);
    ActStaged(h, Observed(c, t), Decide(c, t), agents, revision, t);
    RolloutService.ProgressActs(h, c, agents, revision, t);
    StagedAfter(c, ObservationWrites(c, t), Observed(c, t),
                ActWrites(h, Observed(c, t), Decide(c, t), agents, revision, t),
                RolloutService.ActEffect(h, Observed(c, t), Decide(c, t), agents, revision, t).next);
  }

  lemma {:induction false} DeliveringIsUnverified(h: Hash, c: Case)
    requires Inv(h, c) && Delivering(c)
    ensures Unverified(c) && !Terminal(c.r.state)
  {
  }

  lemma {:induction false} AckStaged(c: Case, ack: Ack)
    requires Indexed(c)
    ensures SameStage(c, AckCase(c, ack)) && AckCase(c, ack).r == c.r
    ensures forall k :: 0 <= k < |AckWrites(c, ack)| ==> SameStage(c, AckWrites(c, ack)[k])
  {
    hide Acknowledged, Counts;
  }

  lemma {:induction false} StepStaged(h: Hash, c: Case, e: Event)
    requires Inv(h, c) && Delivering(c)
    ensures Indexed(c) && Staged(c, FilesDuring(h, c, e), Next(h, c, e))
  {
    hide Inv, Staged, Progress, ProgressWrites, AckWrites, AckCase, SameStage, Unverified;
    DeliveringIsUnverified(h, c);
    IndexedOfInv(h, c);
    NothingStaged(c);
    match e
    case Idle =>
      assert FilesDuring(h, c, e) == [c];
    case Visit(agents, revision, tick) =>
      ProgressStaged(h, c, agents, revision, tick);
      StagedAfter(c, [c], c, ProgressWrites(h, c, agents, revision, tick), Next(h, c, e));
    case AckVisit(ack, agents, revision, tick) =>
      var a := AckCase(c, ack);
      AckKeepsInv(h, c, ack);
      AckStaged(c, ack);
      DeliveringIsUnverified(h, a);
      ProgressStaged(h, a, agents, revision, tick);
      StagedAfter(c, AckWrites(c, ack), a, ProgressWrites(h, a, agents, revision, tick), Next(h, c, e));
      StagedAfter(c, [c], c, AckWrites(c, ack) + ProgressWrites(h, a, agents, revision, tick), Next(h, c, e));
  }

  lemma {:induction false} NothingStaged(c: Case)
    ensures SameStage(c, c) && Staged(c, [c], c)
  {
  }

  // ----- Reading the record, then the targets -----

  /**
   * An agent of an activated cohort of `n` is served the candidate from its targets there, or on the way from there.
   */
  lemma {:induction false} CandidateIsServed(h: Hash, n: Case, s: nat, record: Rollout, q: Case, agentID: string)
    requires Inv(h, n) && s <= n.r.currentStageIndex && OnTheWay(n, q) && Targeted(n.cohorts[s], agentID)
    requires SameIdentity(n.r, record) && ServesCandidate(record.state) && record.currentStageID == n.stages[s].id
    ensures TornServing(record, q, agentID).versionID == n.r.candidateVersionID
  {
    hide Nested, Mirrored, Earned, Paced, Guarded, Concluded, ValidPlan, ValidRules;
    var x :| 0 <= x < |n.cohorts[s]| && n.cohorts[s][x].agentID == agentID;
    assert CandidateTarget(h, n.r, n.stages[s], n.cohorts[s][x]);
    StageIsFound(n, q, s);
    assert SameTarget(n.cohorts[s][x], q.cohorts[s][x]);
    assert AssignedHere(record, q.cohorts[s][x], agentID);
    var k := FirstAssigned(record, q.cohorts[s], agentID);
    assert SameTarget(n.cohorts[s][k], q.cohorts[s][k]);
    assert CandidateTarget(h, n.r, n.stages[s], n.cohorts[s][k]);
  }

  lemma {:induction false} StageIsFound(n: Case, q: Case, s: nat)
    requires DistinctStages(n.stages) && n.stages <= q.stages && s < |n.stages| && |q.cohorts| == |q.stages|
    ensures StoredTargets(q, n.stages[s].id) == q.cohorts[s]
  {
    assert q.stages[s] == n.stages[s];
    assert forall i :: 0 <= i < s ==> q.stages[i] == n.stages[i];
  }

  lemma {:induction false} KeptStageIsFilled(h: Hash, c: Case, m: Case, agentID: string)
    requires Inv(h, c) && Delivering(c) && Targeted(Current(c), agentID) && OnTheWay(c, m) && SameStage(c, m)
    ensures !Unfilled(m) && m.r.currentStageID == c.stages[c.r.currentStageIndex].id
    ensures Targeted(c.cohorts[c.r.currentStageIndex], agentID)
  {
    hide Activated, Nested, Mirrored, Earned, Paced, Guarded, Concluded, ValidPlan, ValidRules;
  }

  lemma {:induction false} FilledStage(h: Hash, n: Case, agentID: string)
    requires Inv(h, n) && Delivering(n) && Targeted(n.cohorts[n.r.currentStageIndex], agentID)
    ensures !Unfilled(n) && n.r.currentStageID == n.stages[n.r.currentStageIndex].id
  {
    hide Activated, Nested, Mirrored, Earned, Paced, Guarded, Concluded, ValidPlan, ValidRules;
  }

  lemma {:induction false} NamedStageIsEmpty(h: Hash, n: Case, q: Case, agentID: string)
    requires Inv(h, n) && Delivering(n) && Named(n, q)
    ensures TornServing(n.r, q, agentID).versionID == n.r.stableVersionID
  {
    hide Activated, Nested, Mirrored, Earned, Paced, Guarded, Concluded, ValidPlan, ValidRules, StoredTargets;
    StageIsFound(n, q, n.r.currentStageIndex);
  }

  lemma {:induction false} StagedPair(c: Case, files: seq<Case>, n: Case, a: nat, b: nat)
    requires Staged(c, files, n) && a <= b < |files|
    ensures || SameStage(c, files[a])
            || (files[a].r == n.r && (files[b] == n || (Named(n, files[a]) && Named(n, files[b]))))
  {
  }

  /** The record still names the stage of `c`. */
  lemma {:induction false} EarlyRecord(h: Hash, c: Case, m: Case, q: Case, agentID: string)
    requires Inv(h, c) && Delivering(c) && Targeted(Current(c), agentID)
    requires OnTheWay(c, m) && OnTheWay(c, q) && SameStage(c, m) && Delivering(m)
    ensures !Unfilled(m) && TornServing(m.r, q, agentID).versionID == c.r.candidateVersionID
  {
    hide Inv, OnTheWay, TornServing, Unfilled;
    IdentityOnTheWay(c, m);
    IndexedOfInv(h, c);
    KeptStageIsFilled(h, c, m, agentID);
    CandidateIsServed(h, c, c.r.currentStageIndex, m.r, q, agentID);
  }

  /** The record is already that of `n`. */
  lemma {:induction false} LateRecord(h: Hash, c: Case, n: Case, q: Case, agentID: string)
    requires Inv(h, c) && Delivering(c) && Targeted(Current(c), agentID) && Inv(h, n) && Extends(c, n) && Delivering(n)
    requires q == n || Named(n, q)
    ensures !Unfilled(n) && n.r.stableVersionID == c.r.stableVersionID
    ensures n.r.candidateVersionID == c.r.candidateVersionID
    ensures TornServing(n.r, q, agentID).versionID == if q == n then c.r.candidateVersionID else c.r.stableVersionID
  {
    hide Activated, Nested, Mirrored, Earned, Paced, Guarded, Concluded, ValidPlan, ValidRules, OnTheWay, TornServing;
    hide Unfilled, Named;
    ExposureIsKept(h, c, n, c.r.currentStageIndex, agentID);
    FilledStage(h, n, agentID);
    if q == n {
      OnItsOwnWay(n);
      CandidateIsServed(h, n, n.r.currentStageIndex, n.r, n, agentID);
    } else {
      NamedStageIsEmpty(h, n, q, agentID);
    }
  }

  /** Both reads fall among the files of one step of a delivering rollout. */
  lemma {:induction false} ReadsOfOneStep(h: Hash, c: Case, e: Event, a: nat, b: nat, agentID: string)
    requires Inv(h, c) && Delivering(c) && Targeted(Current(c), agentID) && Inv(h, Next(h, c, e))
    requires Extends(c, Next(h, c, e))
    requires a <= b < |FilesDuring(h, c, e)| && Delivering(FilesDuring(h, c, e)[a])
    ensures TornServing(FilesDuring(h, c, e)[a].r, FilesDuring(h, c, e)[b], agentID).versionID
      == if Unfilled(FilesDuring(h, c, e)[a]) && Unfilled(FilesDuring(h, c, e)[b]) then c.r.stableVersionID
         else c.r.candidateVersionID
  {
    hide Inv, FilesDuring, Next, OnTheWay, TornServing, Unfilled, Extends, Staged, SameStage;
    IndexedOfInv(h, c);
    var m, q, n := FilesDuring(h, c, e)[a], FilesDuring(h, c, e)[b], Next(h, c, e);
    StepStaged(h, c, e);
    StagedPair(c, FilesDuring(h, c, e), n, a, b);
    FilesSpanTheStep(h, c, e, a);
    FilesSpanTheStep(h, c, e, b);
    if SameStage(c, m) {
      EarlyRecord(h, c, m, q, agentID);
    } else {
      LateRecord(h, c, n, q, agentID);
    }
  }

  lemma {:induction false} IdentityOnTheWay(c: Case, m: Case)
    requires OnTheWay(c, m)
    ensures SameIdentity(c.r, m.r)
  {
    IdentityIsMutual(c.r, m.r);
  }

  // ----- Over runs -----

  /** The record was read earlier: what it names has its targets by now. */
  lemma {:induction false} LaterRead(h: Hash, base: Case, s: nat, c: Case, record: Rollout, q: Case, agentID: string)
    requires Inv(h, base) && Inv(h, c) && Extends(base, c) && OnTheWay(c, q)
    requires s <= base.r.currentStageIndex && Targeted(base.cohorts[s], agentID)
    requires SameIdentity(base.r, record) && ServesCandidate(record.state) && record.currentStageID == base.stages[s].id
    ensures TornServing(record, q, agentID).versionID == base.r.candidateVersionID
  {
    hide Activated, Nested, Mirrored, Earned, Paced, Guarded, Concluded, ValidPlan, ValidRules, OnTheWay, TornServing;
    assert Frozen(base, s);
    SameTargetsTarget(base.cohorts[s], c.cohorts[s], agentID);
    assert c.stages[s] == base.stages[s];
    CandidateIsServed(h, c, s, record, q, agentID);
  }

  /** The record is read in the step from `c` to `n`, the targets in a later one, on the way from `l`. */
  lemma {:induction false} ReadsOfTwoSteps(h: Hash, c: Case, e: Event, l: Case, a: nat, q: Case, agentID: string)
    requires Inv(h, c) && Delivering(c) && Targeted(Current(c), agentID) && Inv(h, Next(h, c, e))
    requires Extends(c, Next(h, c, e))
    requires a < |FilesDuring(h, c, e)| && Delivering(FilesDuring(h, c, e)[a])
    requires Inv(h, l) && Extends(Next(h, c, e), l) && OnTheWay(l, q)
    ensures TornServing(FilesDuring(h, c, e)[a].r, q, agentID).versionID == c.r.candidateVersionID
  {
    hide Inv, FilesDuring, Next, OnTheWay, TornServing, Unfilled, Extends, Staged, SameStage, SameIdentity;
    IndexedOfInv(h, c);
    var m, n := FilesDuring(h, c, e)[a], Next(h, c, e);
    StepStaged(h, c, e);
    StagedPair(c, FilesDuring(h, c, e), n, a, |FilesDuring(h, c, e)| - 1);
    FilesSpanTheStep(h, c, e, a);
    IdentityOnTheWay(c, m);
    if SameStage(c, m) {
      KeptStageIsFilled(h, c, m, agentID);
      ExtendsChain(h, c, n, l);
      LaterRead(h, c, c.r.currentStageIndex, l, m.r, q, agentID);
    } else {
      StillExposed(h, c, n, agentID);
      LaterRead(h, n, n.r.currentStageIndex, l, n.r, q, agentID);
    }
  }

  lemma {:induction false} StillExposed(h: Hash, c: Case, n: Case, agentID: string)
    requires Inv(h, c) && Delivering(c) && Targeted(Current(c), agentID) && Inv(h, n) && Extends(c, n) && Delivering(n)
    ensures 0 <= n.r.currentStageIndex < |n.cohorts| && |n.stages| == |n.cohorts|
    ensures Targeted(n.cohorts[n.r.currentStageIndex], agentID) && SameIdentity(n.r, n.r)
    ensures n.r.currentStageID == n.stages[n.r.currentStageIndex].id && n.r.candidateVersionID == c.r.candidateVersionID
  {
    hide Activated, Nested, Mirrored, Earned, Paced, Guarded, Concluded, ValidPlan, ValidRules;
    ExposureIsKept(h, c, n, c.r.currentStageIndex, agentID);
    FilledStage(h, n, agentID);
  }

  /**
   * Over any run: an agent of the current cohort of a delivering rollout, whose reads find the record in one step and
   * the targets in the same or a later one, is served the stable version exactly when both reads fall between the write
   * of a promotion's record and the write of its targets. Every read it makes while the record is delivering is
   * covered.
   */
  lemma {:induction false} TornReadsFlapIff(
      setup: Setup, run: seq<Sys>, steps: seq<Step>, i: nat, a: nat, j: nat, b: nat, id: string, agentID: string)
    requires IsRun(setup, run, steps) && i <= j < |steps| && |run| == |steps| + 1
    requires a < |During(setup, run[i], steps[i], id)| && b < |During(setup, run[j], steps[j], id)|
    requires i == j ==> a <= b
    requires Delivering(run[i].w.cases[id]) && OnCandidate(run[i].w.cases[id], agentID)
    requires Delivering(During(setup, run[i], steps[i], id)[a])
    ensures var c := run[i].w.cases[id];
      var m, q := During(setup, run[i], steps[i], id)[a], During(setup, run[j], steps[j], id)[b];
      && c.r.stableVersionID != c.r.candidateVersionID
      && TornServing(m.r, q, agentID).versionID
         == if i == j && Unfilled(m) && Unfilled(q) then c.r.stableVersionID else c.r.candidateVersionID
  {
    hide FilesDuring, Inv, Extends, Next, Enabled, SysInv, OnTheWay, Apply, AllIndexed, TornServing, Unfilled, IsRun;
    StepInRun(setup, run, steps, i);
    RunExtends(setup, run, steps, i, i + 1, id);
    StepOnOneRollout(setup, run[i], steps[i], id);
    VersionsDiffer(setup.h, run[i].w.cases[id]);
    var c, e := run[i].w.cases[id], EventOf(run[i].w, steps[i], id);
    if i == j {
      ReadsOfOneStep(setup.h, c, e, a, b, agentID);
    } else {
      RunExtends(setup, run, steps, i + 1, j, id);
      FilesInRun(setup, run, steps, j, id, b);
      ReadsOfTwoSteps(setup.h, c, e, run[j].w.cases[id], a, During(setup, run[j], steps[j], id)[b], agentID);
    }
  }

  lemma {:induction false} VersionsDiffer(h: Hash, c: Case)
    requires Inv(h, c)
    ensures c.r.stableVersionID != c.r.candidateVersionID
  {
  }

  /** And every promotion opens that window. */
  lemma {:induction false} PromotionOpensTheWindow(h: Hash, c: Case, e: Event) returns (k: nat)
    requires Inv(h, c) && Delivering(c) && Inv(h, Next(h, c, e))
    requires Next(h, c, e).r.currentStageIndex != c.r.currentStageIndex
    ensures k < |FilesDuring(h, c, e)| && Unfilled(FilesDuring(h, c, e)[k])
    ensures FilesDuring(h, c, e)[k].r == Next(h, c, e).r
  {
    hide Inv, FilesDuring, Next, Unfilled;
    StepStaged(h, c, e);
    k := |FilesDuring(h, c, e)| - 2;
  }

  // ----- Reading the pointer first -----

  /**
   * snapshotItem reads the stable pointer, then the record, then the targets; an ended rollout is not found by the
   * second.
   */
  function ReadVersion(pointer: string, record: Rollout, later: Case, agentID: string): string {
    if Terminal(record.state) then pointer else TornServing(record, later, agentID).versionID
  }

  predicate RolledAway(s: State) {
    s == RollingBack || s == RolledBack
  }

  lemma {:induction false} ActStates(
      h: Hash, c: Case, decision: StageDecision, agents: seq<Agent>, revision: int, t: Tick, k: nat)
    requires Indexed(c) && Delivering(c) && k < |ActWrites(h, c, decision, agents, revision, t)|
    ensures var m := ActWrites(h, c, decision, agents, revision, t)[k];
      Delivering(m) || m.r.state == RollingBack || m.r.state == Completed
  {
    hide Cohort;
  }

  lemma {:induction false} DeliveryStates(h: Hash, c: Case, agents: seq<Agent>, revision: int, t: Tick, k: nat)
    requires Indexed(c) && Delivering(c) && k < |ProgressWrites(h, c, agents, revision, t)|
    ensures var m := ProgressWrites(h, c, agents, revision, t)[k];
      Delivering(m) || m.r.state == RollingBack || m.r.state == Completed
  {
    hide ActWrites, Consults, Decide, Round;
    var before := |ObservationWrites(c, t)|;
    assert Delivering(Observed(c, t));
    if k >= before {
      ActStates(h, Observed(c, t), Decide(c, t), agents, revision, t, k - before);
    }
  }

  lemma {:induction false} RollbackStates(c: Case, revision: int, t: Tick, k: nat)
    requires Indexed(c) && c.r.state == RollingBack && k < |RollbackWrites(c, revision, t)|
    ensures RolledAway(RollbackWrites(c, revision, t)[k].r.state)
  {
    hide CoverageReached;
  }

  /** The states of the files of a visit, by the phase it finds. */
  lemma {:induction false} ProgressStates(h: Hash, c: Case, agents: seq<Agent>, revision: int, t: Tick, k: nat)
    requires Indexed(c) && (Delivering(c) || c.r.state == RollingBack)
    requires k < |ProgressWrites(h, c, agents, revision, t)|
    ensures var s := ProgressWrites(h, c, agents, revision, t)[k].r.state;
      if Delivering(c) then s == Deploying || s == Paused || s == RollingBack || s == Completed else RolledAway(s)
  {
    hide RollbackWrites, ObservationWrites, ActWrites;
    if Delivering(c) {
      DeliveryStates(h, c, agents, revision, t, k);
    } else {
      RollbackStates(c, revision, t, k);
    }
  }

  lemma {:induction false} FileStates(h: Hash, c: Case, e: Event, k: nat)
    requires Inv(h, c) && k < |FilesDuring(h, c, e)|
    ensures Terminal(c.r.state) || Delivering(c) || c.r.state == RollingBack
    ensures var m := FilesDuring(h, c, e)[k];
      if Terminal(c.r.state) then m == c
      else if Delivering(c) then Delivering(m) || m.r.state == RollingBack || m.r.state == Completed
      else RolledAway(m.r.state)
  {
    hide Inv, ProgressWrites, AckWrites, AckCase;
    IndexedOfInv(h, c);
    if !Terminal(c.r.state) {
      ReadyToMove(h, c);
      if k > 0 {
        match e
        case Idle =>
        case Visit(agents, revision, tick) => ProgressStates(h, c, agents, revision, tick, k - 1);
        case AckVisit(ack, agents, revision, tick) => AckFileStates(h, c, ack, agents, revision, tick, k - 1);
      }
    }
  }

  lemma {:induction false} AckFileStates(h: Hash, c: Case, ack: Ack, agents: seq<Agent>, revision: int, t: Tick, k: nat)
    requires Indexed(c) && (Delivering(c) || c.r.state == RollingBack)
    requires k < |AckWrites(c, ack) + ProgressWrites(h, AckCase(c, ack), agents, revision, t)|
    ensures var s := (AckWrites(c, ack) + ProgressWrites(h, AckCase(c, ack), agents, revision, t))[k].r.state;
      if Delivering(c) then s == Deploying || s == Paused || s == RollingBack || s == Completed else RolledAway(s)
  {
    hide ProgressWrites, Acknowledged, Counts;
    if k >= |AckWrites(c, ack)| {
      ProgressStates(h, AckCase(c, ack), agents, revision, t, k - |AckWrites(c, ack)|);
    }
  }

  lemma {:induction false} RollingBackServesStable(record: Rollout, q: Case, agentID: string)
    requires record.state == RollingBack
    ensures TornServing(record, q, agentID).versionID == record.stableVersionID
  {
  }

  lemma {:induction false} CompletedStays(c: Case, c': Case)
    requires Shaped(c) && Shaped(c') && Extends(c, c')
    ensures c.r.state == Completed ==> c'.r.state == Completed
    ensures RolledAway(c.r.state) ==> c'.r.state != Completed
  {
  }

  /** A rolled-back record was never preceded, nor is it followed, by a completion. */
  lemma {:induction false} NoCompletionBeside(
      setup: Setup, run: seq<Sys>, steps: seq<Step>, p: nat, i: nat, a: nat, id: string)
    requires IsRun(setup, run, steps) && p <= i + 1 && i < |steps| && |run| == |steps| + 1
    requires a < |During(setup, run[i], steps[i], id)| && id in run[p].w.cases
    requires During(setup, run[i], steps[i], id)[a].r.state == RolledBack
    ensures run[p].w.cases[id].r.state != Completed
  {
    hide Extends, Activated, Nested, Mirrored, Earned, Paced, Guarded, Concluded, AllIndexed, IsRun, FilesDuring;
    RunExtends(setup, run, steps, i, i + 1, id);
    FileStates(setup.h, run[i].w.cases[id], EventOf(run[i].w, steps[i], id), a);
    RunExtends(setup, run, steps, p, i + 1, id);
    CompletedStays(run[i].w.cases[id], run[i + 1].w.cases[id]);
    CompletedStays(run[p].w.cases[id], run[i + 1].w.cases[id]);
  }

  /** While the record read is delivering, an agent once on the candidate is in the cohort the rollout then has. */
  lemma {:induction false} StillOnCandidate(
      setup: Setup, run: seq<Sys>, steps: seq<Step>, o: nat, i: nat, a: nat, id: string, agentID: string)
    requires IsRun(setup, run, steps) && o <= i < |steps| && |run| == |steps| + 1
    requires id in run[o].w.cases && Indexed(run[o].w.cases[id]) && OnCandidate(run[o].w.cases[id], agentID)
    requires a < |During(setup, run[i], steps[i], id)| && Delivering(During(setup, run[i], steps[i], id)[a])
    ensures Delivering(run[i].w.cases[id]) && OnCandidate(run[i].w.cases[id], agentID)
  {
    hide Inv, FilesDuring, AllIndexed, IsRun, OnCandidate;
    RunExtends(setup, run, steps, o, i, id);
    FileStates(setup.h, run[i].w.cases[id], EventOf(run[i].w, steps[i], id), a);
    FlapsNever(setup, run, steps, o, i, i, id, agentID);
  }

  /**
   * Over any run in which nobody else takes the key: an agent that was on the candidate at `o` reads the pointer as it
   * is at `p`, the record in step `i` and the targets in step `j`. It is served the stable version again exactly when
   * the rollout it finds is rolling back or rolled back, or completed after the pointer was read, or in the promotion
   * window.
   */
  lemma {:induction false} SnapshotReadsFlapIff(
      setup: Setup, run: seq<Sys>, steps: seq<Step>, o: nat, p: nat, i: nat, a: nat, j: nat, b: nat, id: string,
      agentID: string)
    requires IsRun(setup, run, steps) && |run| == |steps| + 1 && o <= p <= i + 1 && o <= i <= j < |steps|
    requires a < |During(setup, run[i], steps[i], id)| && b < |During(setup, run[j], steps[j], id)|
    requires i == j ==> a <= b
    requires id in run[o].w.cases && Delivering(run[o].w.cases[id])
    requires Indexed(run[o].w.cases[id]) && OnCandidate(run[o].w.cases[id], agentID)
    requires KeyUndisturbed(setup, run, steps, o, i + 1, KeyOf(run[o].w.cases[id].r))
    ensures id in run[p].w.cases
    ensures var r := run[o].w.cases[id].r;
      var m, q := During(setup, run[i], steps[i], id)[a], During(setup, run[j], steps[j], id)[b];
      && r.stableVersionID != r.candidateVersionID
      && ReadVersion(Pointer(run[p].w.registry, KeyOf(r)), m.r, q, agentID)
         == if || RolledAway(m.r.state)
               || (m.r.state == Completed && run[p].w.cases[id].r.state != Completed)
               || (Delivering(m) && i == j && Unfilled(m) && Unfilled(q))
            then r.stableVersionID else r.candidateVersionID
  {
    hide Inv, During, FilesDuring, AllIndexed, IsRun, Extends, TornServing, Unfilled, OnCandidate, Pointer, LeavesKey;
    hide OnTheWay;
    var m, q := During(setup, run[i], steps[i], id)[a], During(setup, run[j], steps[j], id)[b];
    StateOfFile(setup, run, steps, i, a, id);
    RunKeepsKey(setup, run, steps, o, p, id);
    PointerFollowsTheRollout(setup, run, steps, o, p, id);
    VersionsOfFile(setup, run, steps, o, p, i, a, id);
    if m.r.state == RolledBack {
      NoCompletionBeside(setup, run, steps, p, i, a, id);
    } else if m.r.state == RollingBack {
      RollingBackServesStable(m.r, q, agentID);
    } else if Delivering(m) {
      StillOnCandidate(setup, run, steps, o, i, a, id, agentID);
      TornReadsFlapIff(setup, run, steps, i, a, j, b, id, agentID);
    }
  }

  lemma {:induction false} StateOfFile(setup: Setup, run: seq<Sys>, steps: seq<Step>, i: nat, a: nat, id: string)
    requires IsRun(setup, run, steps) && i < |steps| && |run| == |steps| + 1
    requires a < |During(setup, run[i], steps[i], id)|
    ensures var m := During(setup, run[i], steps[i], id)[a];
      Delivering(m) || RolledAway(m.r.state) || m.r.state == Completed
  {
    hide Inv, FilesDuring, AllIndexed, IsRun, Extends;
    RunExtends(setup, run, steps, i, i, id);
    FileStates(setup.h, run[i].w.cases[id], EventOf(run[i].w, steps[i], id), a);
    if Terminal(run[i].w.cases[id].r.state) {
      EndedStates(setup.h, run[i].w.cases[id]);
    }
  }

  lemma {:induction false} EndedStates(h: Hash, c: Case)
    requires Inv(h, c) && Terminal(c.r.state)
    ensures RolledAway(c.r.state) || c.r.state == Completed
  {
  }

  /** The two versions are the same in every file of the rollout. */
  lemma {:induction false} VersionsOfFile(
      setup: Setup, run: seq<Sys>, steps: seq<Step>, o: nat, p: nat, i: nat, a: nat, id: string)
    requires IsRun(setup, run, steps) && |run| == |steps| + 1 && o <= p <= i + 1 && o <= i < |steps|
    requires id in run[o].w.cases && a < |During(setup, run[i], steps[i], id)|
    ensures id in run[p].w.cases
    ensures forall r | r in {run[p].w.cases[id].r, run[i].w.cases[id].r, During(setup, run[i], steps[i], id)[a].r} ::
      r.stableVersionID == run[o].w.cases[id].r.stableVersionID
      && r.candidateVersionID == run[o].w.cases[id].r.candidateVersionID
    ensures run[o].w.cases[id].r.stableVersionID != run[o].w.cases[id].r.candidateVersionID
  {
    hide Inv, During, IsRun;
    RunExtends(setup, run, steps, o, p, id);
    RunExtends(setup, run, steps, o, i, id);
    FilesInRun(setup, run, steps, i, id, a);
    VersionsDiffer(setup.h, run[o].w.cases[id]);
  }
}
