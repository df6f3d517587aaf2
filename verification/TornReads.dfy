/**
 * ActiveRollout takes no service lock: it reads the record, then the targets of the record's stage, and the service may
 * write in between. Here a step is split into the files its single store writes leave behind, and the two reads may
 * fall on any two of them.
 */
module TornReads {
  import opened Lifecycle
  import opened Guardrails
  import opened Cohorts
  import opened RolloutCase
  import opened CaseInvariant
  import opened CaseSteps
  import opened Effective
  import opened RolloutTheorems
  import opened World
  import opened SystemRuns
  import opened RolloutStore
  import opened RolloutWrites
  import RolloutService

  /** The targets the second read finds under a stage name. */
  function StoredTargets(c: Case, stageID: string): seq<StageTarget> {
    var i := StageIndex(c.stages, stageID);
    if i < |c.stages| && i < |c.cohorts| then c.cohorts[i] else []
  }

  /** That is what the keyed store holds. */
  lemma {:induction false} StoredTargetsAreTheStores(db: Db, id: string, stageID: string)
    requires StoreInv(db) && id in db.rollouts
    ensures StoredTargets(FilesOf(db)[id], stageID) == TargetsAt(db, id, stageID)
  {
    var c := FilesOf(db)[id];
    assert c == FileOf(db, id);
    if StageIndex(c.stages, stageID) == |c.stages| {
      assert !HasStage(db, id, stageID);
    }
  }

  /** What an agent is served when the record and the targets come from different moments. */
  function TornServing(record: Rollout, later: Case, agentID: string): EffectiveVersion {
    EffectiveVersionForAgent(record, StoredTargets(later, record.currentStageID), agentID)
  }

  // ----- The files one step passes through -----

  /** The file before the step, and the file after each of its store writes, which Service proves its log shows. */
  function FilesDuring(h: Hash, c: Case, e: Event): (files: seq<Case>)
    requires Indexed(c)
    ensures |files| > 0 && files[0] == c
  {
    [c] + EventWrites(h, c, e)
  }

  /** A file on the way to `n`: same identity, and each cohort still empty or already as `n` keeps it. */
  ghost predicate OnTheWay(m: Case, n: Case) {
    && SameIdentity(n.r, m.r) && m.stages <= n.stages && |m.cohorts| == |m.stages| && |n.cohorts| == |n.stages|
    && forall i :: 0 <= i < |m.cohorts| ==> m.cohorts[i] == [] || SameTargets(m.cohorts[i], n.cohorts[i])
  }

  lemma {:induction false} OnTheWayCompose(a: Case, b: Case, c: Case)
    requires OnTheWay(a, b) && OnTheWay(b, c)
    ensures OnTheWay(a, c)
  {
    hide SameTargets;
    forall i | 0 <= i < |a.cohorts| && a.cohorts[i] != [] ensures SameTargets(a.cohorts[i], c.cohorts[i]) {
      LengthOfSame(a.cohorts[i], b.cohorts[i]);
      SameTargetsCompose(a.cohorts[i], b.cohorts[i], c.cohorts[i]);
    }
  }

  lemma {:induction false} LengthOfSame(a: seq<StageTarget>, b: seq<StageTarget>)
    ensures SameTargets(a, b) ==> |a| == |b|
  {
  }

  /**
   * One file after the other: from `c` through `files` to `n`, which is the last of them, or `c` itself if there are
   * none.
   */
  ghost predicate Leads(c: Case, files: seq<Case>, n: Case) {
    && OnTheWay(c, n)
    && (forall k :: 0 <= k < |files| ==> OnTheWay(c, files[k]) && OnTheWay(files[k], n))
    && n == if files == [] then c else files[|files| - 1]
  }

  lemma {:induction false} LeadsOn(a: Case, files: seq<Case>, b: Case, more: seq<Case>, c: Case)
    requires Leads(a, files, b) && Leads(b, more, c)
    ensures Leads(a, files + more, c)
  {
    hide OnTheWay;
    OnTheWayCompose(a, b, c);
    var all := files + more;
    forall k | 0 <= k < |all| ensures OnTheWay(a, all[k]) && OnTheWay(all[k], c) {
      if k < |files| {
        OnTheWayCompose(files[k], b, c);
      } else {
        OnTheWayCompose(a, b, more[k - |files|]);
      }
    }
  }

  lemma {:induction false} OnItsOwnWay(c: Case)
    requires |c.cohorts| == |c.stages|
    ensures OnTheWay(c, c)
  {
  }

  lemma {:induction false} NothingWritten(c: Case)
    requires |c.cohorts| == |c.stages|
    ensures Leads(c, [], c)
  {
    OnItsOwnWay(c);
  }

  /** A write of the record alone. */
  lemma {:induction false} RecordWritten(c: Case, n: Case)
    requires |c.cohorts| == |c.stages| && n.stages == c.stages && n.cohorts == c.cohorts && SameIdentity(n.r, c.r)
    ensures Leads(c, [n], n)
  {
    hide SameIdentity;
    OnItsOwnWay(c);
    OnItsOwnWay(n);
    IdentityIsMutual(c.r, n.r);
  }

  lemma {:induction false} IdentityIsMutual(r: Rollout, r': Rollout)
    ensures SameIdentity(r, r') <==> SameIdentity(r', r)
  {
  }

  lemma {:induction false} VerificationLeads(c: Case, revision: int, t: Tick)
    requires Indexed(c) && !Verifying(c)
    ensures Leads(c, RollbackWrites(c, revision, t), RollbackEffect(c, revision, t).next)
  {
    var begun := BeginVerification(c, revision, t);
    var targets := begun.cohorts[|c.stages|];
    assert begun.cohorts[..|c.cohorts|] == c.cohorts;
    assert begun.stages[..|c.stages|] == c.stages;
    StagingLeads(c, begun);
    if Current(c) == [] {
      RecordWritten(begun, Ended(begun, Verified, t.clock.save));
      LeadsOn(c, [c, WithStageOnly(c), Case(c.r, begun.stages, begun.cohorts), begun], begun,
              [Ended(begun, Verified, t.clock.save)], Ended(begun, Verified, t.clock.save));
    } else {
      assert RollbackWrites(c, revision, t) == [c, WithStageOnly(c), Case(c.r, begun.stages, begun.cohorts), begun];
    }
  }

  lemma {:induction false} StagingLeads(c: Case, begun: Case)
    requires |c.cohorts| == |c.stages| && SameIdentity(begun.r, c.r)
    requires begun.stages == WithStageOnly(c).stages && |begun.cohorts| == |begun.stages|
    requires begun.cohorts[..|c.cohorts|] == c.cohorts
    ensures Leads(c, [c, WithStageOnly(c), Case(c.r, begun.stages, begun.cohorts), begun], begun)
  {
  }

  lemma {:induction false} RollbackLeads(c: Case, revision: int, t: Tick)
    requires Indexed(c) && c.r.state == RollingBack
    ensures Leads(c, RollbackWrites(c, revision, t), RollbackEffect(c, revision, t).next)
  {
    hide CoverageReached, Leads;
    if !Verifying(c) {
      VerificationLeads(c, revision, t);
    } else {
      NothingWritten(c);
      RecordWritten(c, Ended(c, Verified, t.clock.save));
      RecordWritten(c, Ended(c, Partial, t.clock.save));
    }
  }

  /** If a stage is left, the next one has no targets yet. */
  predicate NextIsEmpty(c: Case)
    requires Indexed(c)
  {
    c.r.currentStageIndex < |c.stages| - 1 ==> c.cohorts[c.r.currentStageIndex + 1] == []
  }

  lemma {:induction false} PromoteLeads(h: Hash, c: Case, agents: seq<Agent>, revision: int, t: Tick)
    requires Indexed(c) && NextIsEmpty(c)
    ensures Leads(c, PromoteWrites(h, c, agents, revision, t), PromoteEffect(h, c, agents, revision, t).next)
  {
    hide Cohort;
    if c.r.currentStageIndex == |c.stages| - 1 {
      RecordWritten(c, WithState(c, Completed, t.clock.save));
    } else {
      OnItsOwnWay(c);
    }
  }

  lemma {:induction false} ActLeads(
      h: Hash, c: Case, decision: StageDecision, agents: seq<Agent>, revision: int, t: Tick)
    requires Indexed(c) && NextIsEmpty(c)
    ensures Leads(c, ActWrites(h, c, decision, agents, revision, t),
                  RolloutService.ActEffect(h, c, decision, agents, revision, t).next)
  {
    hide Leads, PromoteWrites, PromoteEffect;
    NothingWritten(c);
    PromoteLeads(h, c, agents, revision, t);
    RecordWritten(c, WithState(c, RollingBack, t.clock.save));
    RecordWritten(c, WithState(c, Paused, t.clock.save));
  }

  lemma {:induction false} ObservationLeads(c: Case, t: Tick)
    requires Indexed(c)
    ensures Leads(c, ObservationWrites(c, t), Observed(c, t))
  {
    hide Leads, Consults;
    NothingWritten(c);
    if Consults(c, t) {
      RecordWritten(c, Observed(c, t));
    }
  }

  lemma {:induction false} ProgressLeads(h: Hash, c: Case, agents: seq<Agent>, revision: int, t: Tick)
    requires Indexed(c) && (Delivering(c) || c.r.state == RollingBack) && (Delivering(c) ==> NextIsEmpty(c))
    ensures Leads(c, ProgressWrites(h, c, agents, revision, t), Progress(h, c, agents, revision, t).next)
  {
    hide Leads, RollbackWrites, ObservationWrites, ActWrites, RollbackEffect, RolloutService.ActEffect, Observed;
    hide Decide, Progress;
    if c.r.state == RollingBack {
      RollbackLeads(c, revision, t);
      RolloutService.RollingBackProgress(h, c, agents, revision, t);
    } else {
      var o, decision := Observed(c, t), Decide(c, t);
      ObservationLeads(c, t);
      ActLeads(h, o, decision, agents, revision, t);
      RolloutService.ProgressActs(h, c, agents, revision, t);
      LeadsOn(c, ObservationWrites(c, t), o, ActWrites(h, o, decision, agents, revision, t),
              RolloutService.ActEffect(h, o, decision, agents, revision, t).next);
    }
  }

  lemma {:induction false} AckLeads(c: Case, ack: Ack)
    requires Indexed(c)
    ensures Leads(c, AckWrites(c, ack), AckCase(c, ack))
  {
    hide Acknowledged, Counts;
    OnItsOwnWay(c);
    OnItsOwnWay(AckCase(c, ack));
    AckKeepsTargets(Current(c), ack);
    if Counts(Current(c), ack) {
      SameCohorts(c, Position(c), Acknowledged(Current(c), ack));
    } else {
      RolloutService.UncountedChangesNothing(c, ack);
    }
  }

  lemma {:induction false} SameCohorts(c: Case, i: nat, targets: seq<StageTarget>)
    requires |c.cohorts| == |c.stages| && i < |c.cohorts| && SameTargets(c.cohorts[i], targets)
    ensures OnTheWay(c, c.(cohorts := c.cohorts[i := targets]))
  {
  }

  lemma {:induction false} ReadyToMove(h: Hash, c: Case)
    requires Inv(h, c) && !Terminal(c.r.state)
    ensures Indexed(c) && (Delivering(c) || c.r.state == RollingBack) && (Delivering(c) ==> NextIsEmpty(c))
  {
  }

  /** A step's writes lead, file by file, from the file before it to the file after it. */
  lemma {:induction false} StepLeads(h: Hash, c: Case, e: Event)
    requires Inv(h, c)
    ensures Indexed(c) && Leads(c, EventWrites(h, c, e), Next(h, c, e))
  {
    hide Leads, Progress, ProgressWrites, AckWrites, Inv, AckCase, NextIsEmpty;
    IndexedOfInv(h, c);
    NothingWritten(c);
    if !Terminal(c.r.state) {
      match e
      case Idle =>
      case Visit(agents, revision, tick) =>
        ReadyToMove(h, c);
        ProgressLeads(h, c, agents, revision, tick);
      case AckVisit(ack, agents, revision, tick) =>
        var a := AckCase(c, ack);
        AckKeepsInv(h, c, ack);
        RolloutService.AckMarksCurrent(c, ack);
        ReadyToMove(h, a);
        AckLeads(c, ack);
        ProgressLeads(h, a, agents, revision, tick);
        LeadsOn(c, AckWrites(c, ack), a, ProgressWrites(h, a, agents, revision, tick), Next(h, c, e));
    }
  }

  lemma {:induction false} IndexedOfInv(h: Hash, c: Case)
    requires Inv(h, c)
    ensures Indexed(c)
  {
  }

  /** They begin with the file before the step, end with the file after it, and each keeps what came before. */
  lemma {:induction false} FilesSpanTheStep(h: Hash, c: Case, e: Event, k: nat)
    requires Inv(h, c) && k < |FilesDuring(h, c, e)|
    ensures var files := FilesDuring(h, c, e);
      files[0] == c && files[|files| - 1] == Next(h, c, e) && OnTheWay(c, files[k]) && OnTheWay(files[k], Next(h, c, e))
  {
    hide Inv, OnTheWay, EventWrites, Next;
    StepLeads(h, c, e);
    OnItsOwnWay(c);
  }

  // ----- Safety -----

  /** Past the current stage only verification targets are stored, and they ask for the stable version. */
  lemma {:induction false} LaterTargetsAskForStable(h: Hash, n: Case, i: nat, k: nat)
    requires Inv(h, n) && n.r.currentStageIndex < i < |n.cohorts| && k < |n.cohorts[i]|
    ensures n.cohorts[i][k].expectedVersionID == n.r.stableVersionID
  {
    hide Nested, Earned, Paced, Guarded, Concluded, ValidPlan, DistinctStages, ValidRules, CandidateCohort;
    if Verifying(n) && i == |n.stages| - 1 {
      assert MirrorTarget(n.r, n.cohorts[n.r.currentStageIndex][k], n.cohorts[i][k]);
    }
  }

  lemma {:induction false} TornCandidateHasATarget(record: Rollout, later: Case, agentID: string)
    requires record.stableVersionID != record.candidateVersionID
    requires TornServing(record, later, agentID).versionID == record.candidateVersionID
    ensures exists i: nat, k: nat :: AsksFor(later, i, k, agentID, record.candidateVersionID)
  {
    var targets := StoredTargets(later, record.currentStageID);
    var k := FirstAssigned(record, targets, agentID);
    var i := StageIndex(later.stages, record.currentStageID);
    assert k < |targets|;
    assert AsksFor(later, i, k, agentID, record.candidateVersionID);
  }

  /** Target `k` of cohort `i` is the agent's and expects that version. */
  predicate AsksFor(c: Case, i: nat, k: nat, agentID: string, versionID: string) {
    i < |c.cohorts| && k < |c.cohorts[i]| && c.cohorts[i][k].agentID == agentID
    && c.cohorts[i][k].expectedVersionID == versionID
  }

  /** Wherever the two reads fall, only an agent of an activated cohort is served the candidate. */
  lemma {:induction false} TornReadStaysInTheCohorts(h: Hash, record: Rollout, m: Case, n: Case, agentID: string)
    requires Inv(h, n) && SameIdentity(n.r, record) && OnTheWay(m, n)
    requires TornServing(record, m, agentID).versionID == n.r.candidateVersionID
    ensures exists i :: 0 <= i <= n.r.currentStageIndex && Targeted(n.cohorts[i], agentID)
  {
    hide Activated, Nested, Mirrored, Earned, Paced, Guarded, Concluded, StoredTargets, TornServing;
    TornCandidateHasATarget(record, m, agentID);
    var i: nat, k: nat :| AsksFor(m, i, k, agentID, record.candidateVersionID);
    assert SameTarget(m.cohorts[i][k], n.cohorts[i][k]);
    if n.r.currentStageIndex < i {
      LaterTargetsAskForStable(h, n, i, k);
    }
    assert n.cohorts[i][k] in n.cohorts[i];
  }

  /** The files rollout `id` passes through in one step of the control plane; none if there is no such rollout yet. */
  function During(setup: Setup, s: Sys, step: Step, id: string): (files: seq<Case>)
    ensures AllIndexed(s.w) && id in s.w.cases ==> |files| > 0 && files[0] == s.w.cases[id]
    ensures files != [] ==> AllIndexed(s.w) && id in s.w.cases
  {
    if AllIndexed(s.w) && id in s.w.cases then FilesDuring(setup.h, s.w.cases[id], EventOf(s.w, step, id)) else []
  }

  lemma {:induction false} FilesInRun(setup: Setup, run: seq<Sys>, steps: seq<Step>, n: nat, id: string, k: nat)
    requires IsRun(setup, run, steps) && n < |steps| && |run| == |steps| + 1
    requires k < |During(setup, run[n], steps[n], id)|
    ensures |run| == |steps| + 1 && id in run[n].w.cases && id in run[n + 1].w.cases
    ensures Inv(setup.h, run[n + 1].w.cases[id])
    ensures OnTheWay(run[n].w.cases[id], During(setup, run[n], steps[n], id)[k])
    ensures OnTheWay(During(setup, run[n], steps[n], id)[k], run[n + 1].w.cases[id])
  {
    hide FilesDuring, Inv, Extends, Next, Enabled, SysInv, OnTheWay, Apply, AllIndexed;
    RunExtends(setup, run, steps, n, n + 1, id);
    assert run[n + 1] == Advance(setup, run[n], steps[n]);
    StepOnOneRollout(setup, run[n], steps[n], id);
    FilesSpanTheStep(setup.h, run[n].w.cases[id], EventOf(run[n].w, steps[n], id), k);
  }

  /**
   * Over any run: whoever a torn read serves the candidate is in an activated cohort once the step under way ends, so a
   * later rollback reaches that agent too.
   */
  lemma {:induction false} TornReadsInRuns(
      setup: Setup, run: seq<Sys>, steps: seq<Step>, i: nat, a: nat, j: nat, b: nat, id: string, agentID: string)
    requires IsRun(setup, run, steps) && i <= j < |steps| && |run| == |steps| + 1
    requires a < |During(setup, run[i], steps[i], id)| && b < |During(setup, run[j], steps[j], id)|
    ensures id in run[j + 1].w.cases && Indexed(run[j + 1].w.cases[id])
    ensures var n := run[j + 1].w.cases[id];
      (TornServing(During(setup, run[i], steps[i], id)[a].r, During(setup, run[j], steps[j], id)[b], agentID).versionID
       == n.r.candidateVersionID) ==> exists s :: 0 <= s <= n.r.currentStageIndex && Targeted(n.cohorts[s], agentID)
  {
    hide During, TornServing, AllIndexed, IsRun, Activated, Nested, Mirrored, Earned, Paced, Guarded, Concluded;
    FilesInRun(setup, run, steps, i, id, a);
    FilesInRun(setup, run, steps, j, id, b);
    RunExtends(setup, run, steps, i + 1, j + 1, id);
    var record, m := During(setup, run[i], steps[i], id)[a].r, During(setup, run[j], steps[j], id)[b];
    var n := run[j + 1].w.cases[id];
    if TornServing(record, m, agentID).versionID == n.r.candidateVersionID {
      TornReadStaysInTheCohorts(setup.h, record, m, n, agentID);
    }
  }

  /** And the verification stage of a later rollback, if there is one, includes that agent. */
  lemma {:induction false} TornReadsAreVerified(
      setup: Setup, run: seq<Sys>, steps: seq<Step>, i: nat, a: nat, j: nat, b: nat, k: nat, id: string,
      agentID: string)
    requires IsRun(setup, run, steps) && i <= j < |steps| && j < k < |run| == |steps| + 1
    requires a < |During(setup, run[i], steps[i], id)| && b < |During(setup, run[j], steps[j], id)|
    requires id in run[k].w.cases && Verifying(run[k].w.cases[id])
    requires TornServing(During(setup, run[i], steps[i], id)[a].r, During(setup, run[j], steps[j], id)[b],
                         agentID).versionID
      == run[k].w.cases[id].r.candidateVersionID
    ensures Indexed(run[k].w.cases[id]) && Targeted(Current(run[k].w.cases[id]), agentID)
  {
    hide During, TornServing, AllIndexed, IsRun, Activated, Nested, Mirrored, Earned, Paced, Guarded, Concluded;
    TornReadsInRuns(setup, run, steps, i, a, j, b, id, agentID);
    RunExtends(setup, run, steps, j + 1, k, id);
    var n, c := run[j + 1].w.cases[id], run[k].w.cases[id];
    var s :| 0 <= s <= n.r.currentStageIndex && Targeted(n.cohorts[s], agentID);
    ExposureIsKept(setup.h, n, c, s, agentID);
    VerificationChecksTheCohort(setup.h, c, agentID);
  }
}
