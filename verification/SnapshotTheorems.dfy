/** What a snapshot promises, and what becomes of the acknowledgements an agent builds from it. */
module SnapshotTheorems {
  import opened Text
  import opened Wrappers
  import opened Lifecycle
  import opened Guardrails
  import opened Cohorts
  import opened RolloutCase
  import opened CaseInvariant
  import opened Effective
  import opened World
  import opened SystemInvariant
  import opened SystemRuns
  import opened SystemTheorems
  import opened DataPlane
  import R = ConfigRegistry

  // ----- Each entry -----

  /** The agent is in the current cohort of a rollout that is delivering to this configuration and environment. */
  predicate Exposed(w: World, definitionID: string, environment: string, agentID: string)
    requires AllIndexed(w)
  {
    match GetActive(w, definitionID, environment)
    case Some(id) => Delivering(w.cases[id]) && Targeted(Current(w.cases[id]), agentID)
    case None => false
  }

  /** What the invariant says of the rollout the index finds. */
  lemma {:induction false} FoundRollout(h: Hash, w: World, definitionID: string, environment: string)
    requires WorldInv(h, w) && R.ValidEnvironment(environment) && GetActive(w, definitionID, environment).Some?
    ensures var id := GetActive(w, definitionID, environment).value;
      && id in w.cases && Indexed(w.cases[id]) && !Terminal(w.cases[id].r.state)
      && Inv(h, w.cases[id]) && w.cases[id].r.id == id && id != "" && Linked(w.registry, w.cases[id].r)
      && w.cases[id].r.configDefinitionID == definitionID && w.cases[id].r.environment == environment
      && Pointer(w.registry, ActiveKey(definitionID, environment)) == w.cases[id].r.stableVersionID
  {
    hide Linked, R.RegistryInv, RevisionsUnique, AgentsKnown, Activated, Nested, Mirrored, Earned, Paced, Guarded;
    hide Concluded;
    hide ActiveAgrees, ValidPlan, DistinctStages, ValidRules, Join;
    assert NulFree(environment);
    var id := GetActive(w, definitionID, environment).value;
    ActiveIndexIsAScan(h, w, id, definitionID, environment);
    assert Inv(h, w.cases[id]);
  }

  /** The candidate goes exactly to the exposed agents; everyone else gets the environment's stable version. */
  lemma {:induction false} ServedVersion(h: Hash, w: World, definitionID: string, environment: string, agentID: string)
    requires WorldInv(h, w) && AllIndexed(w) && R.ValidEnvironment(environment)
    ensures VersionFor(w, definitionID, environment, agentID)
      == if Exposed(w, definitionID, environment, agentID)
         then w.cases[GetActive(w, definitionID, environment).value].r.candidateVersionID
         else Pointer(w.registry, ActiveKey(definitionID, environment))
    ensures Choice(w, definitionID, environment, agentID).versionID == VersionFor(w, definitionID, environment, agentID)
  {
    hide Inv, Linked, WorldInv, Serving, GetActive, AllIndexed;
    if GetActive(w, definitionID, environment).Some? {
      FoundRollout(h, w, definitionID, environment);
      ServingIsByCohort(h, w.cases[GetActive(w, definitionID, environment).value], agentID);
    }
  }

  lemma {:induction false} StableVersionExists(h: Hash, w: World, definitionID: string, environment: string)
    requires WorldInv(h, w) && R.ValidEnvironment(environment)
    requires Pointer(w.registry, ActiveKey(definitionID, environment)) != ""
    ensures R.NamesVersion(R.VersionsOf(w.registry, definitionID),
                           Pointer(w.registry, ActiveKey(definitionID, environment)))
  {
    hide Files, AgentsKnown, ActiveAgrees, RegistryLinks, PointersHeld, RevisionsUnique, R.KeysAgree, R.NumbersAgree;
    hide R.VersionsNumbered;
    var e := w.registry.states[ActiveKey(definitionID, environment)];
    JoinIsInjectiveOnTheRight(definitionID, environment, e.configDefinitionID, e.environment);
  }

  lemma {:induction false} CandidateExists(s: Registry, r: Rollout)
    requires Linked(s, r)
    ensures R.NamesVersion(R.VersionsOf(s, r.configDefinitionID), r.candidateVersionID)
  {
  }

  /** Whatever version is chosen is one of the definition's versions. */
  lemma {:induction false} ChosenVersionExists(
      h: Hash, w: World, definitionID: string, environment: string, agentID: string)
    requires WorldInv(h, w) && AllIndexed(w) && R.ValidEnvironment(environment)
    requires Pointer(w.registry, ActiveKey(definitionID, environment)) != ""
    ensures R.NamesVersion(R.VersionsOf(w.registry, definitionID), VersionFor(w, definitionID, environment, agentID))
  {
    hide Inv, Serving, GetActive, VersionFor, WorldInv, Pointer, R.NamesVersion, AllIndexed, Targeted;
    ServedVersion(h, w, definitionID, environment, agentID);
    StableVersionExists(h, w, definitionID, environment);
    if GetActive(w, definitionID, environment).Some? {
      FoundRollout(h, w, definitionID, environment);
      CandidateExists(w.registry, w.cases[GetActive(w, definitionID, environment).value].r);
    }
  }

  /** A configuration with a stable pointer is never dropped, and its item is exactly the served version's. */
  lemma {:induction false} EntryIsTheServedVersion(h: Hash, w: World, checksum: Checksum, d: R.Definition, agent: Agent)
    requires WorldInv(h, w) && AllIndexed(w) && R.ValidEnvironment(agent.environment)
    ensures EntryFor(w, checksum, d, agent).Some? <==> Pointer(w.registry, ActiveKey(d.id, agent.environment)) != ""
    ensures EntryFor(w, checksum, d, agent).Some? ==>
      (var item := EntryFor(w, checksum, d, agent).value.item;
       var versions := R.VersionsOf(w.registry, d.id);
       && item.configDefinitionID == d.id && item.key == d.key
       && item.versionID == VersionFor(w, d.id, agent.environment, agent.id)
       && 1 <= item.version <= |versions| && versions[item.version - 1].id == item.versionID
       && item.value == versions[item.version - 1].value && item.checksum == checksum(item.value))
  {
    hide WorldInv, VersionFor, Choice, R.NamesVersion;
    if Pointer(w.registry, ActiveKey(d.id, agent.environment)) != "" {
      var versions := R.VersionsOf(w.registry, d.id);
      ServedVersion(h, w, d.id, agent.environment, agent.id);
      ChosenVersionExists(h, w, d.id, agent.environment, agent.id);
      NamedIsFound(versions, VersionFor(w, d.id, agent.environment, agent.id));
      NumberedByPosition(h, w, d.id, R.IndexByID(versions, VersionFor(w, d.id, agent.environment, agent.id)));
    }
  }

  lemma {:induction false} NamedIsFound(versions: seq<R.Version>, id: string)
    requires R.NamesVersion(versions, id)
    ensures R.IndexByID(versions, id) < |versions|
  {
  }

  lemma {:induction false} NumberedByPosition(h: Hash, w: World, id: string, i: nat)
    requires WorldInv(h, w) && i < |R.VersionsOf(w.registry, id)|
    ensures R.VersionsOf(w.registry, id)[i].versionNumber == i + 1
  {
    hide Files, AgentsKnown, ActiveAgrees, RegistryLinks, PointersHeld, RevisionsUnique, R.KeysAgree, R.NumbersAgree;
    hide R.PointersExist;
    assert R.Numbered(id, R.VersionsOf(w.registry, id));
  }

  /** Target `k` of the current cohort of rollout `id` is the agent's, and the entry was built from it. */
  predicate BuiltFrom(w: World, id: string, k: nat, agentID: string, e: Entry)
    requires AllIndexed(w)
  {
    id in w.cases && k < |Current(w.cases[id])|
    && var t := Current(w.cases[id])[k];
       t.agentID == agentID && e.revision == t.snapshotRevision
       && e.item.assignment == Assignment(t.rolloutID, t.stageID)
       && t.expectedVersionID == e.item.versionID && t.rolloutID == id
  }

  lemma {:induction false} NoAssignmentBeforeVerification(h: Hash, c: Case, agentID: string)
    requires Inv(h, c) && c.r.state == RollingBack && !Verifying(c)
    ensures Serving(c, agentID).assignedRollout == ""
  {
    var k := FirstAssigned(c.r, Current(c), agentID);
    if k < |Current(c)| {
      CurrentTargetsAreAssigned(h, c, k);
    }
  }

  /** An assigned entry carries the agent's own target and its revision; an unassigned one carries revision 1. */
  lemma {:induction false} EntryIsTheTarget(h: Hash, w: World, checksum: Checksum, d: R.Definition, agent: Agent)
    requires WorldInv(h, w) && AllIndexed(w) && R.ValidEnvironment(agent.environment)
    requires EntryFor(w, checksum, d, agent).Some?
    ensures var e := EntryFor(w, checksum, d, agent).value;
      && e.revision >= 1 && (e.item.assignment == UNASSIGNED ==> e.revision == 1)
      && (e.item.assignment != UNASSIGNED ==>
            GetActive(w, d.id, agent.environment) == Some(e.item.assignment.rolloutID)
            && exists k: nat :: BuiltFrom(w, e.item.assignment.rolloutID, k, agent.id, e))
  {
    hide WorldInv, GetActive, Inv, Serving, AllIndexed, Linked, Current, VersionFor;
    var e := EntryFor(w, checksum, d, agent).value;
    if GetActive(w, d.id, agent.environment).Some? {
      FoundRollout(h, w, d.id, agent.environment);
      var id := GetActive(w, d.id, agent.environment).value;
      var s := Serving(w.cases[id], agent.id);
      AssignedServing(h, w, id, agent.id);
      if s.assignedRollout != "" {
        var k: nat :| AssignedFrom(w.cases[id], k, agent.id, s);
        assert BuiltFrom(w, id, k, agent.id, e);
      }
    }
  }

  /**
   * An item is assigned exactly to the agents asked at the moment, to deploy the candidate or to confirm the rollback.
   */
  lemma {:induction false} AssignedIff(h: Hash, w: World, checksum: Checksum, d: R.Definition, agent: Agent)
    requires WorldInv(h, w) && AllIndexed(w) && R.ValidEnvironment(agent.environment)
    requires EntryFor(w, checksum, d, agent).Some?
    ensures EntryFor(w, checksum, d, agent).value.item.assignment != UNASSIGNED <==>
      match GetActive(w, d.id, agent.environment)
      case Some(id) => (Delivering(w.cases[id]) || Verifying(w.cases[id])) && Targeted(Current(w.cases[id]), agent.id)
      case None => false
  {
    hide WorldInv, GetActive, Inv, Serving, AllIndexed, Linked, Current, VersionFor, Targeted;
    if GetActive(w, d.id, agent.environment).Some? {
      FoundRollout(h, w, d.id, agent.environment);
      var c := w.cases[GetActive(w, d.id, agent.environment).value];
      if Delivering(c) || Verifying(c) {
        AssignmentIsTheTarget(h, c, agent.id);
      } else {
        UndecidedStates(h, c);
        NoAssignmentBeforeVerification(h, c, agent.id);
      }
    }
  }

  lemma {:induction false} UndecidedStates(h: Hash, c: Case)
    requires Inv(h, c) && !Terminal(c.r.state) && !Delivering(c)
    ensures c.r.state == RollingBack
  {
  }

  /** `s` hands out target `k` of the current cohort, which is the agent's. */
  predicate AssignedFrom(c: Case, k: nat, agentID: string, s: EffectiveVersion)
    requires Indexed(c)
  {
    k < |Current(c)| && Current(c)[k].agentID == agentID
    && s == AssignedTo(Current(c)[k], Current(c)[k].expectedVersionID)
  }

  lemma {:induction false} AssignedServing(h: Hash, w: World, id: string, agentID: string)
    requires WorldInv(h, w) && id in w.cases && Inv(h, w.cases[id]) && w.cases[id].r.id == id && id != ""
    requires Indexed(w.cases[id]) && !Terminal(w.cases[id].r.state)
    ensures var s := Serving(w.cases[id], agentID);
      s.assignedRollout != "" ==>
        s.assignedRollout == id && s.snapshotRevision >= 1 && exists k: nat :: AssignedFrom(w.cases[id], k, agentID, s)
  {
    hide Files, AgentsKnown, ActiveAgrees, RegistryLinks, PointersHeld, R.RegistryInv, Serving, Nested, Mirrored;
    hide Earned, Paced, Guarded, Concluded, Activated;
    var c := w.cases[id];
    var s := Serving(c, agentID);
    if c.r.state == RollingBack && !Verifying(c) {
      NoAssignmentBeforeVerification(h, c, agentID);
    } else if s.assignedRollout != "" {
      AssignmentIsTheTarget(h, c, agentID);
      var k :| 0 <= k < |Current(c)| && Current(c)[k].agentID == agentID
        && s == AssignedTo(Current(c)[k], Current(c)[k].expectedVersionID);
      CurrentTargetsAreAssigned(h, c, k);
      assert AssignedFrom(c, k, agentID, s);
      assert Carries(w, id, Position(c), k, s.snapshotRevision);
    }
  }

  // ----- The whole snapshot -----

  /** Definition `d` of the walk contributes `e`. */
  predicate Shows(w: World, checksum: Checksum, walked: seq<R.Definition>, agent: Agent, d: R.Definition, e: Entry)
    requires AllIndexed(w)
  {
    d in walked && EntryFor(w, checksum, d, agent) == Some(e)
  }

  /** Every entry is in the snapshot and no other item is; the revision is the largest of theirs, and at least 1. */
  ghost predicate IsSnapshot(
      w: World, checksum: Checksum, walked: seq<R.Definition>, agent: Agent, items: seq<SnapshotItem>, revision: int)
    requires AllIndexed(w)
  {
    && (forall d, e :: Shows(w, checksum, walked, agent, d, e) ==> e.item in items && e.revision <= revision)
    && (forall x :: x in items ==> exists d, e :: Shows(w, checksum, walked, agent, d, e) && e.item == x)
    && revision >= 1
    && (revision == 1 || exists d, e :: Shows(w, checksum, walked, agent, d, e) && e.revision == revision)
  }

  lemma {:induction false} ShowsGrows(
      w: World, checksum: Checksum, walked: seq<R.Definition>, last: R.Definition, agent: Agent)
    requires AllIndexed(w)
    ensures forall d, e :: Shows(w, checksum, walked + [last], agent, d, e) <==>
      Shows(w, checksum, walked, agent, d, e) || (d == last && EntryFor(w, checksum, last, agent) == Some(e))
  {
    hide EntryFor;
  }

  /** The loop of GetSnapshot collects exactly the entries of the definitions it walks, and their largest revision. */
  lemma {:induction false} CollectedIsTheSnapshot(w: World, checksum: Checksum, walked: seq<R.Definition>, agent: Agent)
    requires AllIndexed(w)
    ensures IsSnapshot(w, checksum, walked, agent, Collected(w, checksum, walked, agent).0,
                       Collected(w, checksum, walked, agent).1)
  {
    if walked != [] {
      var front, last := walked[..|walked| - 1], walked[|walked| - 1];
      CollectedIsTheSnapshot(w, checksum, front, agent);
      assert walked == front + [last];
      var (items, revision) := Collected(w, checksum, front, agent);
      SnapshotGrows(w, checksum, front, last, agent, items, revision);
    }
  }

  lemma {:induction false} SnapshotGrows(
      w: World, checksum: Checksum, front: seq<R.Definition>, last: R.Definition, agent: Agent,
      items: seq<SnapshotItem>, revision: int)
    requires AllIndexed(w) && IsSnapshot(w, checksum, front, agent, items, revision)
    ensures match EntryFor(w, checksum, last, agent)
      case None => IsSnapshot(w, checksum, front + [last], agent, items, revision)
      case Some(e) => IsSnapshot(w, checksum, front + [last], agent, items + [e.item],
                                 if e.revision > revision then e.revision else revision)
  {
    hide EntryFor, Shows, AllIndexed;
    ShowsGrows(w, checksum, front, last, agent);
    match EntryFor(w, checksum, last, agent)
    case None =>
    case Some(e) =>
      assert Shows(w, checksum, front + [last], agent, last, e);
  }

  // ----- Acknowledging what was served -----

  /** The acknowledgement SyncOnce sends for an item: the item's assignment, with the whole snapshot's revision. */
  function AckFor(agentID: string, item: SnapshotItem, revision: int, at: Time): Ack {
    Ack(item.assignment.rolloutID, item.assignment.stageID, agentID, item.versionID, revision, at)
  }

  predicate Pending(targets: seq<StageTarget>, agentID: string) {
    exists i :: 0 <= i < |targets| && targets[i].agentID == agentID && targets[i].status == TargetPending
  }

  lemma {:induction false} SameStageSamePosition(c: Case, c': Case)
    requires Shaped(c) && Shaped(c') && Extends(c, c') && c'.r.currentStageID == c.r.currentStageID
    ensures Position(c') == Position(c) && SameTargets(Current(c), Current(c'))
  {
    assert Frozen(c, Position(c));
    if !Verifying(c) {
      assert c'.stages[Position(c)] == c.stages[Position(c)];
    }
  }

  lemma {:induction false} FirstOfDistinct(targets: seq<StageTarget>, k: nat)
    requires DistinctTargets(targets) && k < |targets|
    ensures FirstOf(targets, targets[k].agentID) == k
  {
  }

  lemma {:induction false} CohortOfInvIsDistinct(h: Hash, c: Case)
    requires Inv(h, c)
    ensures DistinctTargets(Current(c))
  {
    var i := c.r.currentStageIndex;
    assert CandidateCohort(h, c.r, c.stages[i], c.cohorts[i]);
    if Verifying(c) {
      forall a, b | 0 <= a < b < |Current(c)| ensures Current(c)[a].agentID != Current(c)[b].agentID {
        assert MirrorTarget(c.r, c.cohorts[i][a], Current(c)[a]) && MirrorTarget(c.r, c.cohorts[i][b], Current(c)[b]);
      }
    }
  }

  /**
   * While its stage is current, an acknowledgement of target `k` counts iff it names the target's revision and the
   * target is pending.
   */
  lemma {:induction false} TargetAckCounts(h: Hash, before: Case, after: Case, k: nat, revision: int, at: Time)
    requires Inv(h, before) && Inv(h, after) && Extends(before, after) && k < |Current(before)|
    requires after.r.currentStageID == before.r.currentStageID
    ensures var t := Current(before)[k];
      Counts(Current(after), Ack(t.rolloutID, t.stageID, t.agentID, t.expectedVersionID, revision, at))
      <==> revision == t.snapshotRevision && Pending(Current(after), t.agentID)
  {
    hide Nested, Mirrored, Earned, Paced, Guarded, Concluded, Activated;
    SameStageSamePosition(before, after);
    CohortOfInvIsDistinct(h, after);
    var t := Current(before)[k];
    assert SameTarget(t, Current(after)[k]);
    FirstOfDistinct(Current(after), k);
  }

  /** `e` is an assigned entry of the walk and no other entry's revision is larger. */
  predicate Leads(w: World, checksum: Checksum, walked: seq<R.Definition>, agent: Agent, e: Entry)
    requires AllIndexed(w)
  {
    forall i :: 0 <= i < |walked| ==>
      EntryFor(w, checksum, walked[i], agent).Some? ==>
        EntryFor(w, checksum, walked[i], agent).value.revision <= e.revision
  }

  lemma {:induction false} LeadingIsTheRevision(
      h: Hash, w: World, checksum: Checksum, walked: seq<R.Definition>, agent: Agent, d: R.Definition)
    requires WorldInv(h, w) && AllIndexed(w) && R.ValidEnvironment(agent.environment)
    requires d in walked && EntryFor(w, checksum, d, agent).Some?
    ensures Collected(w, checksum, walked, agent).1 == EntryFor(w, checksum, d, agent).value.revision
      <==> Leads(w, checksum, walked, agent, EntryFor(w, checksum, d, agent).value)
  {
    hide WorldInv, AllIndexed, EntryFor, Collected;
    var e := EntryFor(w, checksum, d, agent).value;
    CollectedIsTheSnapshot(w, checksum, walked, agent);
    EntryIsTheTarget(h, w, checksum, d, agent);
    assert Shows(w, checksum, walked, agent, d, e);
    forall i | 0 <= i < |walked| && EntryFor(w, checksum, walked[i], agent).Some?
      ensures Shows(w, checksum, walked, agent, walked[i], EntryFor(w, checksum, walked[i], agent).value)
    {
    }
  }

  /**
   * Serve-then-ack. An acknowledgement built from a served assigned item, delivered at any later moment while the
   * item's stage is still current, is counted exactly when the agent's target is pending and the item's revision is the
   * largest in the snapshot it came from.
   */
  lemma {:induction false} ServedItemsAckCounts(
      setup: Setup, run: seq<Sys>, steps: seq<Step>, i: nat, j: nat, checksum: Checksum, walked: seq<R.Definition>,
      agent: Agent, d: R.Definition, at: Time)
    requires IsRun(setup, run, steps) && i <= j < |run| && AllIndexed(run[i].w) && AllIndexed(run[j].w)
    requires R.ValidEnvironment(agent.environment) && d in walked && EntryFor(run[i].w, checksum, d, agent).Some?
    requires var item := EntryFor(run[i].w, checksum, d, agent).value.item;
      item.assignment != UNASSIGNED && item.assignment.rolloutID in run[j].w.cases
      && run[j].w.cases[item.assignment.rolloutID].r.currentStageID == item.assignment.stageID
    ensures var e := EntryFor(run[i].w, checksum, d, agent).value;
      var current := Current(run[j].w.cases[e.item.assignment.rolloutID]);
      Counts(current, AckFor(agent.id, e.item, Collected(run[i].w, checksum, walked, agent).1, at))
      <==> Pending(current, agent.id) && Leads(run[i].w, checksum, walked, agent, e)
  {
    hide IsRun, EntryFor, Collected, Leads, Inv, AllIndexed, WorldInv, Counts, Pending, Extends;
    var e := EntryFor(run[i].w, checksum, d, agent).value;
    var id := e.item.assignment.rolloutID;
    ReachableStatesAreSound(setup, run, steps, i);
    EntryIsTheTarget(setup.h, run[i].w, checksum, d, agent);
    LeadingIsTheRevision(setup.h, run[i].w, checksum, walked, agent, d);
    var k: nat :| BuiltFrom(run[i].w, id, k, agent.id, e);
    RunExtends(setup, run, steps, i, j, id);
    CurrentTargetIsHere(setup.h, run[i].w.cases[id], k);
    TargetAckCounts(setup.h, run[i].w.cases[id], run[j].w.cases[id], k, Collected(run[i].w, checksum, walked, agent).1,
                    at);
  }

  lemma {:induction false} CurrentTargetIsHere(h: Hash, c: Case, k: nat)
    requires Inv(h, c) && k < |Current(c)|
    ensures Current(c)[k].stageID == c.r.currentStageID
  {
    CurrentTargetsAreAssigned(h, c, k);
  }

  /** With no other assigned item in the snapshot the item always leads, so its first acknowledgement counts. */
  lemma {:induction false} OnlyAssignmentLeads(
      h: Hash, w: World, checksum: Checksum, walked: seq<R.Definition>, agent: Agent, d: R.Definition)
    requires WorldInv(h, w) && AllIndexed(w) && R.ValidEnvironment(agent.environment)
    requires EntryFor(w, checksum, d, agent).Some?
    requires forall i :: 0 <= i < |walked| && EntryFor(w, checksum, walked[i], agent).Some? ==>
      walked[i] == d || EntryFor(w, checksum, walked[i], agent).value.item.assignment == UNASSIGNED
    ensures Leads(w, checksum, walked, agent, EntryFor(w, checksum, d, agent).value)
  {
    hide WorldInv, AllIndexed, EntryFor;
    EntryIsTheTarget(h, w, checksum, d, agent);
    forall i | 0 <= i < |walked| && EntryFor(w, checksum, walked[i], agent).Some?
      ensures EntryFor(w, checksum, walked[i], agent).value.revision <= EntryFor(w, checksum, d, agent).value.revision
    {
      EntryIsTheTarget(h, w, checksum, walked[i], agent);
    }
  }

  /** Two assigned items of one snapshot never carry the same revision, so at most one of them leads. */
  lemma {:induction false} AtMostOneAssignmentLeads(
      h: Hash, w: World, checksum: Checksum, walked: seq<R.Definition>, agent: Agent, d: R.Definition, d': R.Definition)
    requires WorldInv(h, w) && AllIndexed(w) && R.ValidEnvironment(agent.environment) && d in walked && d' in walked
    requires d.id != d'.id
    requires EntryFor(w, checksum, d, agent).Some? && EntryFor(w, checksum, d', agent).Some?
    requires EntryFor(w, checksum, d, agent).value.item.assignment != UNASSIGNED
    requires EntryFor(w, checksum, d', agent).value.item.assignment != UNASSIGNED
    ensures !(Leads(w, checksum, walked, agent, EntryFor(w, checksum, d, agent).value)
              && Leads(w, checksum, walked, agent, EntryFor(w, checksum, d', agent).value))
  {
    hide WorldInv, AllIndexed, EntryFor, GetActive, Inv;
    var e, e' := EntryFor(w, checksum, d, agent).value, EntryFor(w, checksum, d', agent).value;
    EntryIsTheTarget(h, w, checksum, d, agent);
    EntryIsTheTarget(h, w, checksum, d', agent);
    FoundRollout(h, w, d.id, agent.environment);
    FoundRollout(h, w, d'.id, agent.environment);
    var k: nat :| BuiltFrom(w, e.item.assignment.rolloutID, k, agent.id, e);
    var k': nat :| BuiltFrom(w, e'.item.assignment.rolloutID, k', agent.id, e');
    DifferentRolloutsDiffer(h, w, e.item.assignment.rolloutID, k, e'.item.assignment.rolloutID, k');
  }

  lemma {:induction false} DifferentRolloutsDiffer(h: Hash, w: World, id: string, k: nat, id': string, k': nat)
    requires WorldInv(h, w) && AllIndexed(w) && id in w.cases && id' in w.cases && id != id'
    requires k < |Current(w.cases[id])| && k' < |Current(w.cases[id'])|
    ensures Current(w.cases[id])[k].snapshotRevision != Current(w.cases[id'])[k'].snapshotRevision
  {
    hide Files, AgentsKnown, ActiveAgrees, RegistryLinks, PointersHeld, R.RegistryInv, Inv;
    var n := Current(w.cases[id])[k].snapshotRevision;
    assert Carries(w, id, Position(w.cases[id]), k, n);
    var n' := Current(w.cases[id'])[k'].snapshotRevision;
    assert Carries(w, id', Position(w.cases[id']), k', n');
  }
}
