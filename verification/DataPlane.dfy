/** internal/dataplane/dynamic_store.go: the snapshot an agent is served, computed from the control plane's state. */
module DataPlane {
  import opened Text
  import opened Wrappers
  import opened Guardrails
  import opened Cohorts
  import opened Effective
  import opened World
  import opened SystemInvariant
  import opened SystemTheorems
  import R = ConfigRegistry
  import ConfigStores
  import RolloutService

  datatype Assignment = Assignment(rolloutID: string, stageID: string)

  datatype SnapshotItem = SnapshotItem(
    configDefinitionID: string, key: string, versionID: string, version: int, value: R.Raw, checksum: string,
    assignment: Assignment)

  datatype Snapshot = Snapshot(revision: int, generatedAt: Time, configs: seq<SnapshotItem>)

  datatype SnapshotError = SnapshotNotFound | SourceFailed

  /** SHA-256 of a value, of which only determinism is used. */
  type Checksum = R.Raw -> string

  /** An item and the revision it brings to its snapshot. */
  datatype Entry = Entry(item: SnapshotItem, revision: int)

  const UNASSIGNED := Assignment("", "")

  function Choice(w: World, definitionID: string, environment: string, agentID: string): EffectiveVersion
    requires AllIndexed(w)
  {
    match GetActive(w, definitionID, environment)
    case Some(id) => Serving(w.cases[id], agentID)
    case None => EffectiveVersion(Pointer(w.registry, ActiveKey(definitionID, environment)), "", "", 0)
  }

  function EntryOf(d: R.Definition, v: R.Version, choice: EffectiveVersion, checksum: Checksum): Entry {
    var inCohort := choice.assignedRollout != "";
    Entry(SnapshotItem(d.id, d.key, v.id, v.versionNumber, v.value, checksum(v.value),
                       if inCohort then Assignment(choice.assignedRollout, choice.assignedStage) else UNASSIGNED),
          if inCohort then choice.snapshotRevision else 1)
  }

  /** snapshotItem: nothing without a stable pointer, or when the chosen version is not listed. */
  function EntryFor(w: World, checksum: Checksum, d: R.Definition, agent: Agent): Option<Entry>
    requires AllIndexed(w)
  {
    if Pointer(w.registry, ActiveKey(d.id, agent.environment)) == "" then None
    else
      var versions := R.VersionsOf(w.registry, d.id);
      var choice := Choice(w, d.id, agent.environment, agent.id);
      var i := R.IndexByID(versions, choice.versionID);
      if i == |versions| then None else Some(EntryOf(d, versions[i], choice, checksum))
  }

  /** GetSnapshot's loop over the definitions it walks, in order. */
  function Collected(w: World, checksum: Checksum, ds: seq<R.Definition>, agent: Agent): (seq<SnapshotItem>, int)
    requires AllIndexed(w)
  {
    if ds == [] then ([], 1)
    else
      var (items, revision) := Collected(w, checksum, ds[..|ds| - 1], agent);
      match EntryFor(w, checksum, ds[|ds| - 1], agent)
      case None => (items, revision)
      case Some(e) => (items + [e.item], if e.revision > revision then e.revision else revision)
  }

  predicate Known(s: Registry, d: R.Definition) {
    d.id in s.definitions && s.definitions[d.id] == d
  }

  /** `walked` are the definitions of the listed tenants, each one once if no tenant is listed twice. */
  ghost predicate Walks(s: Registry, tenants: seq<string>, walked: seq<R.Definition>) {
    && (forall d :: d in walked <==> Known(s, d) && d.tenantID in tenants)
    && (RolloutService.Distinct(tenants) ==> ConfigStores.DistinctDefinitions(walked))
  }

  predicate Ascending(ids: seq<string>) {
    forall i, j :: 0 <= i < j < |ids| ==> Less(ids[i], ids[j])
  }

  lemma {:induction false} AscendingIsDistinct(ids: seq<string>)
    requires Ascending(ids)
    ensures RolloutService.Distinct(ids)
  {
    forall i, j | 0 <= i < j < |ids| ensures ids[i] != ids[j] {
      LessIsAsymmetric(ids[i], ids[j]);
    }
  }

  class DynamicSnapshotStore {
    const rollouts: RolloutService.Service
    const tenants: seq<string>
    const checksum: Checksum

    constructor (rollouts: RolloutService.Service, tenants: seq<string>, checksum: Checksum)
      ensures this.rollouts == rollouts && this.tenants == tenants && this.checksum == checksum
    {
      this.rollouts, this.tenants, this.checksum := rollouts, tenants, checksum;
    }

    ghost predicate Valid()
      reads rollouts.store, rollouts.registry.store, rollouts.agents
    {
      rollouts.Valid() && AllIndexed(rollouts.View())
    }

    method SnapshotTenants() returns (ids: seq<string>)
      requires Valid()
      ensures tenants != [] ==> ids == tenants
      ensures tenants == [] ==> Ascending(ids) && forall id :: id in ids <==> id in rollouts.registry.store.tenants
    {
      if |tenants| > 0 {
        return tenants;
      }
      var listed := rollouts.registry.store.ListTenants();
      ids := [];
      for i := 0 to |listed|
        invariant |ids| == i && forall j :: 0 <= j < i ==> ids[j] == listed[j].id
      {
        ids := ids + [listed[i].id];
      }
      forall id ensures id in ids <==> id in rollouts.registry.store.tenants {
        if id in rollouts.registry.store.tenants {
          assert rollouts.registry.store.tenants[id] in listed;
        }
        if k :| 0 <= k < |ids| && ids[k] == id {
          assert listed[k] in listed;
        }
      }
    }

    /** One definition's entry, read through the registry and the rollout service. */
    method SnapshotItemFor(tenantID: string, d: R.Definition, agent: Agent)
      returns (result: Result<Option<Entry>, SnapshotError>)
      requires Valid() && Known(rollouts.registry.store.State(), d) && d.tenantID == tenantID
      ensures result == Ok(EntryFor(rollouts.View(), checksum, d, agent))
    {
      hide WorldInv, EntryFor, R.KeysAgree, EntryOf, EffectiveVersionForAgent;
      LookupIsOwn(rollouts.hash, rollouts.View(), d);
      var stored := rollouts.registry.GetEnvironmentState(tenantID, d.key, agent.environment);
      NothingWithoutAPointer(rollouts.View(), checksum, d, agent);
      match stored {
        case Err(e) => return if e == R.NotFound then Ok(None) else Err(SourceFailed);
        case Ok(state) =>
          if state.stableVersionID == "" {
            return Ok(None);
          }
          var listed := rollouts.registry.ListVersions(tenantID, d.key);
          match listed {
            case Err(e) => result := Err(SourceFailed);
            case Ok(versions) => result := Priced(d, agent, state.stableVersionID, versions);
          }
      }
    }

    /** The version and revision an active rollout gives the agent, or the stable one. */
    method Priced(d: R.Definition, agent: Agent, stableVersionID: string, versions: seq<R.Version>)
      returns (result: Result<Option<Entry>, SnapshotError>)
      requires Valid() && versions == R.VersionsOf(rollouts.registry.store.State(), d.id)
      requires stableVersionID == Pointer(rollouts.registry.store.State(), ActiveKey(d.id, agent.environment)) != ""
      ensures result == Ok(EntryFor(rollouts.View(), checksum, d, agent))
    {
      hide WorldInv, EffectiveVersionForAgent;
      var versionID, assignment, revision := stableVersionID, UNASSIGNED, 1;
      var found := rollouts.ActiveRollout(d.id, agent.environment);
      match found {
        case Err(e) =>
          if e != NotFound {
            return Err(SourceFailed);
          }
        case Ok(p) =>
          var effective := EffectiveVersionForAgent(p.0, p.1, agent.id);
          versionID := effective.versionID;
          if effective.assignedRollout != "" {
            assignment := Assignment(effective.assignedRollout, effective.assignedStage);
            revision := effective.snapshotRevision;
          }
      }
      var i := R.IndexByID(versions, versionID);
      if i == |versions| {
        return Ok(None);
      }
      var v := versions[i];
      var item := SnapshotItem(d.id, d.key, v.id, v.versionNumber, v.value, checksum(v.value), assignment);
      result := Ok(Some(Entry(item, revision)));
    }

    method GetSnapshot(agentID: string, now: Time)
      returns (result: Result<Snapshot, SnapshotError>, ghost used: seq<string>, ghost walked: seq<R.Definition>,
               ghost agent: Agent)
      requires Valid()
      ensures !Listed(rollouts.agents.agents, agentID) ==> result == Err(SnapshotNotFound)
      ensures Listed(rollouts.agents.agents, agentID) ==>
        (agent in rollouts.agents.agents && agent.id == agentID && Walks(rollouts.registry.store.State(), used, walked)
         && result == Ok(SnapshotFrom(Collected(rollouts.View(), checksum, walked, agent), now)))
      ensures tenants != [] ==> used == tenants
      ensures tenants == [] && result.Ok? ==>
        Ascending(used) && ConfigStores.DistinctDefinitions(walked)
        && forall id :: id in used <==> id in rollouts.registry.store.tenants
    {
      hide WorldInv, EntryFor, R.NumbersAgree, Collected;
      used, walked, agent := tenants, [], Agent("", "", "");
      var found := rollouts.agents.Get(agentID);
      match found {
        case None => result := Err(SnapshotNotFound);
        case Some(a) =>
          agent := a;
          var ids := SnapshotTenants();
          used := ids;
          KeysOfInv(rollouts.hash, rollouts.View());
          NothingCollected(rollouts.View(), checksum, a);
          var revision, items := 1, [];
          for i := 0 to |ids|
            invariant Walks(rollouts.registry.store.State(), ids[..i], walked)
            invariant Collected(rollouts.View(), checksum, walked, a) == (items, revision)
          {
            var listed := rollouts.registry.store.ListDefinitions(ids[i]);
            var definitions := match listed case Ok(ds) => ds case Err(_) => [];
            WalkGrows(rollouts.registry.store.State(), ids, i, walked, definitions);
            assert walked + definitions[..0] == walked;
            for j := 0 to |definitions|
              invariant Collected(rollouts.View(), checksum, walked + definitions[..j], a) == (items, revision)
            {
              var priced := SnapshotItemFor(ids[i], definitions[j], a);
              CollectedSnoc(rollouts.View(), checksum, walked, definitions, j, a);
              match priced {
                case Err(e) => return Err(e), used, walked, agent;
                case Ok(None) =>
                case Ok(Some(entry)) =>
                  if entry.revision > revision {
                    revision := entry.revision;
                  }
                  items := items + [entry.item];
              }
            }
            assert definitions[..|definitions|] == definitions;
            walked := walked + definitions;
          }
          assert ids[..|ids|] == ids;
          if tenants == [] {
            AscendingIsDistinct(ids);
          }
          result := Ok(Snapshot(revision, now, items));
      }
    }
  }

  function SnapshotFrom(collected: (seq<SnapshotItem>, int), now: Time): Snapshot {
    Snapshot(collected.1, now, collected.0)
  }

  lemma {:induction false} KeysOfInv(h: Hash, w: World)
    requires WorldInv(h, w)
    ensures R.KeysAgree(w.registry)
  {
  }

  lemma {:induction false} NothingCollected(w: World, checksum: Checksum, agent: Agent)
    requires AllIndexed(w)
    ensures Collected(w, checksum, [], agent) == ([], 1)
  {
  }

  lemma {:induction false} CollectedSnoc(
      w: World, checksum: Checksum, walked: seq<R.Definition>, ds: seq<R.Definition>, j: nat, agent: Agent)
    requires AllIndexed(w) && j < |ds|
    ensures Collected(w, checksum, walked + ds[..j + 1], agent) ==
      (var (items, revision) := Collected(w, checksum, walked + ds[..j], agent);
       match EntryFor(w, checksum, ds[j], agent)
       case None => (items, revision)
       case Some(e) => (items + [e.item], if e.revision > revision then e.revision else revision))
  {
    var longer := walked + ds[..j + 1];
    assert longer[..|longer| - 1] == walked + ds[..j];
    assert longer[|longer| - 1] == ds[j];
  }

  lemma {:induction false} WalkGrows(
      s: Registry, tenants: seq<string>, i: nat, walked: seq<R.Definition>, ds: seq<R.Definition>)
    requires R.KeysAgree(s) && i < |tenants| && Walks(s, tenants[..i], walked)
    requires tenants[i] in s.tenants ==>
      ConfigStores.DistinctDefinitions(ds) && forall d :: d in ds <==> Known(s, d) && d.tenantID == tenants[i]
    requires tenants[i] !in s.tenants ==> ds == []
    ensures Walks(s, tenants[..i + 1], walked + ds)
  {
    forall d ensures d in walked + ds <==> Known(s, d) && d.tenantID in tenants[..i + 1] {
      assert d.tenantID in tenants[..i + 1] <==> d.tenantID in tenants[..i] || d.tenantID == tenants[i];
    }
    if RolloutService.Distinct(tenants[..i + 1]) {
      DistinctSoFar(tenants, i);
      forall m, n | 0 <= m < |walked| && 0 <= n < |ds| ensures walked[m].id != ds[n].id {
        assert walked[m] in walked && ds[n] in ds;
      }
    }
  }

  lemma {:induction false} DistinctSoFar(tenants: seq<string>, i: nat)
    requires i < |tenants| && RolloutService.Distinct(tenants[..i + 1])
    ensures RolloutService.Distinct(tenants[..i]) && tenants[i] !in tenants[..i]
  {
    assert tenants[..i + 1][..i] == tenants[..i];
    assert tenants[..i + 1][i] == tenants[i];
    forall m, n | 0 <= m < n < i ensures tenants[m] != tenants[n] {
      assert tenants[..i + 1][m] == tenants[m] && tenants[..i + 1][n] == tenants[n];
    }
    forall m | 0 <= m < i ensures tenants[m] != tenants[i] {
      assert tenants[..i + 1][m] == tenants[m];
    }
  }

  lemma {:induction false} LookupIsOwn(h: Hash, w: World, d: R.Definition)
    requires WorldInv(h, w) && Known(w.registry, d)
    ensures R.FindDefinition(w.registry, d.tenantID, d.key) == Ok(d)
  {
    hide Files, AgentsKnown, ActiveAgrees, RegistryLinks, PointersHeld, RevisionsUnique, R.NumbersAgree;
    hide R.PointersExist, R.VersionsNumbered;
  }

  lemma {:induction false} NothingWithoutAPointer(w: World, checksum: Checksum, d: R.Definition, agent: Agent)
    requires AllIndexed(w)
    ensures Pointer(w.registry, ActiveKey(d.id, agent.environment)) == "" ==> EntryFor(w, checksum, d, agent) == None
  {
  }
}
