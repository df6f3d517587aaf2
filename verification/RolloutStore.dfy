/**
 * internal/rollout/memory_store.go: rollouts, the active index, stages and targets under NUL-joined keys.
 * The lemmas show that, seen rollout by rollout, the keyed maps are the independent files of RolloutCase.dfy.
 */
module RolloutStore {
  import opened Text
  import opened Wrappers
  import opened Lifecycle
  import opened Cohorts
  import opened RolloutCase
  import opened World

  function TargetKey(rolloutID: string, stageID: string): string {
    Join(rolloutID, stageID)
  }

  /** The store's fields as one value. */
  datatype Db = Db(
    rollouts: map<string, Rollout>, active: map<string, string>, stages: map<string, seq<Stage>>,
    targets: map<string, seq<StageTarget>>, nextRevision: int)

  /** The present state, and the states every write so far left behind. */
  datatype Trail = Trail(now: Db, log: seq<Db>)

  const EMPTY := Db(map[], map[], map[], map[], 1)

  function TargetsAt(db: Db, rolloutID: string, stageID: string): seq<StageTarget> {
    var key := TargetKey(rolloutID, stageID);
    if key in db.targets then db.targets[key] else []
  }

  predicate Occupied(db: Db, key: string) {
    key in db.active && (db.active[key] in db.rollouts ==> !Terminal(db.rollouts[db.active[key]].state))
  }

  function Inserted(db: Db, r: Rollout, stages: seq<Stage>): Db {
    db.(rollouts := db.rollouts[r.id := r], stages := db.stages[r.id := stages],
        active := if Terminal(r.state) then db.active else db.active[KeyOf(r) := r.id])
  }

  function Updated(db: Db, r: Rollout): Db {
    db.(rollouts := db.rollouts[r.id := r],
        active := if Terminal(r.state) then db.active - {KeyOf(r)} else db.active[KeyOf(r) := r.id])
  }

  /** A revision handed out. */
  function Bumped(db: Db): Db {
    db.(nextRevision := db.nextRevision + 1)
  }

  /** Index of the stage with that id, or the length. */
  function StageIndex(stages: seq<Stage>, id: string): (i: nat)
    ensures i <= |stages|
    ensures forall j :: 0 <= j < i ==> stages[j].id != id
    ensures i < |stages| ==> stages[i].id == id
  {
    if stages == [] then 0
    else if stages[0].id == id then 0
    else 1 + StageIndex(stages[1..], id)
  }

  function WithStage(db: Db, rolloutID: string, stage: Stage): Db
    requires rolloutID in db.stages
  {
    if StageIndex(db.stages[rolloutID], stage.id) < |db.stages[rolloutID]| then db
    else db.(stages := db.stages[rolloutID := db.stages[rolloutID] + [stage]])
  }

  function Appended(targets: map<string, seq<StageTarget>>, t: StageTarget): map<string, seq<StageTarget>> {
    var key := TargetKey(t.rolloutID, t.stageID);
    targets[key := (if key in targets then targets[key] else []) + [t]]
  }

  function AppendedAll(targets: map<string, seq<StageTarget>>, more: seq<StageTarget>): map<string, seq<StageTarget>> {
    if more == [] then targets
    else Appended(AppendedAll(targets, more[..|more| - 1]), more[|more| - 1])
  }

  function Replaced(db: Db, rolloutID: string, stageID: string, targets: seq<StageTarget>): Db {
    db.(targets := db.targets[TargetKey(rolloutID, stageID) := targets])
  }

  class MemoryStore {
    var rollouts: map<string, Rollout>
    var activeRollout: map<string, string>
    var stages: map<string, seq<Stage>>
    var targets: map<string, seq<StageTarget>>
    var nextRevision: int

    /** The state after each write, oldest first: what a reader that takes no service lock may come upon. */
    ghost var log: seq<Db>

    function State(): Db
      reads this
    {
      Db(rollouts, activeRollout, stages, targets, nextRevision)
    }

    ghost function Written(): Trail
      reads this
    {
      Trail(State(), log)
    }

    constructor ()
      ensures State() == EMPTY && log == []
    {
      rollouts, activeRollout, stages, targets, nextRevision, log := map[], map[], map[], map[], 1, [];
    }

    method CreateRollout(r: Rollout, plan: seq<Stage>) returns (result: Result<(), ServiceError>)
      modifies this
      ensures result == if r.id in old(rollouts) then Err(AlreadyExists)
                        else if Occupied(old(State()), KeyOf(r)) then Err(Conflict) else Ok(())
      ensures State() == if result.Ok? then Inserted(old(State()), r, plan) else old(State())
      ensures log == old(log) + if result.Ok? then [State()] else []
    {
      if r.id in rollouts {
        return Err(AlreadyExists);
      }
      var activeKey := KeyOf(r);
      if activeKey in activeRollout {
        var existing := activeRollout[activeKey];
        if existing in rollouts {
          if !Terminal(rollouts[existing].state) {
            return Err(Conflict);
          }
        } else {
          return Err(Conflict);
        }
      }
      rollouts := rollouts[r.id := r];
      stages := stages[r.id := plan];
      if !Terminal(r.state) {
        activeRollout := activeRollout[activeKey := r.id];
      }
      log := log + [State()];
      result := Ok(());
    }

    method GetRollout(rolloutID: string) returns (result: Result<Rollout, ServiceError>)
      ensures result == if rolloutID in rollouts then Ok(rollouts[rolloutID]) else Err(NotFound)
    {
      if rolloutID !in rollouts {
        return Err(NotFound);
      }
      result := Ok(rollouts[rolloutID]);
    }

    /** Every indexed rollout is stored. */
    predicate Indexes()
      reads this
    {
      forall k :: k in activeRollout ==> activeRollout[k] in rollouts
    }

    method GetActiveRollout(configDefinitionID: string, environment: string)
      returns (result: Result<Rollout, ServiceError>)
      requires Indexes()
      ensures result.Ok? <==>
        (ActiveKey(configDefinitionID, environment) in activeRollout
         && !Terminal(rollouts[activeRollout[ActiveKey(configDefinitionID, environment)]].state))
      ensures result.Ok? ==> result.value == rollouts[activeRollout[ActiveKey(configDefinitionID, environment)]]
      ensures result.Err? ==> result.error == NotFound
    {
      var key := ActiveKey(configDefinitionID, environment);
      if key !in activeRollout {
        return Err(NotFound);
      }
      var r := rollouts[activeRollout[key]];
      if Terminal(r.state) {
        return Err(NotFound);
      }
      result := Ok(r);
    }

    /** The non-terminal indexed rollouts, in whatever order the map yields its keys. */
    method ListActiveRollouts() returns (active: seq<Rollout>, ghost keys: seq<string>)
      requires Indexes()
      ensures |active| == |keys|
      ensures forall i :: 0 <= i < |keys| ==> keys[i] in activeRollout && active[i] == rollouts[activeRollout[keys[i]]]
      ensures forall i :: 0 <= i < |active| ==> !Terminal(active[i].state)
      ensures forall i, j :: 0 <= i < j < |keys| ==> keys[i] != keys[j]
      ensures forall k :: k in activeRollout && !Terminal(rollouts[activeRollout[k]].state) ==> k in keys
    {
      active, keys := [], [];
      var left := activeRollout.Keys;
      while left != {}
        invariant left <= activeRollout.Keys
        invariant |active| == |keys|
        invariant forall i :: 0 <= i < |keys| ==>
          keys[i] in activeRollout && keys[i] !in left && active[i] == rollouts[activeRollout[keys[i]]]
        invariant forall i :: 0 <= i < |active| ==> !Terminal(active[i].state)
        invariant forall i, j :: 0 <= i < j < |keys| ==> keys[i] != keys[j]
        invariant forall k :: k in activeRollout && !Terminal(rollouts[activeRollout[k]].state) ==>
          k in left || k in keys
        decreases left
      {
        var k :| k in left;
        left := left - {k};
        var r := rollouts[activeRollout[k]];
        if Terminal(r.state) {
          continue;
        }
        active, keys := active + [r], keys + [k];
      }
    }

    method UpdateRollout(r: Rollout) returns (result: Result<(), ServiceError>)
      modifies this
      ensures result == if r.id in old(rollouts) then Ok(()) else Err(NotFound)
      ensures State() == if result.Ok? then Updated(old(State()), r) else old(State())
      ensures log == old(log) + if result.Ok? then [State()] else []
    {
      if r.id !in rollouts {
        return Err(NotFound);
      }
      rollouts := rollouts[r.id := r];
      var activeKey := KeyOf(r);
      if Terminal(r.state) {
        activeRollout := activeRollout - {activeKey};
      } else {
        activeRollout := activeRollout[activeKey := r.id];
      }
      log := log + [State()];
      result := Ok(());
    }

    method ListStages(rolloutID: string) returns (result: Result<seq<Stage>, ServiceError>)
      ensures result == if rolloutID in stages then Ok(stages[rolloutID]) else Err(NotFound)
    {
      if rolloutID !in stages {
        return Err(NotFound);
      }
      result := Ok(stages[rolloutID]);
    }

    method SaveStage(rolloutID: string, stage: Stage) returns (result: Result<(), ServiceError>)
      requires rolloutID in rollouts ==> rolloutID in stages
      modifies this
      ensures result == if rolloutID in old(rollouts) then Ok(()) else Err(NotFound)
      ensures State() == if rolloutID in old(rollouts) then WithStage(old(State()), rolloutID, stage) else old(State())
      ensures log == old(log)
        + if rolloutID in old(rollouts) && !HasStage(old(State()), rolloutID, stage.id) then [State()] else []
    {
      if rolloutID !in rollouts {
        return Err(NotFound);
      }
      for i := 0 to |stages[rolloutID]|
        invariant State() == old(State()) && log == old(log)
        invariant forall j :: 0 <= j < i ==> stages[rolloutID][j].id != stage.id
      {
        if stages[rolloutID][i].id == stage.id {
          return Ok(());
        }
      }
      stages := stages[rolloutID := stages[rolloutID] + [stage]];
      log := log + [State()];
      result := Ok(());
    }

    method SaveStageTargets(more: seq<StageTarget>)
      modifies this
      ensures State() == old(State()).(targets := AppendedAll(old(targets), more))
      ensures log == old(log) + [State()]
    {
      for i := 0 to |more|
        invariant log == old(log)
        invariant State() == old(State()).(targets := AppendedAll(old(targets), more[..i]))
      {
        assert more[..i + 1][..i] == more[..i];
        var key := TargetKey(more[i].rolloutID, more[i].stageID);
        targets := targets[key := (if key in targets then targets[key] else []) + [more[i]]];
      }
      assert more[..|more|] == more;
      log := log + [State()];
    }

    method ReplaceStageTargets(rolloutID: string, stageID: string, replacement: seq<StageTarget>)
      modifies this
      ensures State() == Replaced(old(State()), rolloutID, stageID, replacement)
      ensures log == old(log) + [State()]
    {
      targets := targets[TargetKey(rolloutID, stageID) := replacement];
      log := log + [State()];
    }

    /** A copy the caller may change. */
    method ListStageTargets(rolloutID: string, stageID: string) returns (copy: array<StageTarget>)
      ensures fresh(copy) && copy[..] == TargetsAt(State(), rolloutID, stageID)
    {
      var key := TargetKey(rolloutID, stageID);
      var found := if key in targets then targets[key] else [];
      copy := new StageTarget[|found|](i requires 0 <= i < |found| => found[i]);
      assert copy[..] == found;
    }

    method NextSnapshotRevision() returns (revision: int)
      modifies this
      ensures revision == old(nextRevision) && State() == old(State()).(nextRevision := revision + 1)
      ensures log == old(log) + [State()]
    {
      revision := nextRevision;
      nextRevision := nextRevision + 1;
      log := log + [State()];
    }
  }

  // ----- The store as files -----

  function FileOf(db: Db, id: string): Case
    requires id in db.rollouts && id in db.stages
  {
    var stages := db.stages[id];
    Case(db.rollouts[id], stages, seq(|stages|, i requires 0 <= i < |stages| => TargetsAt(db, id, stages[i].id)))
  }

  predicate HasStage(db: Db, id: string, stageID: string) {
    id in db.rollouts && id in db.stages && StageIndex(db.stages[id], stageID) < |db.stages[id]|
  }

  predicate Keyed(db: Db) {
    && db.stages.Keys == db.rollouts.Keys
    && (forall id :: id in db.rollouts ==> db.rollouts[id].id == id && NulFree(id) && DistinctStages(db.stages[id]))
    && (forall k :: k in db.active ==> db.active[k] in db.rollouts)
  }

  /** No targets are kept for a stage the store does not list. */
  ghost predicate NoOrphans(db: Db) {
    forall id: string, stageID: string :: NulFree(id) && TargetKey(id, stageID) in db.targets ==>
      HasStage(db, id, stageID)
  }

  ghost predicate StoreInv(db: Db) {
    Keyed(db) && NoOrphans(db)
  }

  function FilesOf(db: Db): map<string, Case>
    requires Keyed(db)
  {
    map id | id in db.rollouts :: FileOf(db, id)
  }

  lemma {:induction false} FilesMirror(db: Db)
    requires Keyed(db)
    ensures FilesOf(db).Keys == db.rollouts.Keys
    ensures forall id :: id in db.rollouts ==>
      FilesOf(db)[id].r == db.rollouts[id] && FilesOf(db)[id].stages == db.stages[id]
      && |FilesOf(db)[id].cohorts| == |db.stages[id]|
  {
  }

  lemma {:induction false} TargetKeysDiffer(id: string, stageID: string, id': string, stageID': string)
    requires NulFree(id) && NulFree(id') && TargetKey(id, stageID) == TargetKey(id', stageID')
    ensures id == id' && stageID == stageID'
  {
    JoinIsInjectiveOnTheLeft(id, stageID, id', stageID');
  }

  /** Files that are one changed file apart. */
  lemma {:induction false} OneFileChanges(db: Db, db': Db, id: string, c: Case)
    requires Keyed(db) && Keyed(db') && db'.rollouts.Keys == db.rollouts.Keys + {id}
    requires FileOf(db', id) == c
    requires forall j :: j in db.rollouts && j != id ==> FileOf(db', j) == FileOf(db, j)
    ensures FilesOf(db') == FilesOf(db)[id := c]
  {
    hide FileOf, NulFree, DistinctStages;
  }

  lemma {:induction false} UpdateKeepsStore(db: Db, r: Rollout)
    requires StoreInv(db) && r.id in db.rollouts
    ensures StoreInv(Updated(db, r))
  {
    hide TargetKey, NulFree, DistinctStages;
    var db' := Updated(db, r);
    forall id: string, stageID: string | NulFree(id) && TargetKey(id, stageID) in db'.targets
      ensures HasStage(db', id, stageID)
    {
      assert HasStage(db, id, stageID);
    }
  }

  lemma {:induction false} UpdateView(db: Db, r: Rollout)
    requires StoreInv(db) && r.id in db.rollouts
    ensures StoreInv(Updated(db, r))
    ensures FilesOf(Updated(db, r)) == FilesOf(db)[r.id := FilesOf(db)[r.id].(r := r)]
  {
    hide TargetKey, NulFree, DistinctStages, NoOrphans;
    var db' := Updated(db, r);
    UpdateKeepsStore(db, r);
    forall id | id in db.rollouts
      ensures FileOf(db', id) == if id == r.id then FileOf(db, id).(r := r) else FileOf(db, id)
    {
    }
    OneFileChanges(db, db', r.id, FileOf(db, r.id).(r := r));
  }

  lemma {:induction false} InsertKeepsStore(db: Db, r: Rollout, plan: seq<Stage>)
    requires StoreInv(db) && r.id !in db.rollouts && NulFree(r.id) && DistinctStages(plan)
    ensures StoreInv(Inserted(db, r, plan))
  {
    hide TargetKey, NulFree, DistinctStages;
    var db' := Inserted(db, r, plan);
    forall id: string, stageID: string | NulFree(id) && TargetKey(id, stageID) in db'.targets
      ensures HasStage(db', id, stageID)
    {
      assert HasStage(db, id, stageID);
    }
  }

  lemma {:induction false} NothingStoredYet(db: Db, id: string, stageID: string)
    requires NoOrphans(db) && NulFree(id) && !HasStage(db, id, stageID)
    ensures TargetsAt(db, id, stageID) == []
  {
  }

  lemma {:induction false} InsertView(db: Db, r: Rollout, plan: seq<Stage>)
    requires StoreInv(db) && r.id !in db.rollouts && NulFree(r.id) && DistinctStages(plan)
    ensures StoreInv(Inserted(db, r, plan))
    ensures FilesOf(Inserted(db, r, plan)) == FilesOf(db)[r.id := Case(r, plan, seq(|plan|, _ => []))]
  {
    hide TargetKey, NulFree, DistinctStages, NoOrphans, TargetsAt;
    InsertKeepsStore(db, r, plan);
    var db' := Inserted(db, r, plan);
    forall stageID ensures TargetsAt(db', r.id, stageID) == [] {
      NothingStoredYet(db, r.id, stageID);
      SameTargetsAt(db, db', r.id, stageID);
    }
    assert FileOf(db', r.id).cohorts == seq(|plan|, _ => []);
    forall id | id in db.rollouts ensures FileOf(db', id) == FileOf(db, id) {
      forall stageID ensures TargetsAt(db', id, stageID) == TargetsAt(db, id, stageID) {
        SameTargetsAt(db, db', id, stageID);
      }
      assert FileOf(db', id).cohorts == FileOf(db, id).cohorts;
    }
    OneFileChanges(db, db', r.id, Case(r, plan, seq(|plan|, _ => [])));
  }

  lemma {:induction false} SameTargetsAt(db: Db, db': Db, id: string, stageID: string)
    requires db'.targets == db.targets
    ensures TargetsAt(db', id, stageID) == TargetsAt(db, id, stageID)
  {
  }

  lemma {:induction false} StageIndexOfExtended(stages: seq<Stage>, stage: Stage, id: string)
    ensures StageIndex(stages, id) < |stages| ==> StageIndex(stages + [stage], id) < |stages| + 1
  {
    var i := StageIndex(stages, id);
    if i < |stages| {
      assert (stages + [stage])[i].id == id;
    }
  }

  lemma {:induction false} StageKeepsStore(db: Db, id: string, stage: Stage)
    requires StoreInv(db) && id in db.rollouts && !HasStage(db, id, stage.id)
    ensures StoreInv(WithStage(db, id, stage))
  {
    hide TargetKey, NulFree;
    var db' := WithStage(db, id, stage);
    forall j: string, stageID: string | NulFree(j) && TargetKey(j, stageID) in db'.targets
      ensures HasStage(db', j, stageID)
    {
      assert HasStage(db, j, stageID);
      StageIndexOfExtended(db.stages[id], stage, stageID);
    }
  }

  lemma {:induction false} StageView(db: Db, id: string, stage: Stage)
    requires StoreInv(db) && id in db.rollouts && !HasStage(db, id, stage.id)
    ensures StoreInv(WithStage(db, id, stage))
    ensures FilesOf(WithStage(db, id, stage))
      == FilesOf(db)[id := Case(db.rollouts[id], db.stages[id] + [stage], FilesOf(db)[id].cohorts + [[]])]
  {
    hide TargetKey, NulFree, DistinctStages, NoOrphans, TargetsAt;
    StageKeepsStore(db, id, stage);
    NothingStoredYet(db, id, stage.id);
    var db' := WithStage(db, id, stage);
    assert db'.stages[id] == db.stages[id] + [stage];
    forall j, stageID ensures TargetsAt(db', j, stageID) == TargetsAt(db, j, stageID) {
      SameTargetsAt(db, db', j, stageID);
    }
    assert FileOf(db', id).cohorts == FileOf(db, id).cohorts + [[]];
    forall j | j in db.rollouts && j != id ensures FileOf(db', j) == FileOf(db, j) {
      assert FileOf(db', j).cohorts == FileOf(db, j).cohorts;
    }
    OneFileChanges(db, db', id, Case(db.rollouts[id], db.stages[id] + [stage], FileOf(db, id).cohorts + [[]]));
  }

  lemma {:induction false} ReplaceKeepsStore(db: Db, id: string, stageID: string, targets: seq<StageTarget>)
    requires StoreInv(db) && NulFree(id) && HasStage(db, id, stageID)
    ensures StoreInv(Replaced(db, id, stageID, targets))
  {
    hide TargetKey, NulFree, DistinctStages;
    var db' := Replaced(db, id, stageID, targets);
    forall j: string, s: string | NulFree(j) && TargetKey(j, s) in db'.targets ensures HasStage(db', j, s) {
      if TargetKey(j, s) == TargetKey(id, stageID) {
        TargetKeysDiffer(j, s, id, stageID);
      } else {
        assert HasStage(db, j, s);
      }
    }
  }

  lemma {:induction false} ReplacedTargetsAt(
      db: Db, id: string, stageID: string, targets: seq<StageTarget>, j: string, s: string)
    requires NulFree(id) && NulFree(j)
    ensures TargetsAt(Replaced(db, id, stageID, targets), j, s)
      == if j == id && s == stageID then targets else TargetsAt(db, j, s)
  {
    hide TargetKey, NulFree;
    if TargetKey(j, s) == TargetKey(id, stageID) {
      TargetKeysDiffer(j, s, id, stageID);
    }
  }

  lemma {:induction false} ReplacedFile(db: Db, id: string, i: nat, targets: seq<StageTarget>, j: string)
    requires Keyed(db) && id in db.rollouts && i < |db.stages[id]| && j in db.rollouts
    ensures FileOf(Replaced(db, id, db.stages[id][i].id, targets), j)
      == if j == id then FileOf(db, id).(cohorts := FileOf(db, id).cohorts[i := targets]) else FileOf(db, j)
  {
    hide TargetKey, NulFree, TargetsAt, Replaced;
    var db' := Replaced(db, id, db.stages[id][i].id, targets);
    forall s
      ensures TargetsAt(db', j, s) == if j == id && s == db.stages[id][i].id then targets else TargetsAt(db, j, s)
    {
      ReplacedTargetsAt(db, id, db.stages[id][i].id, targets, j, s);
    }
    ReplacedKeepsRecords(db, id, db.stages[id][i].id, targets);
    assert DistinctStages(db.stages[id]);
    if j == id {
      assert FileOf(db', id).cohorts == FileOf(db, id).cohorts[i := targets];
    } else {
      assert FileOf(db', j).cohorts == FileOf(db, j).cohorts;
    }
  }

  lemma {:induction false} ReplacedKeepsRecords(db: Db, id: string, stageID: string, targets: seq<StageTarget>)
    ensures Replaced(db, id, stageID, targets).rollouts == db.rollouts
    ensures Replaced(db, id, stageID, targets).stages == db.stages
  {
  }

  /** Writing one stage's targets changes that stage's cohort in that rollout's file, and nothing else. */
  lemma {:induction false} TargetsView(db: Db, db': Db, id: string, i: nat, targets: seq<StageTarget>)
    requires StoreInv(db) && id in db.rollouts && i < |db.stages[id]|
    requires db' == Replaced(db, id, db.stages[id][i].id, targets)
    ensures StoreInv(db')
    ensures FilesOf(db') == FilesOf(db)[id := FilesOf(db)[id].(cohorts := FilesOf(db)[id].cohorts[i := targets])]
  {
    hide TargetKey, NulFree, NoOrphans, DistinctStages, FileOf;
    var stageID := db.stages[id][i].id;
    assert HasStage(db, id, stageID) by { assert StageIndex(db.stages[id], stageID) <= i; }
    ReplaceKeepsStore(db, id, stageID, targets);
    FilesMirror(db);
    assert FilesOf(db)[id] == FileOf(db, id);
    forall j | j in db.rollouts
      ensures FileOf(db', j)
        == if j == id then FileOf(db, id).(cohorts := FileOf(db, id).cohorts[i := targets]) else FileOf(db, j)
    {
      ReplacedFile(db, id, i, targets, j);
    }
    OneFileChanges(db, db', id, FileOf(db, id).(cohorts := FileOf(db, id).cohorts[i := targets]));
  }

  function At(targets: map<string, seq<StageTarget>>, key: string): seq<StageTarget> {
    if key in targets then targets[key] else []
  }

  /** Targets of one stage, appended one by one, land behind that stage's earlier ones. */
  lemma {:induction false} AppendsGather(
      targets: map<string, seq<StageTarget>>, more: seq<StageTarget>, rolloutID: string, stageID: string)
    requires forall i :: 0 <= i < |more| ==> more[i].rolloutID == rolloutID && more[i].stageID == stageID
    ensures more == [] ==> AppendedAll(targets, more) == targets
    ensures more != [] ==>
      AppendedAll(targets, more)
        == targets[TargetKey(rolloutID, stageID) := At(targets, TargetKey(rolloutID, stageID)) + more]
  {
    if more != [] {
      var key := TargetKey(rolloutID, stageID);
      var front, last := more[..|more| - 1], more[|more| - 1];
      AppendsGather(targets, front, rolloutID, stageID);
      var before := AppendedAll(targets, front);
      assert At(before, key) == At(targets, key) + front;
      assert At(targets, key) + front + [last] == At(targets, key) + more;
      assert AppendedAll(targets, more) == before[key := At(before, key) + [last]];
    }
  }

  /** Activating a stage appends to its cohort. */
  lemma {:induction false} AppendView(db: Db, db': Db, id: string, i: nat, more: seq<StageTarget>)
    requires StoreInv(db) && id in db.rollouts && i < |db.stages[id]|
    requires forall k :: 0 <= k < |more| ==> more[k].rolloutID == id && more[k].stageID == db.stages[id][i].id
    requires db' == db.(targets := AppendedAll(db.targets, more))
    ensures StoreInv(db')
    ensures FilesOf(db')
      == FilesOf(db)[id := FilesOf(db)[id].(cohorts := FilesOf(db)[id].cohorts[i := FilesOf(db)[id].cohorts[i] + more])]
  {
    hide NulFree, DistinctStages, NoOrphans;
    var stageID := db.stages[id][i].id;
    AppendsGather(db.targets, more, id, stageID);
    var cohorts := FileOf(db, id).cohorts;
    assert FilesOf(db)[id].cohorts == cohorts && cohorts[i] == TargetsAt(db, id, stageID);
    if more == [] {
      assert cohorts[i] + more == cohorts[i];
      assert cohorts[i := cohorts[i]] == cohorts;
    } else {
      TargetsView(db, db', id, i, TargetsAt(db, id, stageID) + more);
    }
  }

  /**
   * A stage activation leaves an earlier stage's stored cohort alone exactly when it has another name or adds nobody.
   */
  lemma {:induction false} FrozenIffNamesDiffer(
      db: Db, id: string, stageID: string, other: string, more: seq<StageTarget>)
    requires NulFree(id)
    requires forall k :: 0 <= k < |more| ==> more[k].rolloutID == id && more[k].stageID == stageID
    ensures TargetsAt(db.(targets := AppendedAll(db.targets, more)), id, other) == TargetsAt(db, id, other)
      <==> stageID != other || more == []
  {
    AppendsGather(db.targets, more, id, stageID);
    if stageID != other && TargetKey(id, stageID) == TargetKey(id, other) {
      TargetKeysDiffer(id, stageID, id, other);
    }
    if stageID == other && more != [] {
      assert |TargetsAt(db, id, other) + more| > |TargetsAt(db, id, other)|;
    }
  }

  lemma {:induction false} RevisionView(db: Db, n: int)
    requires StoreInv(db)
    ensures StoreInv(db.(nextRevision := n)) && FilesOf(db.(nextRevision := n)) == FilesOf(db)
  {
    hide TargetKey, NulFree, DistinctStages;
    var db' := db.(nextRevision := n);
    assert NoOrphans(db') by {
      forall id: string, stageID: string | NulFree(id) && TargetKey(id, stageID) in db'.targets
        ensures HasStage(db', id, stageID)
      {
        assert HasStage(db, id, stageID);
      }
    }
    forall id | id in db.rollouts ensures FileOf(db', id) == FileOf(db, id) {
    }
  }
}
