/**
 * The single writes of a rollout step: the file each of them leaves behind, in order, and what it means that the
 * store's log shows them.
 */
module RolloutWrites {
  import opened Wrappers
  import opened Lifecycle
  import opened Cohorts
  import opened RolloutCase
  import opened RolloutStore

  // ----- The files the writes of a step leave behind -----

  function WithStageOnly(c: Case): Case {
    Case(c.r, c.stages + [Stage(VerificationID(c.r.id), 100, 0)], c.cohorts + [[]])
  }

  /**
   * reconcileRollback: revision, stage, targets, record and, with nobody to check, the end; or the end of a
   * verification.
   */
  function RollbackWrites(c: Case, revision: int, t: Tick): seq<Case>
    requires Indexed(c)
  {
    if !Verifying(c) then
      var begun := BeginVerification(c, revision, t);
      [c, WithStageOnly(c), Case(c.r, begun.stages, begun.cohorts), begun]
      + if Current(c) == [] then [Ended(begun, Verified, t.clock.save)] else []
    else
      var next := RollbackEffect(c, revision, t).next;
      if next.r.state == RolledBack then [next] else []
  }

  /** promote: the completed record; or the record that names the next stage, a revision, and that stage's targets. */
  function PromoteWrites(h: Hash, c: Case, agents: seq<Agent>, revision: int, t: Tick): seq<Case>
    requires Indexed(c)
  {
    if c.r.currentStageIndex == |c.stages| - 1 then [WithState(c, Completed, t.clock.save)]
    else
      var named := c.(r := PromotedRecord(c, t.clock.save));
      [named, named, PromotedTo(h, c, agents, revision, t)]
  }

  function ActWrites(h: Hash, c: Case, decision: StageDecision, agents: seq<Agent>, revision: int, t: Tick): seq<Case>
    requires Indexed(c)
  {
    match decision
    case DecisionPromote => PromoteWrites(h, c, agents, revision, t)
    case DecisionRollback => [WithState(c, RollingBack, t.clock.save)]
    case DecisionPause => if c.r.state == Paused then [] else [WithState(c, Paused, t.clock.save)]
    case DecisionWait => []
  }

  function ObservationWrites(c: Case, t: Tick): seq<Case>
    requires Indexed(c)
  {
    if Consults(c, t) then [Observed(c, t)] else []
  }

  function ProgressWrites(h: Hash, c: Case, agents: seq<Agent>, revision: int, t: Tick): seq<Case>
    requires Indexed(c)
  {
    if c.r.state == RollingBack then RollbackWrites(c, revision, t)
    else ObservationWrites(c, t) + ActWrites(h, Observed(c, t), Decide(c, t), agents, revision, t)
  }

  function AckWrites(c: Case, ack: Ack): seq<Case>
    requires Indexed(c)
  {
    if Counts(Current(c), ack) then [AckCase(c, ack)] else []
  }

  function EventWrites(h: Hash, c: Case, e: Event): seq<Case>
    requires Indexed(c)
  {
    if Terminal(c.r.state) then []
    else match e
      case Idle => []
      case Visit(agents, revision, t) => ProgressWrites(h, c, agents, revision, t)
      case AckVisit(ack, agents, revision, t) =>
        AckWrites(c, ack) + ProgressWrites(h, AckCase(c, ack), agents, revision, t)
  }

  /** CreateRollout: the record and its stages, a revision, the first stage's targets. */
  function CreationWrites(created: Case): seq<Case> {
    var opening := Case(created.r, created.stages, seq(|created.stages|, _ => []));
    [opening, opening, created]
  }

  // ----- What the log shows -----

  function FileIn(db: Db, id: string): Option<Case> {
    if id in db.rollouts && id in db.stages then Some(FileOf(db, id)) else None
  }

  ghost predicate OthersStay(db: Db, db': Db, id: string) {
    forall j: string :: j != id ==> FileIn(db', j) == FileIn(db, j)
  }

  /**
   * From `before` to `after` the log grew by one state for each of `files`, which rollout `id` went through; no other
   * rollout moved.
   */
  ghost predicate Wrote(before: Trail, after: Trail, id: string, files: seq<Case>) {
    && |after.log| == |before.log| + |files| && after.log[..|before.log|] == before.log
    && (forall k :: 0 <= k < |files| ==>
          FileIn(after.log[|before.log| + k], id) == Some(files[k])
          && OthersStay(before.now, after.log[|before.log| + k], id))
    && OthersStay(before.now, after.now, id)
  }

  lemma {:induction false} WroteNothing(trail: Trail, id: string)
    ensures Wrote(trail, trail, id, [])
  {
  }

  lemma {:induction false} OthersStayOn(a: Db, b: Db, c: Db, id: string)
    requires OthersStay(a, b, id) && OthersStay(b, c, id)
    ensures OthersStay(a, c, id)
  {
  }

  lemma {:induction false} WroteMore(a: Trail, b: Trail, c: Trail, id: string, files: seq<Case>, more: seq<Case>)
    requires Wrote(a, b, id, files) && Wrote(b, c, id, more)
    ensures Wrote(a, c, id, files + more)
  {
    hide FileIn, OthersStay;
    OthersStayOn(a.now, b.now, c.now, id);
    assert c.log[..|a.log|] == c.log[..|b.log|][..|a.log|] == b.log[..|a.log|] == a.log;
    var all := files + more;
    forall k | 0 <= k < |all|
      ensures FileIn(c.log[|a.log| + k], id) == Some(all[k]) && OthersStay(a.now, c.log[|a.log| + k], id)
    {
      if k < |files| {
        assert all[k] == files[k];
        assert c.log[|a.log| + k] == c.log[..|b.log|][|a.log| + k] == b.log[|a.log| + k];
      } else {
        var m := k - |files|;
        assert all[k] == more[m];
        assert c.log[|a.log| + k] == c.log[|b.log| + m];
        OthersStayOn(a.now, b.now, c.log[|b.log| + m], id);
      }
    }
  }

  /** One file changed. */
  ghost predicate OneFile(db: Db, db': Db, id: string, c: Case) {
    Keyed(db) && Keyed(db') && FilesOf(db') == FilesOf(db)[id := c]
  }

  lemma {:induction false} FilesAreFilesIn(db: Db, id: string)
    requires Keyed(db)
    ensures FileIn(db, id) == if id in FilesOf(db) then Some(FilesOf(db)[id]) else None
  {
    FilesMirror(db);
  }

  lemma {:induction false} OneFileStays(db: Db, db': Db, id: string, c: Case)
    requires OneFile(db, db', id, c)
    ensures FileIn(db', id) == Some(c) && OthersStay(db, db', id)
  {
    hide Keyed, FilesOf, FileIn;
    forall j: string ensures FileIn(db', j) == if j == id then Some(c) else FileIn(db, j) {
      FilesAreFilesIn(db, j);
      FilesAreFilesIn(db', j);
    }
  }

  lemma {:induction false} WroteOne(before: Trail, db': Db, id: string, c: Case)
    requires OneFile(before.now, db', id, c)
    ensures Wrote(before, Trail(db', before.log + [db']), id, [c])
  {
    hide OneFile, FileIn, OthersStay;
    OneFileStays(before.now, db', id, c);
  }

  lemma {:induction false} WroteThree(before: Trail, d1: Db, d2: Db, d3: Db, id: string, c1: Case, c2: Case, c3: Case)
    requires OneFile(before.now, d1, id, c1) && OneFile(before.now, d2, id, c2) && OneFile(before.now, d3, id, c3)
    ensures Wrote(before, Trail(d3, before.log + [d1, d2, d3]), id, [c1, c2, c3])
  {
    hide OneFile, FileIn, OthersStay;
    OneFileStays(before.now, d1, id, c1);
    OneFileStays(before.now, d2, id, c2);
    OneFileStays(before.now, d3, id, c3);
  }
}
