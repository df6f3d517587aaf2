/**
 * internal/rollout target.go, bucket.go, stage.go and promotion.go: deterministic cohorts, acknowledgements, coverage.
 */
module Cohorts {
  import opened Text
  import opened Wrappers
  import opened Lifecycle
  import opened Guardrails

  datatype Agent = Agent(id: string, service: string, environment: string)

  datatype Stage = Stage(id: string, percentage: int, minimumDuration: int)

  datatype TargetStatus = TargetPending | TargetAcked

  datatype StageTarget = StageTarget(
    rolloutID: string, stageID: string, agentID: string, bucket: int, expectedVersionID: string,
    snapshotRevision: int, createdAt: Time, ackedAt: Option<Time>, status: TargetStatus)

  datatype RollbackStatus = NoRollback | Verified | Partial

  datatype Rollout = Rollout(
    id: string, configDefinitionID: string, tenantID: string, configKey: string, environment: string,
    targetServices: seq<string>, stableVersionID: string, candidateVersionID: string, candidateVersion: int,
    state: State, currentStageID: string, currentStageIndex: int, requiredAckPercent: real,
    guardrails: seq<Rule>, guardrailFailures: Counters, stageStartedAt: Time, deploymentTimeout: int,
    rolloutMaxDuration: int, rollbackTimeout: int, rollbackStatus: RollbackStatus, createdAt: Time, updatedAt: Time)

  /** The hash behind Bucket: any function of the key text (SHA-256's first eight bytes in the program). */
  type Hash = string -> nat

  // ----- stage.go -----

  predicate ValidStage(stage: Stage, previous: int) {
    stage.id != "" && previous < stage.percentage <= 100
  }

  function PreviousPercentage(stages: seq<Stage>, i: nat): int
    requires i <= |stages|
  {
    if i == 0 then 0 else stages[i - 1].percentage
  }

  predicate ValidPlan(stages: seq<Stage>) {
    && |stages| > 0
    && (forall i :: 0 <= i < |stages| ==> ValidStage(stages[i], PreviousPercentage(stages, i)))
    && stages[|stages| - 1].percentage == 100
  }

  method ValidateStagePlan(stages: seq<Stage>) returns (ok: bool)
    ensures ok <==> ValidPlan(stages)
  {
    if |stages| == 0 {
      return false;
    }
    var previous := 0;
    for i := 0 to |stages|
      invariant previous == PreviousPercentage(stages, i) >= 0
      invariant forall j :: 0 <= j < i ==> ValidStage(stages[j], PreviousPercentage(stages, j))
    {
      if stages[i].id == "" || stages[i].percentage <= 0 || stages[i].percentage > 100 {
        return false;
      }
      if stages[i].percentage <= previous {
        return false;
      }
      previous := stages[i].percentage;
    }
    ok := stages[|stages| - 1].percentage == 100;
  }

  function DefaultStagePlan(): seq<Stage> {
    [Stage("stage-5", 5, 60_000_000_000), Stage("stage-25", 25, 120_000_000_000),
     Stage("stage-100", 100, 180_000_000_000)]
  }

  predicate DistinctStages(stages: seq<Stage>) {
    forall i, j :: 0 <= i < j < |stages| ==> stages[i].id != stages[j].id
  }

  /** The plan used when a request names none is accepted, and its stages differ by name. */
  lemma {:induction false} DefaultStagePlanIsValid()
    ensures ValidPlan(DefaultStagePlan()) && DistinctStages(DefaultStagePlan())
  {
  }

  lemma {:induction false} PercentagesIncrease(stages: seq<Stage>, i: nat, j: nat)
    requires ValidPlan(stages) && i < j < |stages|
    ensures 0 < stages[i].percentage < stages[j].percentage <= 100
    decreases j
  {
    assert ValidStage(stages[j], PreviousPercentage(stages, j));
    if i < j - 1 {
      PercentagesIncrease(stages, i, j - 1);
    } else {
      FirstPercentagePositive(stages, i);
    }
  }

  lemma {:induction false} FirstPercentagePositive(stages: seq<Stage>, i: nat)
    requires ValidPlan(stages) && i < |stages|
    ensures 0 < stages[i].percentage
    decreases i
  {
    assert ValidStage(stages[i], PreviousPercentage(stages, i));
    if i > 0 {
      FirstPercentagePositive(stages, i - 1);
    }
  }

  /** Stage validation does not ask for distinct names. */
  lemma {:induction false} RepeatedStageNamesPass()
    ensures var plan := [Stage("a", 5, 0), Stage("a", 100, 0)]; ValidPlan(plan) && !DistinctStages(plan)
  {
    var plan := [Stage("a", 5, 0), Stage("a", 100, 0)];
    assert plan[0].id == plan[1].id;
  }

  // ----- bucket.go -----

  const BUCKET_COUNT := 10000

  /** The text that is hashed. */
  function AssignmentKey(configDefinitionID: string, candidateVersionID: string, agentID: string): string {
    configDefinitionID + [NUL] + candidateVersionID + [NUL] + agentID
  }

  function Bucket(h: Hash, configDefinitionID: string, candidateVersionID: string, agentID: string): (bucket: int)
    ensures 0 <= bucket < BUCKET_COUNT
  {
    h(AssignmentKey(configDefinitionID, candidateVersionID, agentID)) % BUCKET_COUNT
  }

  /** The hashed text determines configuration, candidate and agent, as long as the generated ids hold no NUL. */
  lemma {:induction false} KeyDeterminesItsParts(d: string, v: string, a: string, d': string, v': string, a': string)
    requires NulFree(d) && NulFree(v) && NulFree(d') && NulFree(v')
    ensures AssignmentKey(d, v, a) == AssignmentKey(d', v', a') <==> d == d' && v == v' && a == a'
  {
    assert AssignmentKey(d, v, a) == Join(d, Join(v, a));
    assert AssignmentKey(d', v', a') == Join(d', Join(v', a'));
    if AssignmentKey(d, v, a) == AssignmentKey(d', v', a') {
      JoinIsInjectiveOnTheLeft(d, Join(v, a), d', Join(v', a'));
      JoinIsInjectiveOnTheLeft(v, a, v', a');
    }
  }

  /** So two assignments can fall into different buckets exactly when one of the three differs. */
  lemma {:induction false} BucketsCanDifferIff(d: string, v: string, a: string, d': string, v': string, a': string)
    requires NulFree(d) && NulFree(v) && NulFree(d') && NulFree(v')
    ensures (exists h: Hash :: Bucket(h, d, v, a) != Bucket(h, d', v', a')) <==> d != d' || v != v' || a != a'
  {
    KeyDeterminesItsParts(d, v, a, d', v', a');
    if d != d' || v != v' || a != a' {
      var h: Hash := text => if text == AssignmentKey(d, v, a) then 1 else 0;
      assert Bucket(h, d, v, a) == 1 && Bucket(h, d', v', a') == 0;
    }
  }

  predicate Eligible(bucket: int, percentage: int) {
    if percentage <= 0 then false
    else if percentage >= 100 then 0 <= bucket < BUCKET_COUNT
    else 0 <= bucket < percentage * 100
  }

  lemma {:induction false} EligibleIsMonotone(low: int, high: int, p: int, q: int)
    requires 0 <= low <= high && p <= q && Eligible(high, p)
    ensures Eligible(low, q)
  {
  }

  /** The buckets an agent may have that a stage at this percentage takes. */
  function EligibleBuckets(percentage: int): set<int> {
    set b | 0 <= b < BUCKET_COUNT && Eligible(b, percentage)
  }

  predicate From0To(n: int, b: int) {
    0 <= b < n
  }

  function Lowest(n: nat): set<int> {
    set b | 0 <= b < n && From0To(n, b)
  }

  lemma {:induction false} CountLowest(n: nat)
    ensures |Lowest(n)| == n
  {
    if n > 0 {
      CountLowest(n - 1);
      assert Lowest(n) == Lowest(n - 1) + {n - 1};
    }
  }

  /** A stage takes exactly its percentage of the buckets. */
  lemma {:induction false} EligibleShare(percentage: int)
    requires 0 <= percentage <= 100
    ensures |EligibleBuckets(percentage)| * 100 == percentage * BUCKET_COUNT
  {
    CountLowest(percentage * 100);
    assert EligibleBuckets(percentage) == Lowest(percentage * 100);
  }

  // ----- BuildStageTargets: specification -----

  datatype Slot = Slot(bucket: int, agentID: string)

  predicate Before(a: Slot, b: Slot) {
    a.bucket < b.bucket || (a.bucket == b.bucket && Less(a.agentID, b.agentID))
  }

  lemma {:induction false} BeforeIsTotalOrder(a: Slot, b: Slot, c: Slot)
    ensures Before(a, b) || a == b || Before(b, a)
    ensures Before(a, b) ==> !Before(b, a) && a != b
    ensures Before(a, b) && Before(b, c) ==> Before(a, c)
    ensures !Before(a, b) && !Before(b, c) ==> !Before(a, c)
  {
    LessIsTotal(a.agentID, b.agentID);
    LessIsTotal(b.agentID, c.agentID);
    if Less(a.agentID, b.agentID) { LessIsAsymmetric(a.agentID, b.agentID); }
    if Less(b.agentID, a.agentID) { LessIsAsymmetric(b.agentID, a.agentID); }
    if Less(a.agentID, b.agentID) && Less(b.agentID, c.agentID) {
      LessIsTransitive(a.agentID, b.agentID, c.agentID);
    }
    if Less(c.agentID, b.agentID) && Less(b.agentID, a.agentID) {
      LessIsTransitive(c.agentID, b.agentID, a.agentID);
      LessIsAsymmetric(c.agentID, a.agentID);
    }
    if Less(a.agentID, c.agentID) { LessIsAsymmetric(a.agentID, c.agentID); }
    if Less(c.agentID, b.agentID) { LessIsAsymmetric(c.agentID, b.agentID); }
    if Less(b.agentID, c.agentID) { LessIsAsymmetric(b.agentID, c.agentID); }
  }

  predicate Ordered(slots: seq<Slot>) {
    forall i, j :: 0 <= i < j < |slots| ==> !Before(slots[j], slots[i])
  }

  function SlotsOf(h: Hash, r: Rollout, agents: seq<Agent>): (slots: seq<Slot>)
    ensures |slots| == |agents|
  {
    seq(|agents|, i requires 0 <= i < |agents| =>
      Slot(Bucket(h, r.configDefinitionID, r.candidateVersionID, agents[i].id), agents[i].id))
  }

  function Select(percentage: int, slots: seq<Slot>): (chosen: seq<Slot>)
    ensures forall s :: s in chosen <==> s in slots && Eligible(s.bucket, percentage)
  {
    if slots == [] then []
    else (if Eligible(slots[0].bucket, percentage) then [slots[0]] else []) + Select(percentage, slots[1..])
  }

  function Insert(s: Slot, slots: seq<Slot>): seq<Slot> {
    if slots == [] then [s]
    else if !Before(slots[0], s) then [s] + slots
    else [slots[0]] + Insert(s, slots[1..])
  }

  function Sort(slots: seq<Slot>): seq<Slot> {
    if slots == [] then [] else Insert(slots[0], Sort(slots[1..]))
  }

  function Stamp(r: Rollout, stage: Stage, revision: int, at: Time, slot: Slot): StageTarget {
    StageTarget(r.id, stage.id, slot.agentID, slot.bucket, r.candidateVersionID, revision, at, None, TargetPending)
  }

  function StampAll(r: Rollout, stage: Stage, revision: int, at: Time, slots: seq<Slot>): (targets: seq<StageTarget>)
    ensures |targets| == |slots|
    ensures forall i :: 0 <= i < |slots| ==> targets[i] == Stamp(r, stage, revision, at, slots[i])
  {
    seq(|slots|, i requires 0 <= i < |slots| => Stamp(r, stage, revision, at, slots[i]))
  }

  /** The cohort a stage activation freezes. */
  function Cohort(h: Hash, r: Rollout, stage: Stage, agents: seq<Agent>, revision: int, at: Time): seq<StageTarget> {
    StampAll(r, stage, revision, at, Sort(Select(stage.percentage, SlotsOf(h, r, agents))))
  }

  // ----- Sorting facts -----

  lemma {:induction false} MembersOfEqualMultisets<T>(a: seq<T>, b: seq<T>)
    requires multiset(a) == multiset(b)
    ensures forall x :: x in a <==> x in b
  {
    forall x ensures x in a <==> x in b {
      assert x in a <==> x in multiset(a);
      assert x in b <==> x in multiset(b);
    }
  }

  lemma {:induction false} InsertAddsOne(s: Slot, slots: seq<Slot>)
    ensures multiset(Insert(s, slots)) == multiset(slots) + multiset{s}
    ensures forall x :: x in Insert(s, slots) <==> x == s || x in slots
  {
    if slots != [] && Before(slots[0], s) {
      InsertAddsOne(s, slots[1..]);
      assert slots == [slots[0]] + slots[1..];
    }
  }

  lemma {:induction false} SortPermutes(slots: seq<Slot>)
    ensures multiset(Sort(slots)) == multiset(slots)
    ensures forall x :: x in Sort(slots) <==> x in slots
  {
    if slots != [] {
      SortPermutes(slots[1..]);
      InsertAddsOne(slots[0], Sort(slots[1..]));
      assert slots == [slots[0]] + slots[1..];
    }
  }

  lemma {:induction false} InsertKeepsOrder(s: Slot, slots: seq<Slot>)
    requires Ordered(slots)
    ensures Ordered(Insert(s, slots))
  {
    if slots != [] {
      if !Before(slots[0], s) {
        forall j | 0 <= j < |slots| ensures !Before(slots[j], s) {
          if j > 0 { BeforeIsTotalOrder(slots[j], slots[0], s); }
        }
      } else {
        var rest := Insert(s, slots[1..]);
        InsertKeepsOrder(s, slots[1..]);
        InsertAddsOne(s, slots[1..]);
        forall j | 0 <= j < |rest| ensures !Before(rest[j], slots[0]) {
          assert rest[j] in rest;
          BeforeIsTotalOrder(slots[0], s, s);
        }
      }
    }
  }

  lemma {:induction false} SortOrders(slots: seq<Slot>)
    ensures Ordered(Sort(slots))
  {
    if slots != [] {
      SortOrders(slots[1..]);
      InsertKeepsOrder(slots[0], Sort(slots[1..]));
    }
  }

  /** Any ordering of the same slots is the same sequence, so the choice of sorting routine cannot matter. */
  lemma {:induction false} OrderedIsUnique(a: seq<Slot>, b: seq<Slot>)
    requires Ordered(a) && Ordered(b) && multiset(a) == multiset(b)
    ensures a == b
  {
    assert |a| == |multiset(a)| == |multiset(b)| == |b|;
    if a != [] {
      HeadsAgree(a, b);
      assert a == [a[0]] + a[1..] && b == [b[0]] + b[1..];
      assert multiset(a[1..]) == multiset(a) - multiset{a[0]};
      assert multiset(b[1..]) == multiset(b) - multiset{b[0]};
      OrderedIsUnique(a[1..], b[1..]);
    }
  }

  lemma {:induction false} HeadsAgree(a: seq<Slot>, b: seq<Slot>)
    requires a != [] && b != [] && Ordered(a) && Ordered(b) && multiset(a) == multiset(b)
    ensures a[0] == b[0]
  {
    MembersOfEqualMultisets(a, b);
    assert a[0] in a && b[0] in b;
    var i :| 0 <= i < |b| && b[i] == a[0];
    var j :| 0 <= j < |a| && a[j] == b[0];
    BeforeIsTotalOrder(a[0], b[0], a[0]);
    assert i > 0 ==> !Before(b[i], b[0]);
    assert j > 0 ==> !Before(a[j], a[0]);
  }

  lemma {:induction false} SelectDistributes(p: int, a: seq<Slot>, b: seq<Slot>)
    ensures Select(p, a + b) == Select(p, a) + Select(p, b)
  {
    if a == [] {
      assert a + b == b;
    } else {
      assert (a + b)[1..] == a[1..] + b;
      SelectDistributes(p, a[1..], b);
    }
  }

  lemma {:induction false} SelectSkipsInsert(p: int, s: Slot, slots: seq<Slot>)
    requires !Eligible(s.bucket, p)
    ensures Select(p, Insert(s, slots)) == Select(p, slots)
  {
    if slots != [] && Before(slots[0], s) {
      SelectSkipsInsert(p, s, slots[1..]);
    }
  }

  lemma {:induction false} SelectCommutesWithInsert(p: int, s: Slot, slots: seq<Slot>)
    requires Ordered(slots) && Eligible(s.bucket, p)
    ensures Select(p, Insert(s, slots)) == Insert(s, Select(p, slots))
  {
    if slots == [] {
      SelectHead(p, s, []);
    } else if Before(slots[0], s) {
      SelectCommutesWithInsert(p, s, slots[1..]);
      assert slots == [slots[0]] + slots[1..];
      CommutePastHead(p, s, slots[0], slots[1..]);
    } else {
      SelectHead(p, s, slots);
      NothingPrecedes(p, s, slots);
    }
  }

  lemma {:induction false} CommutePastHead(p: int, s: Slot, head: Slot, rest: seq<Slot>)
    requires Before(head, s) && Select(p, Insert(s, rest)) == Insert(s, Select(p, rest))
    ensures Select(p, Insert(s, [head] + rest)) == Insert(s, Select(p, [head] + rest))
  {
    InsertAfter(s, head, rest);
    SelectHead(p, head, rest);
    SelectHead(p, head, Insert(s, rest));
    InsertAfter(s, head, Select(p, rest));
    if !Eligible(head.bucket, p) {
      assert Select(p, [head] + rest) == Select(p, rest);
    }
  }

  lemma {:induction false} SelectHead(p: int, s: Slot, slots: seq<Slot>)
    ensures Select(p, [s] + slots) == (if Eligible(s.bucket, p) then [s] else []) + Select(p, slots)
  {
    assert ([s] + slots)[1..] == slots;
  }

  lemma {:induction false} InsertAfter(s: Slot, head: Slot, slots: seq<Slot>)
    requires Before(head, s)
    ensures Insert(s, [head] + slots) == [head] + Insert(s, slots)
  {
    assert ([head] + slots)[1..] == slots;
  }

  lemma {:induction false} NothingPrecedes(p: int, s: Slot, slots: seq<Slot>)
    requires Ordered(slots) && slots != [] && !Before(slots[0], s)
    ensures Insert(s, Select(p, slots)) == [s] + Select(p, slots)
  {
    var chosen := Select(p, slots);
    if chosen != [] {
      assert chosen[0] in chosen;
      var j :| 0 <= j < |slots| && slots[j] == chosen[0];
      BeforeIsTotalOrder(slots[j], slots[0], s);
    }
  }

  lemma {:induction false} SelectCommutesWithSort(p: int, slots: seq<Slot>)
    ensures Sort(Select(p, slots)) == Select(p, Sort(slots))
  {
    if slots != [] {
      var s, rest := slots[0], slots[1..];
      SelectCommutesWithSort(p, rest);
      SortOrders(rest);
      if Eligible(s.bucket, p) {
        SelectCommutesWithInsert(p, s, Sort(rest));
        assert Select(p, slots) == [s] + Select(p, rest);
        assert ([s] + Select(p, rest))[1..] == Select(p, rest);
      } else {
        SelectSkipsInsert(p, s, Sort(rest));
        assert Select(p, slots) == Select(p, rest);
      }
    }
  }

  lemma {:induction false} SelectNothing(p: int, slots: seq<Slot>)
    requires forall s :: s in slots ==> !Eligible(s.bucket, p)
    ensures Select(p, slots) == []
  {
    if slots != [] {
      assert slots[0] in slots;
      SelectNothing(p, slots[1..]);
    }
  }

  lemma {:induction false} NoneEligible(p: int, slots: seq<Slot>)
    requires Ordered(slots) && slots != [] && !Eligible(slots[0].bucket, p)
    requires forall s :: s in slots ==> s.bucket >= 0
    ensures Select(p, slots) == []
  {
    forall s | s in slots ensures !Eligible(s.bucket, p) {
      var j :| 0 <= j < |slots| && slots[j] == s;
      assert slots[0] in slots;
      if j > 0 { assert !Before(slots[j], slots[0]); }
    }
    SelectNothing(p, slots);
  }

  /** In bucket order, raising the percentage only appends. */
  lemma {:induction false} SelectionGrowsByAppending(p: int, q: int, slots: seq<Slot>)
    requires p <= q && Ordered(slots) && forall s :: s in slots ==> s.bucket >= 0
    ensures Select(p, slots) <= Select(q, slots)
  {
    if slots != [] {
      if Eligible(slots[0].bucket, p) {
        SelectionGrowsByAppending(p, q, slots[1..]);
        assert slots == [slots[0]] + slots[1..];
        SelectHead(p, slots[0], slots[1..]);
        SelectHead(q, slots[0], slots[1..]);
      } else {
        NoneEligible(p, slots);
      }
    }
  }

  // ----- Cohort theorems -----

  function AgentSequence(targets: seq<StageTarget>): (ids: seq<string>)
    ensures |ids| == |targets| && forall i :: 0 <= i < |ids| ==> ids[i] == targets[i].agentID
  {
    seq(|targets|, i requires 0 <= i < |targets| => targets[i].agentID)
  }

  /** The agents at a percentage open the sequence at any higher percentage. */
  lemma {:induction false} CohortIsPrefix(
      h: Hash, r: Rollout, s: Stage, s': Stage, agents: seq<Agent>, rev: int, rev': int, at: Time, at': Time)
    requires s.percentage <= s'.percentage
    ensures AgentSequence(Cohort(h, r, s, agents, rev, at)) <= AgentSequence(Cohort(h, r, s', agents, rev', at'))
  {
    var slots := SlotsOf(h, r, agents);
    SelectCommutesWithSort(s.percentage, slots);
    SelectCommutesWithSort(s'.percentage, slots);
    SortOrders(slots);
    SortPermutes(slots);
    SelectionGrowsByAppending(s.percentage, s'.percentage, Sort(slots));
    var low, high := Select(s.percentage, Sort(slots)), Select(s'.percentage, Sort(slots));
    assert forall i :: 0 <= i < |low| ==> low[i] == high[i];
  }

  /** Listing the agents in another order gives the identical cohort. */
  lemma {:induction false} CohortIgnoresAgentOrder(
      h: Hash, r: Rollout, s: Stage, agents: seq<Agent>, agents': seq<Agent>, rev: int, at: Time)
    requires multiset(agents) == multiset(agents')
    ensures Cohort(h, r, s, agents, rev, at) == Cohort(h, r, s, agents', rev, at)
  {
    var slots, slots' := SlotsOf(h, r, agents), SlotsOf(h, r, agents');
    SlotsFollowAgents(h, r, agents, agents');
    SelectCommutesWithSort(s.percentage, slots);
    SelectCommutesWithSort(s.percentage, slots');
    SortOrders(slots);
    SortOrders(slots');
    SortPermutes(slots);
    SortPermutes(slots');
    OrderedIsUnique(Sort(slots), Sort(slots'));
  }

  lemma {:induction false} SlotsFollowAgents(h: Hash, r: Rollout, agents: seq<Agent>, agents': seq<Agent>)
    requires multiset(agents) == multiset(agents')
    ensures multiset(SlotsOf(h, r, agents)) == multiset(SlotsOf(h, r, agents'))
  {
    assert |agents| == |multiset(agents)| == |multiset(agents')| == |agents'|;
    if agents == [] {
      assert SlotsOf(h, r, agents) == SlotsOf(h, r, agents');
    } else {
      MembersOfEqualMultisets(agents, agents');
      assert agents[0] in agents';
      var j :| 0 <= j < |agents'| && agents'[j] == agents[0];
      var before, after := agents'[..j], agents'[j + 1..];
      assert agents == [agents[0]] + agents[1..];
      assert agents' == before + [agents[0]] + after;
      assert multiset(agents[1..]) == multiset(agents) - multiset{agents[0]};
      assert multiset(before + after) == multiset(agents') - multiset{agents[0]};
      SlotsFollowAgents(h, r, agents[1..], before + after);
      SlotsJoin(h, r, [agents[0]], agents[1..]);
      SlotsJoin(h, r, before, after);
      SlotsJoin(h, r, before, [agents[0]]);
      SlotsJoin(h, r, before + [agents[0]], after);
    }
  }

  lemma {:induction false} SlotsJoin(h: Hash, r: Rollout, a: seq<Agent>, b: seq<Agent>)
    ensures SlotsOf(h, r, a + b) == SlotsOf(h, r, a) + SlotsOf(h, r, b)
  {
  }

  predicate DistinctAgents(agents: seq<Agent>) {
    forall i, j :: 0 <= i < j < |agents| ==> agents[i].id != agents[j].id
  }

  predicate Chosen(h: Hash, r: Rollout, percentage: int, agentID: string) {
    Eligible(Bucket(h, r.configDefinitionID, r.candidateVersionID, agentID), percentage)
  }

  function SlotOf(h: Hash, r: Rollout, agentID: string): Slot {
    Slot(Bucket(h, r.configDefinitionID, r.candidateVersionID, agentID), agentID)
  }

  lemma {:induction false} SlotsMembers(h: Hash, r: Rollout, agents: seq<Agent>, slot: Slot)
    ensures slot in SlotsOf(h, r, agents)
       <==> slot == SlotOf(h, r, slot.agentID) && exists a :: a in agents && a.id == slot.agentID
  {
    var slots := SlotsOf(h, r, agents);
    if a :| a in agents && a.id == slot.agentID && slot == SlotOf(h, r, slot.agentID) {
      var k :| 0 <= k < |agents| && agents[k] == a;
      assert slots[k] == slot;
    }
    if slot in slots {
      var k :| 0 <= k < |slots| && slots[k] == slot;
      assert agents[k] in agents;
    }
  }

  predicate Listed(agents: seq<Agent>, id: string) {
    exists a :: a in agents && a.id == id
  }

  predicate Targeted(targets: seq<StageTarget>, id: string) {
    exists t :: t in targets && t.agentID == id
  }

  /** The cohort holds an agent exactly when it is listed and eligible. */
  lemma {:induction false} CohortMembers(
      h: Hash, r: Rollout, s: Stage, agents: seq<Agent>, rev: int, at: Time, id: string)
    ensures Targeted(Cohort(h, r, s, agents, rev, at), id) <==> Chosen(h, r, s.percentage, id) && Listed(agents, id)
  {
    var slots := SlotsOf(h, r, agents);
    var sorted := Sort(Select(s.percentage, slots));
    var targets := Cohort(h, r, s, agents, rev, at);
    SortPermutes(Select(s.percentage, slots));
    SlotsMembers(h, r, agents, SlotOf(h, r, id));
    if Chosen(h, r, s.percentage, id) && Listed(agents, id) {
      var i :| 0 <= i < |sorted| && sorted[i] == SlotOf(h, r, id);
      assert targets[i].agentID == id;
    }
    if Targeted(targets, id) {
      var i :| 0 <= i < |targets| && targets[i].agentID == id;
      SlotsMembers(h, r, agents, sorted[i]);
    }
  }

  /** Every target carries its agent's own bucket and the stage's stamp, and is eligible. */
  lemma {:induction false} CohortStamps(h: Hash, r: Rollout, s: Stage, agents: seq<Agent>, rev: int, at: Time, i: nat)
    requires i < |Cohort(h, r, s, agents, rev, at)|
    ensures var t := Cohort(h, r, s, agents, rev, at)[i];
      t == Stamp(r, s, rev, at, SlotOf(h, r, t.agentID)) && Eligible(t.bucket, s.percentage)
  {
    var slots := SlotsOf(h, r, agents);
    var sorted := Sort(Select(s.percentage, slots));
    SortPermutes(Select(s.percentage, slots));
    assert sorted[i] in sorted;
    SlotsMembers(h, r, agents, sorted[i]);
  }

  predicate DistinctTargets(targets: seq<StageTarget>) {
    forall i, j :: 0 <= i < j < |targets| ==> targets[i].agentID != targets[j].agentID
  }

  predicate DistinctSlots(slots: seq<Slot>) {
    forall i, j :: 0 <= i < j < |slots| ==> slots[i].agentID != slots[j].agentID
  }

  lemma {:induction false} SelectKeepsDistinct(p: int, slots: seq<Slot>)
    requires DistinctSlots(slots)
    ensures DistinctSlots(Select(p, slots))
  {
    if slots != [] {
      SelectKeepsDistinct(p, slots[1..]);
      var rest := Select(p, slots[1..]);
      forall j | 0 <= j < |rest| ensures rest[j].agentID != slots[0].agentID {
        assert rest[j] in slots[1..];
      }
    }
  }

  lemma {:induction false} InsertKeepsDistinct(s: Slot, slots: seq<Slot>)
    requires DistinctSlots(slots) && forall t :: t in slots ==> t.agentID != s.agentID
    ensures DistinctSlots(Insert(s, slots))
  {
    if slots != [] && Before(slots[0], s) {
      InsertKeepsDistinct(s, slots[1..]);
      InsertAddsOne(s, slots[1..]);
      var rest := Insert(s, slots[1..]);
      forall j | 0 <= j < |rest| ensures rest[j].agentID != slots[0].agentID {
        assert rest[j] in rest;
      }
    }
  }

  lemma {:induction false} SortKeepsDistinct(slots: seq<Slot>)
    requires DistinctSlots(slots)
    ensures DistinctSlots(Sort(slots))
  {
    if slots != [] {
      SortKeepsDistinct(slots[1..]);
      SortPermutes(slots[1..]);
      InsertKeepsDistinct(slots[0], Sort(slots[1..]));
    }
  }

  /** Each eligible agent appears once. */
  lemma {:induction false} CohortIsDistinct(h: Hash, r: Rollout, s: Stage, agents: seq<Agent>, rev: int, at: Time)
    requires DistinctAgents(agents)
    ensures DistinctTargets(Cohort(h, r, s, agents, rev, at))
  {
    var slots := SlotsOf(h, r, agents);
    SelectKeepsDistinct(s.percentage, slots);
    SortKeepsDistinct(Select(s.percentage, slots));
  }

  // ----- BuildStageTargets: the method -----

  datatype BuildError =
    | RolloutIDRequired | DefinitionIDRequired | CandidateIDRequired | StageIDRequired | RevisionNotPositive
    | AgentIDRequired

  function TargetSlot(t: StageTarget): Slot {
    Slot(t.bucket, t.agentID)
  }

  /** Position at which slices.SortFunc's comparison allows `t` in an ordered prefix. */
  method InsertionPoint(t: StageTarget, sorted: seq<StageTarget>) returns (k: nat)
    requires TargetsOrdered(sorted)
    ensures k <= |sorted|
    ensures forall i :: 0 <= i < k ==> !Before(TargetSlot(t), TargetSlot(sorted[i]))
    ensures forall i :: k <= i < |sorted| ==> !Before(TargetSlot(sorted[i]), TargetSlot(t))
  {
    k := |sorted|;
    while k > 0 && Before(TargetSlot(t), TargetSlot(sorted[k - 1]))
      invariant k <= |sorted|
      invariant forall i :: k <= i < |sorted| ==> Before(TargetSlot(t), TargetSlot(sorted[i]))
    {
      k := k - 1;
    }
    forall i | 0 <= i < |sorted|
      ensures i < k ==> !Before(TargetSlot(t), TargetSlot(sorted[i]))
      ensures i >= k ==> !Before(TargetSlot(sorted[i]), TargetSlot(t))
    {
      if i < k {
        BeforeIsTotalOrder(TargetSlot(t), TargetSlot(sorted[k - 1]), TargetSlot(sorted[i]));
      } else {
        BeforeIsTotalOrder(TargetSlot(t), TargetSlot(sorted[i]), TargetSlot(t));
      }
    }
  }

  predicate TargetsOrdered(targets: seq<StageTarget>) {
    forall i, j :: 0 <= i < j < |targets| ==> !Before(TargetSlot(targets[j]), TargetSlot(targets[i]))
  }

  lemma {:induction false} InsertedInOrder(t: StageTarget, sorted: seq<StageTarget>, k: nat)
    requires TargetsOrdered(sorted) && k <= |sorted|
    requires forall i :: 0 <= i < k ==> !Before(TargetSlot(t), TargetSlot(sorted[i]))
    requires forall i :: k <= i < |sorted| ==> !Before(TargetSlot(sorted[i]), TargetSlot(t))
    ensures TargetsOrdered(sorted[..k] + [t] + sorted[k..])
    ensures multiset(sorted[..k] + [t] + sorted[k..]) == multiset(sorted) + multiset{t}
  {
    hide Before;
    assert sorted == sorted[..k] + sorted[k..];
  }

  /** Stands for slices.SortFunc: some ordering of the same targets. */
  method SortTargets(targets: seq<StageTarget>) returns (sorted: seq<StageTarget>)
    ensures multiset(sorted) == multiset(targets) && TargetsOrdered(sorted)
  {
    hide TargetsOrdered;
    sorted := [];
    assert TargetsOrdered(sorted) by { NothingIsOrdered(); }
    for n := 0 to |targets|
      invariant multiset(sorted) == multiset(targets[..n]) && TargetsOrdered(sorted)
    {
      var k := InsertionPoint(targets[n], sorted);
      InsertedInOrder(targets[n], sorted, k);
      assert targets[..n + 1] == targets[..n] + [targets[n]];
      sorted := sorted[..k] + [targets[n]] + sorted[k..];
    }
    assert targets[..|targets|] == targets;
  }

  lemma {:induction false} NothingIsOrdered()
    ensures TargetsOrdered([])
  {
  }

  lemma {:induction false} StampJoins(r: Rollout, s: Stage, rev: int, at: Time, a: seq<Slot>, b: seq<Slot>)
    ensures StampAll(r, s, rev, at, a + b) == StampAll(r, s, rev, at, a) + StampAll(r, s, rev, at, b)
  {
  }

  lemma {:induction false} SelectSnoc(p: int, slots: seq<Slot>, s: Slot)
    ensures Select(p, slots + [s]) == Select(p, slots) + if Eligible(s.bucket, p) then [s] else []
  {
    SelectDistributes(p, slots, [s]);
    SelectHead(p, s, []);
    assert [s] + [] == [s];
  }

  lemma {:induction false} StampFollowsMultiset(r: Rollout, s: Stage, rev: int, at: Time, slots: seq<Slot>, slot: Slot)
    ensures multiset(StampAll(r, s, rev, at, slots))[Stamp(r, s, rev, at, slot)] == multiset(slots)[slot]
  {
    if slots != [] {
      var last := |slots| - 1;
      StampFollowsMultiset(r, s, rev, at, slots[..last], slot);
      assert slots == slots[..last] + [slots[last]];
      StampJoins(r, s, rev, at, slots[..last], [slots[last]]);
      assert StampAll(r, s, rev, at, [slots[last]]) == [Stamp(r, s, rev, at, slots[last])];
    }
  }

  /** Whatever sorting routine ran, ordered targets stamped from the chosen slots are the cohort. */
  lemma {:induction false} SortedTargetsAreTheCohort(
      r: Rollout, s: Stage, rev: int, at: Time, chosen: seq<Slot>, sorted: seq<StageTarget>)
    requires multiset(sorted) == multiset(StampAll(r, s, rev, at, chosen))
    requires TargetsOrdered(sorted)
    ensures sorted == StampAll(r, s, rev, at, Sort(chosen))
  {
    var slots := seq(|sorted|, i requires 0 <= i < |sorted| => TargetSlot(sorted[i]));
    MembersOfEqualMultisets(sorted, StampAll(r, s, rev, at, chosen));
    forall i | 0 <= i < |sorted| ensures sorted[i] == Stamp(r, s, rev, at, slots[i]) {
      assert sorted[i] in sorted;
    }
    assert sorted == StampAll(r, s, rev, at, slots);
    forall slot ensures multiset(slots)[slot] == multiset(chosen)[slot] {
      StampFollowsMultiset(r, s, rev, at, slots, slot);
      StampFollowsMultiset(r, s, rev, at, chosen, slot);
    }
    SortOrders(chosen);
    SortPermutes(chosen);
    OrderedIsUnique(slots, Sort(chosen));
  }

  /** The targets built before sorting. */
  function Picked(h: Hash, r: Rollout, s: Stage, agents: seq<Agent>, rev: int, at: Time): seq<StageTarget> {
    StampAll(r, s, rev, at, Select(s.percentage, SlotsOf(h, r, agents)))
  }

  lemma {:induction false} PickedSnoc(h: Hash, r: Rollout, s: Stage, agents: seq<Agent>, n: nat, rev: int, at: Time)
    requires n < |agents|
    ensures var slot := SlotOf(h, r, agents[n].id);
      Picked(h, r, s, agents[..n + 1], rev, at)
      == Picked(h, r, s, agents[..n], rev, at)
         + if Eligible(slot.bucket, s.percentage) then [Stamp(r, s, rev, at, slot)] else []
  {
    var slot := SlotOf(h, r, agents[n].id);
    assert agents[..n + 1] == agents[..n] + [agents[n]];
    SlotsJoin(h, r, agents[..n], [agents[n]]);
    assert SlotsOf(h, r, [agents[n]]) == [slot];
    SelectSnoc(s.percentage, SlotsOf(h, r, agents[..n]), slot);
    StampJoins(r, s, rev, at, Select(s.percentage, SlotsOf(h, r, agents[..n])), [slot]);
    assert StampAll(r, s, rev, at, [slot]) == [Stamp(r, s, rev, at, slot)];
    assert Select(s.percentage, SlotsOf(h, r, agents[..n])) + [] == Select(s.percentage, SlotsOf(h, r, agents[..n]));
  }

  method BuildStageTargets(h: Hash, r: Rollout, stage: Stage, agents: seq<Agent>, revision: int, at: Time)
    returns (result: Result<seq<StageTarget>, BuildError>)
    ensures result.Ok? <==> r.id != "" && r.configDefinitionID != "" && r.candidateVersionID != "" && stage.id != ""
                            && revision >= 1 && forall a :: a in agents ==> a.id != ""
    ensures result.Ok? ==> result.value == Cohort(h, r, stage, agents, revision, at)
  {
    if r.id == "" { return Err(RolloutIDRequired); }
    if r.configDefinitionID == "" { return Err(DefinitionIDRequired); }
    if r.candidateVersionID == "" { return Err(CandidateIDRequired); }
    if stage.id == "" { return Err(StageIDRequired); }
    if revision < 1 { return Err(RevisionNotPositive); }

    var targets := [];
    for i := 0 to |agents|
      invariant forall j :: 0 <= j < i ==> agents[j].id != ""
      invariant targets == Picked(h, r, stage, agents[..i], revision, at)
    {
      if agents[i].id == "" {
        assert agents[i] in agents;
        return Err(AgentIDRequired);
      }
      var slot := SlotOf(h, r, agents[i].id);
      PickedSnoc(h, r, stage, agents, i, revision, at);
      if Eligible(slot.bucket, stage.percentage) {
        targets := targets + [Stamp(r, stage, revision, at, slot)];
      }
    }
    assert agents[..|agents|] == agents;
    var sorted := SortTargets(targets);
    SortedTargetsAreTheCohort(r, stage, revision, at, Select(stage.percentage, SlotsOf(h, r, agents)), sorted);
    result := Ok(sorted);
  }

  // ----- ApplyAck -----

  datatype Ack = Ack(
    rolloutID: string, stageID: string, agentID: string, versionID: string, snapshotRevision: int, ackedAt: Time)

  predicate Matches(t: StageTarget, ack: Ack) {
    && t.agentID == ack.agentID && t.rolloutID == ack.rolloutID && t.stageID == ack.stageID
    && t.expectedVersionID == ack.versionID && t.snapshotRevision == ack.snapshotRevision
  }

  /** Index of the agent's first target, or the length. */
  function FirstOf(targets: seq<StageTarget>, agentID: string): (k: nat)
    ensures k <= |targets|
    ensures forall i :: 0 <= i < k ==> targets[i].agentID != agentID
    ensures k < |targets| ==> targets[k].agentID == agentID
  {
    if targets == [] then 0
    else if targets[0].agentID == agentID then 0
    else 1 + FirstOf(targets[1..], agentID)
  }

  predicate Counts(targets: seq<StageTarget>, ack: Ack) {
    var k := FirstOf(targets, ack.agentID);
    k < |targets| && Matches(targets[k], ack) && targets[k].status == TargetPending
  }

  function MarkAcked(t: StageTarget, ack: Ack): StageTarget {
    t.(status := TargetAcked, ackedAt := Some(ack.ackedAt))
  }

  function Acknowledged(targets: seq<StageTarget>, ack: Ack): (after: seq<StageTarget>)
    ensures |after| == |targets|
  {
    if Counts(targets, ack) then
      var k := FirstOf(targets, ack.agentID);
      targets[k := MarkAcked(targets[k], ack)]
    else targets
  }

  method ApplyAck(targets: array<StageTarget>, ack: Ack) returns (counted: bool)
    modifies targets
    ensures counted == Counts(old(targets[..]), ack)
    ensures targets[..] == Acknowledged(old(targets[..]), ack)
  {
    for i := 0 to targets.Length
      invariant targets[..] == old(targets[..])
      invariant forall j :: 0 <= j < i ==> targets[j].agentID != ack.agentID
    {
      if targets[i].agentID == ack.agentID {
        assert FirstOf(targets[..], ack.agentID) == i;
        if targets[i].rolloutID != ack.rolloutID || targets[i].stageID != ack.stageID
           || targets[i].expectedVersionID != ack.versionID || targets[i].snapshotRevision != ack.snapshotRevision {
          return false;
        }
        if targets[i].status == TargetAcked {
          return false;
        }
        targets[i] := MarkAcked(targets[i], ack);
        return true;
      }
    }
    counted := false;
  }

  /** It counts exactly when a target that is still to answer is the one it names in all five respects. */
  lemma {:induction false} CountsIff(targets: seq<StageTarget>, ack: Ack)
    requires DistinctTargets(targets)
    ensures Counts(targets, ack) <==>
      exists i :: 0 <= i < |targets| && targets[i].status == TargetPending
        && targets[i].agentID == ack.agentID && targets[i].rolloutID == ack.rolloutID
        && targets[i].stageID == ack.stageID
        && targets[i].expectedVersionID == ack.versionID && targets[i].snapshotRevision == ack.snapshotRevision
  {
    var k := FirstOf(targets, ack.agentID);
    forall i | 0 <= i < |targets| && targets[i].agentID == ack.agentID ensures i == k {
    }
  }

  /** With one target per agent, an acknowledgement marks exactly the pending targets it matches. */
  lemma {:induction false} AckIsPointwise(targets: seq<StageTarget>, ack: Ack, i: nat)
    requires DistinctTargets(targets) && i < |targets|
    ensures Acknowledged(targets, ack)[i]
         == if Matches(targets[i], ack) && targets[i].status == TargetPending then MarkAcked(targets[i], ack)
            else targets[i]
  {
    var k := FirstOf(targets, ack.agentID);
    assert targets[i].agentID == ack.agentID ==> k == i;
  }

  /** Nothing but the acknowledgement mark of a target ever changes, and a mark stays. */
  predicate SameTarget(before: StageTarget, after: StageTarget) {
    && after.(status := before.status, ackedAt := before.ackedAt) == before
    && (before.status == TargetAcked ==> after == before)
  }

  predicate SameTargets(before: seq<StageTarget>, after: seq<StageTarget>) {
    |before| == |after| && forall i :: 0 <= i < |before| ==> SameTarget(before[i], after[i])
  }

  lemma {:induction false} AckKeepsTargets(targets: seq<StageTarget>, ack: Ack)
    ensures SameTargets(targets, Acknowledged(targets, ack))
  {
  }

  lemma {:induction false} SameTargetsCompose(a: seq<StageTarget>, b: seq<StageTarget>, c: seq<StageTarget>)
    requires SameTargets(a, b) && SameTargets(b, c)
    ensures SameTargets(a, c)
  {
    forall i | 0 <= i < |a| ensures SameTarget(a[i], c[i]) {
      assert SameTarget(a[i], b[i]) && SameTarget(b[i], c[i]);
    }
  }

  function ApplyAll(targets: seq<StageTarget>, acks: seq<Ack>): (after: seq<StageTarget>)
    ensures |after| == |targets|
  {
    if acks == [] then targets else Acknowledged(ApplyAll(targets, acks[..|acks| - 1]), acks[|acks| - 1])
  }

  function CountedIn(targets: seq<StageTarget>, acks: seq<Ack>): nat {
    if acks == [] then 0
    else CountedIn(targets, acks[..|acks| - 1])
         + if Counts(ApplyAll(targets, acks[..|acks| - 1]), acks[|acks| - 1]) then 1 else 0
  }

  lemma {:induction false} ApplyAllKeepsTargets(targets: seq<StageTarget>, acks: seq<Ack>)
    ensures SameTargets(targets, ApplyAll(targets, acks))
  {
    if acks != [] {
      var before := ApplyAll(targets, acks[..|acks| - 1]);
      ApplyAllKeepsTargets(targets, acks[..|acks| - 1]);
      AckKeepsTargets(before, acks[|acks| - 1]);
      SameTargetsCompose(targets, before, ApplyAll(targets, acks));
    }
  }

  predicate MatchedBy(t: StageTarget, acks: seq<Ack>) {
    exists k :: 0 <= k < |acks| && Matches(t, acks[k])
  }

  /**
   * However they are ordered, repeated or stale, acknowledgements leave acked exactly the targets one of them matches.
   */
  lemma {:induction false} AcksAreConfluent(targets: seq<StageTarget>, acks: seq<Ack>, i: nat)
    requires DistinctTargets(targets) && i < |targets|
    ensures ApplyAll(targets, acks)[i].status == TargetAcked
       <==> targets[i].status == TargetAcked || MatchedBy(targets[i], acks)
  {
    if acks != [] {
      var last := |acks| - 1;
      var before := ApplyAll(targets, acks[..last]);
      AcksAreConfluent(targets, acks[..last], i);
      ApplyAllKeepsTargets(targets, acks[..last]);
      SameTargetsStayDistinct(targets, before);
      assert SameTarget(targets[i], before[i]);
      AckIsPointwise(before, acks[last], i);
      assert forall k :: 0 <= k < last ==> acks[..last][k] == acks[k];
      if MatchedBy(targets[i], acks) {
        var k :| 0 <= k < |acks| && Matches(targets[i], acks[k]);
        assert k < last ==> Matches(targets[i], acks[..last][k]);
      }
    }
  }

  /** Two lists holding the same acknowledgements leave the same targets acked. */
  lemma {:induction false} AckOrderCannotMatter(targets: seq<StageTarget>, acks: seq<Ack>, acks': seq<Ack>, i: nat)
    requires DistinctTargets(targets) && i < |targets|
    requires forall a :: a in acks <==> a in acks'
    ensures ApplyAll(targets, acks)[i].status == ApplyAll(targets, acks')[i].status
  {
    AcksAreConfluent(targets, acks, i);
    AcksAreConfluent(targets, acks', i);
    if k :| 0 <= k < |acks| && Matches(targets[i], acks[k]) {
      assert acks[k] in acks';
    }
    if k :| 0 <= k < |acks'| && Matches(targets[i], acks'[k]) {
      assert acks'[k] in acks;
    }
  }

  lemma {:induction false} SameTargetsStayDistinct(before: seq<StageTarget>, after: seq<StageTarget>)
    requires SameTargets(before, after) && DistinctTargets(before)
    ensures DistinctTargets(after)
  {
    forall i, j | 0 <= i < j < |after| ensures after[i].agentID != after[j].agentID {
      assert SameTarget(before[i], after[i]) && SameTarget(before[j], after[j]);
    }
  }

  // ----- Coverage -----

  datatype Coverage = Coverage(total: nat, acked: nat, percentage: real)

  function AckedCount(targets: seq<StageTarget>): (n: nat)
    ensures n <= |targets|
  {
    if targets == [] then 0
    else AckedCount(targets[..|targets| - 1]) + if targets[|targets| - 1].status == TargetAcked then 1 else 0
  }

  function CoverageOf(targets: seq<StageTarget>): Coverage {
    var acked := AckedCount(targets);
    Coverage(|targets|, acked, if |targets| > 0 then acked as real / |targets| as real * 100.0 else 0.0)
  }

  method AcknowledgementCoverage(targets: seq<StageTarget>) returns (coverage: Coverage)
    ensures coverage == CoverageOf(targets)
  {
    var acked := 0;
    for i := 0 to |targets|
      invariant acked == AckedCount(targets[..i])
    {
      assert targets[..i + 1][..i] == targets[..i];
      if targets[i].status == TargetAcked {
        acked := acked + 1;
      }
    }
    assert targets[..|targets|] == targets;
    coverage := Coverage(|targets|, acked, 0.0);
    if |targets| > 0 {
      coverage := coverage.(percentage := acked as real / |targets| as real * 100.0);
    }
  }

  predicate CoverageReached(targets: seq<StageTarget>, requiredPercentage: real) {
    |targets| > 0 && CoverageOf(targets).percentage >= requiredPercentage
  }

  /** The positions of the acked targets. */
  function AckedPlaces(targets: seq<StageTarget>): set<int> {
    set i | 0 <= i < |targets| && targets[i].status == TargetAcked
  }

  lemma {:induction false} AckedCountIsACount(targets: seq<StageTarget>)
    ensures AckedCount(targets) == |AckedPlaces(targets)|
  {
    if targets != [] {
      var last := |targets| - 1;
      AckedCountIsACount(targets[..last]);
      assert AckedPlaces(targets)
        == AckedPlaces(targets[..last]) + if targets[last].status == TargetAcked then {last} else {};
    }
  }

  /** Coverage is reached when the acked share of a non-empty cohort is at least the required one. */
  lemma {:induction false} CoverageReachedIff(targets: seq<StageTarget>, required: real)
    ensures CoverageReached(targets, required) <==>
      targets != [] && |AckedPlaces(targets)| as real * 100.0 >= required * |targets| as real
  {
    AckedCountIsACount(targets);
    if targets != [] {
      ShareAgainst(AckedCount(targets) as real, |targets| as real, required);
    }
  }

  /** The percentage reported is the share of acked targets: all of them are 100 percent, and nobody asked is none. */
  lemma {:induction false} CoverageIsAShare(targets: seq<StageTarget>)
    ensures var coverage := CoverageOf(targets);
      && coverage.total == |targets| && coverage.acked == |AckedPlaces(targets)|
      && coverage.percentage * coverage.total as real == coverage.acked as real * 100.0
      && 0.0 <= coverage.percentage <= 100.0
      && (coverage.percentage == 100.0 <==>
            targets != [] && forall i :: 0 <= i < |targets| ==> targets[i].status == TargetAcked)
  {
    AckedCountIsACount(targets);
    AllAckedIff(targets);
    if targets != [] {
      ShareOf(AckedCount(targets) as real, |targets| as real);
    }
  }

  lemma {:induction false} ShareOf(acked: real, total: real)
    requires total > 0.0 && 0.0 <= acked <= total
    ensures acked / total * 100.0 * total == acked * 100.0
    ensures 0.0 <= acked / total * 100.0 <= 100.0
    ensures acked / total * 100.0 == 100.0 <==> acked == total
  {
    var share := acked / total * 100.0;
    ShareAgainst(acked, total, 0.0);
    ShareAgainst(acked, total, 100.0);
    assert share * total == acked * 100.0;
    assert share > 100.0 ==> (share - 100.0) * total > 0.0;
  }

  lemma {:induction false} AllAckedIff(targets: seq<StageTarget>)
    ensures AckedCount(targets) == |targets| <==> forall i :: 0 <= i < |targets| ==> targets[i].status == TargetAcked
  {
    if targets != [] {
      AllAckedIff(targets[..|targets| - 1]);
    }
  }

  lemma {:induction false} ShareAgainst(acked: real, total: real, required: real)
    requires total > 0.0
    ensures acked / total * 100.0 >= required <==> acked * 100.0 >= required * total
  {
    var share := acked / total * 100.0;
    assert share * total == acked * 100.0;
    if share >= required {
      assert (share - required) * total >= 0.0;
    } else {
      assert (required - share) * total > 0.0;
    }
  }

  lemma {:induction false} MarkingCountsOne(targets: seq<StageTarget>, k: nat, ack: Ack)
    requires k < |targets| && targets[k].status == TargetPending
    ensures AckedCount(targets[k := MarkAcked(targets[k], ack)]) == AckedCount(targets) + 1
    decreases |targets|
  {
    var last := |targets| - 1;
    var after := targets[k := MarkAcked(targets[k], ack)];
    if k == last {
      assert after[..last] == targets[..last];
    } else {
      MarkingCountsOne(targets[..last], k, ack);
      assert after[..last] == targets[..last][k := MarkAcked(targets[k], ack)];
    }
  }

  lemma {:induction false} AckCountsOnce(targets: seq<StageTarget>, ack: Ack)
    ensures AckedCount(Acknowledged(targets, ack)) == AckedCount(targets) + if Counts(targets, ack) then 1 else 0
  {
    if Counts(targets, ack) {
      MarkingCountsOne(targets, FirstOf(targets, ack.agentID), ack);
    }
  }

  /** The acknowledgements reported as counted are the growth in coverage. */
  lemma {:induction false} CountedIsGrowth(targets: seq<StageTarget>, acks: seq<Ack>)
    ensures AckedCount(ApplyAll(targets, acks)) == AckedCount(targets) + CountedIn(targets, acks)
  {
    if acks != [] {
      CountedIsGrowth(targets, acks[..|acks| - 1]);
      AckCountsOnce(ApplyAll(targets, acks[..|acks| - 1]), acks[|acks| - 1]);
    }
  }

  lemma {:induction false} ShareIsMonotone(a: nat, b: nat, n: nat)
    requires a <= b && n > 0
    ensures a as real / n as real * 100.0 <= b as real / n as real * 100.0
  {
    var x, y, z := a as real, b as real, n as real;
    assert x / z <= y / z;
  }

  /** An acknowledgement never takes coverage away. */
  lemma {:induction false} CoverageIsMonotone(targets: seq<StageTarget>, ack: Ack, required: real)
    requires CoverageReached(targets, required)
    ensures CoverageReached(Acknowledged(targets, ack), required)
  {
    AckCountsOnce(targets, ack);
    ShareIsMonotone(AckedCount(targets), AckedCount(Acknowledged(targets, ack)), |targets|);
  }

  // ----- promotion.go -----

  datatype StageDecision = DecisionWait | DecisionPromote | DecisionPause | DecisionRollback

  function EvaluateStageProgress(
      targets: seq<StageTarget>, required: real, startedAt: Time, now: Time, minimum: int, timeout: int): StageDecision
  {
    var elapsed := now - startedAt;
    var reached := CoverageReached(targets, required);
    if reached && elapsed >= minimum then DecisionPromote
    else if !reached && timeout > 0 && elapsed >= timeout then DecisionRollback
    else DecisionWait
  }
}
