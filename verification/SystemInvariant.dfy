/** What every operation keeps true of the whole control plane, and how its parts agree. */
module SystemInvariant {
  import opened Text
  import opened Lifecycle
  import opened Guardrails
  import opened Cohorts
  import opened RolloutCase
  import opened CaseInvariant
  import opened CaseSteps
  import opened World
  import R = ConfigRegistry

  /** The stable version id of a configuration in an environment, or "". */
  function Pointer(s: Registry, key: string): string {
    if key in s.states then s.states[key].stableVersionID else ""
  }

  /** A rollout's record names things the registry holds. */
  predicate Linked(s: Registry, r: Rollout) {
    && r.configDefinitionID in s.definitions
    && R.FindDefinition(s, r.tenantID, r.configKey).Ok?
    && R.FindDefinition(s, r.tenantID, r.configKey).value.id == r.configDefinitionID
    && R.ValidEnvironment(r.environment)
    && 1 <= r.candidateVersion <= |R.VersionsOf(s, r.configDefinitionID)|
    && R.VersionsOf(s, r.configDefinitionID)[r.candidateVersion - 1].id == r.candidateVersionID
    && R.NamesVersion(R.VersionsOf(s, r.configDefinitionID), r.stableVersionID)
  }

  predicate Files(h: Hash, w: World) {
    forall id :: id in w.cases ==>
      Inv(h, w.cases[id]) && w.cases[id].r.id == id && id != "" && NulFree(id)
  }

  predicate AgentsKnown(w: World) {
    && DistinctAgents(w.agents)
    && (forall i :: 0 <= i < |w.agents| ==> w.agents[i].id != "")
    && (forall id :: id in w.cases ==> InReach(w.cases[id], w.agents))
  }

  /** The active index is exactly the non-terminal rollouts, by key. */
  predicate ActiveAgrees(w: World) {
    && (forall k :: k in w.active ==>
          w.active[k] in w.cases && KeyOf(w.cases[w.active[k]].r) == k && !Terminal(w.cases[w.active[k]].r.state))
    && (forall id :: id in w.cases && !Terminal(w.cases[id].r.state) ==>
          KeyOf(w.cases[id].r) in w.active && w.active[KeyOf(w.cases[id].r)] == id)
  }

  predicate RegistryLinks(w: World) {
    forall id :: id in w.cases ==> Linked(w.registry, w.cases[id].r)
  }

  /** While a rollout runs, its configuration's pointer is the rollout's stable version. */
  predicate PointersHeld(w: World) {
    forall id :: id in w.cases && !Terminal(w.cases[id].r.state) ==>
      Pointer(w.registry, KeyOf(w.cases[id].r)) == w.cases[id].r.stableVersionID
  }

  /** Target `k` of cohort `i` of rollout `id` exists and carries revision `n`. */
  predicate Carries(w: World, id: string, i: nat, k: nat, n: int) {
    id in w.cases && i < |w.cases[id].cohorts| && k < |w.cases[id].cohorts[i]|
    && w.cases[id].cohorts[i][k].snapshotRevision == n
  }

  /** Revisions are handed out once: equal revisions mean the same activation. */
  ghost predicate RevisionsUnique(w: World) {
    && w.nextRevision >= 1
    && (forall id: string, i: nat, k: nat, n: int :: Carries(w, id, i, k, n) ==> 1 <= n < w.nextRevision)
    && (forall id: string, i: nat, k: nat, id': string, i': nat, k': nat, n: int ::
          Carries(w, id, i, k, n) && Carries(w, id', i', k', n) ==> id == id' && i == i')
  }

  ghost predicate WorldInv(h: Hash, w: World) {
    && Files(h, w) && AgentsKnown(w) && ActiveAgrees(w) && R.RegistryInv(w.registry)
    && RegistryLinks(w) && PointersHeld(w) && RevisionsUnique(w)
  }

  // ----- Settling one visit -----

  /** The effect of an admissible step on rollout `id`, driven by this world. */
  ghost predicate StepOn(h: Hash, w: World, id: string, e: Event, effect: Effect) {
    && id in w.cases && Inv(h, w.cases[id]) && !Terminal(w.cases[id].r.state)
    && Admissible(w.cases[id], e) && Drives(e, w.agents, w.nextRevision)
    && effect == NextEffect(h, w.cases[id], e)
  }

  lemma {:induction false} StepKeepsKey(h: Hash, w: World, id: string, e: Event, effect: Effect)
    requires StepOn(h, w, id, e, effect)
    ensures Inv(h, effect.next) && Extends(w.cases[id], effect.next)
    ensures KeyOf(effect.next.r) == KeyOf(w.cases[id].r) && effect.next.r.id == w.cases[id].r.id
  {
    StepKeepsInv(h, w.cases[id], e);
  }

  lemma {:induction false} SettleKeepsFiles(h: Hash, w: World, id: string, e: Event, effect: Effect, now: Time)
    requires Files(h, w) && StepOn(h, w, id, e, effect)
    ensures Files(h, Settle(w, id, effect, now))
  {
    hide Inv, Extends, NextEffect, Admissible;
    StepKeepsKey(h, w, id, e, effect);
  }

  lemma {:induction false} SettleKeepsAgents(h: Hash, w: World, id: string, e: Event, effect: Effect, now: Time)
    requires AgentsKnown(w) && StepOn(h, w, id, e, effect)
    ensures AgentsKnown(Settle(w, id, effect, now))
  {
    hide Inv, NextEffect, Admissible, Registered, Sourced;
    StepKeepsKey(h, w, id, e, effect);
    assert Delivering(effect.next) ==> Delivering(w.cases[id]);
    StepIsSourced(h, w.cases[id], e, w.agents, w.nextRevision);
    SourcedStaysRegistered(w.cases[id], effect, w.nextRevision, w.agents);
  }

  lemma {:induction false} ActiveFollows(w: World, w': World, id: string, r: Rollout)
    requires ActiveAgrees(w) && id in w.cases && !Terminal(w.cases[id].r.state) && KeyOf(r) == KeyOf(w.cases[id].r)
    requires w'.cases.Keys == w.cases.Keys && w'.cases[id].r == r
    requires forall j :: j in w.cases && j != id ==> w'.cases[j].r == w.cases[j].r
    requires w'.active == if Terminal(r.state) then w.active - {KeyOf(r)} else w.active[KeyOf(r) := id]
    ensures ActiveAgrees(w')
  {
    hide KeyOf;
    forall k | k in w'.active
      ensures w'.active[k] in w'.cases && KeyOf(w'.cases[w'.active[k]].r) == k
      ensures !Terminal(w'.cases[w'.active[k]].r.state)
    {
      assert k != KeyOf(r) ==> k in w.active && w'.active[k] == w.active[k] && w.active[k] != id;
    }
    forall j | j in w'.cases && !Terminal(w'.cases[j].r.state)
      ensures KeyOf(w'.cases[j].r) in w'.active && w'.active[KeyOf(w'.cases[j].r)] == j
    {
      assert j != id ==> !Terminal(w.cases[j].r.state) && KeyOf(w.cases[j].r) != KeyOf(r);
    }
  }

  lemma {:induction false} SettleKeepsActive(h: Hash, w: World, id: string, e: Event, effect: Effect, now: Time)
    requires ActiveAgrees(w) && StepOn(h, w, id, e, effect)
    ensures ActiveAgrees(Settle(w, id, effect, now))
  {
    hide Inv, Extends, NextEffect, Admissible;
    StepKeepsKey(h, w, id, e, effect);
    ActiveFollows(w, Settle(w, id, effect, now), id, effect.next.r);
  }

  lemma {:induction false} SettleKeepsRevisions(h: Hash, w: World, id: string, e: Event, effect: Effect, now: Time)
    requires RevisionsUnique(w) && AgentsKnown(w) && StepOn(h, w, id, e, effect)
    ensures RevisionsUnique(Settle(w, id, effect, now))
  {
    StepIsSourced(h, w.cases[id], e, w.agents, w.nextRevision);
    RevisionsFollowSources(w, id, effect, Settle(w, id, effect, now));
  }

  /** A target of the settled world is an old one or belongs to the one fresh activation. */
  lemma {:induction false} SourceOf(w: World, id: string, effect: Effect, w': World, j: string, i: nat, k: nat, n: int)
    requires id in w.cases && Sourced(w.cases[id], effect, w.nextRevision, w.agents)
    requires w'.cases == w.cases[id := effect.next] && Carries(w', j, i, k, n)
    ensures Carries(w, j, i, k, n)
         || (effect.activated && j == id && i == Position(effect.next) && n == w.nextRevision)
  {
    if j == id {
      var c, c' := w.cases[id], effect.next;
      if i < |c.cohorts| && SameTargets(c.cohorts[i], c'.cohorts[i]) {
        assert SameTarget(c.cohorts[i][k], c'.cohorts[i][k]);
      }
    }
  }

  lemma {:induction false} RevisionsFollowSources(w: World, id: string, effect: Effect, w': World)
    requires RevisionsUnique(w) && id in w.cases && Sourced(w.cases[id], effect, w.nextRevision, w.agents)
    requires w'.cases == w.cases[id := effect.next]
    requires w'.nextRevision == if effect.activated then w.nextRevision + 1 else w.nextRevision
    ensures RevisionsUnique(w')
  {
    forall j: string, i: nat, k: nat, n: int | Carries(w', j, i, k, n) ensures 1 <= n < w'.nextRevision {
      SourceOf(w, id, effect, w', j, i, k, n);
    }
    forall j: string, i: nat, k: nat, j': string, i': nat, k': nat, n: int
      | Carries(w', j, i, k, n) && Carries(w', j', i', k', n)
      ensures j == j' && i == i'
    {
      SourceOf(w, id, effect, w', j, i, k, n);
      SourceOf(w, id, effect, w', j', i', k', n);
    }
  }

  // ----- Completion -----

  lemma {:induction false} LinkedGrows(s: Registry, s': Registry, r: Rollout)
    requires R.KeysAgree(s) && Linked(s, r) && R.Grows(s, s')
    ensures Linked(s', r)
  {
    var versions, versions' := R.VersionsOf(s, r.configDefinitionID), R.VersionsOf(s', r.configDefinitionID);
    assert r.configDefinitionID in s.versions;
    assert versions <= versions';
    var i :| 0 <= i < |versions| && versions[i].id == r.stableVersionID;
    assert versions'[i].id == r.stableVersionID;
    assert R.FindDefinition(s', r.tenantID, r.configKey) == R.FindDefinition(s, r.tenantID, r.configKey);
  }

  lemma {:induction false} CompletionSetsThePointer(s: Registry, r: Rollout, now: Time)
    requires R.RegistryInv(s) && Linked(s, r)
    ensures Completion(s, r, now).Ok?
    ensures var s' := Completion(s, r, now).value.0;
      R.RegistryInv(s') && R.Grows(s, s')
      && (forall k :: Pointer(s', k) == if k == KeyOf(r) then r.candidateVersionID else Pointer(s, k))
  {
    hide R.RegistryInv, R.Grows, R.NamesVersion, R.SetStable, R.FindDefinition;
    R.SetStableSucceeds(s, r.tenantID, r.configKey, r.environment, r.candidateVersion, now);
  }

  lemma {:induction false} LinkedIgnoresProgress(s: Registry, r: Rollout, r': Rollout)
    requires Linked(s, r) && SameIdentity(r, r')
    ensures Linked(s, r')
  {
  }

  lemma {:induction false} LinksFollow(w: World, w': World)
    requires R.KeysAgree(w.registry) && RegistryLinks(w) && R.Grows(w.registry, w'.registry)
    requires w'.cases.Keys == w.cases.Keys
    requires forall id :: id in w.cases ==> SameIdentity(w.cases[id].r, w'.cases[id].r)
    ensures RegistryLinks(w')
  {
    forall id | id in w'.cases ensures Linked(w'.registry, w'.cases[id].r) {
      LinkedGrows(w.registry, w'.registry, w.cases[id].r);
      LinkedIgnoresProgress(w'.registry, w.cases[id].r, w'.cases[id].r);
    }
  }

  function RegistryAfter(s: Registry, completed: bool, r: Rollout, now: Time): Registry {
    if completed && Completion(s, r, now).Ok? then Completion(s, r, now).value.0 else s
  }

  lemma {:induction false} RegistryMoves(s: Registry, completed: bool, r: Rollout, now: Time)
    requires R.RegistryInv(s) && Linked(s, r)
    ensures R.RegistryInv(RegistryAfter(s, completed, r, now)) && R.Grows(s, RegistryAfter(s, completed, r, now))
    ensures PointersMove(s, RegistryAfter(s, completed, r, now), completed, r)
  {
    if completed {
      CompletionSetsThePointer(s, r, now);
    }
  }

  lemma {:induction false} SettleMovesRegistry(w: World, id: string, effect: Effect, now: Time)
    requires R.RegistryInv(w.registry) && id in w.cases && Linked(w.registry, w.cases[id].r)
    requires SameIdentity(w.cases[id].r, effect.next.r)
    ensures R.RegistryInv(Settle(w, id, effect, now).registry)
    ensures R.Grows(w.registry, Settle(w, id, effect, now).registry)
    ensures PointersMove(w.registry, Settle(w, id, effect, now).registry, effect.completed, effect.next.r)
  {
    LinkedIgnoresProgress(w.registry, w.cases[id].r, effect.next.r);
    RegistryMoves(w.registry, effect.completed, effect.next.r, now);
    assert Settle(w, id, effect, now).registry == RegistryAfter(w.registry, effect.completed, effect.next.r, now);
  }

  lemma {:induction false} SettleKeepsLinks(w: World, id: string, effect: Effect, now: Time)
    requires R.KeysAgree(w.registry) && RegistryLinks(w) && id in w.cases && SameIdentity(w.cases[id].r, effect.next.r)
    requires R.Grows(w.registry, Settle(w, id, effect, now).registry)
    ensures RegistryLinks(Settle(w, id, effect, now))
  {
    hide Linked;
    LinksFollow(w, Settle(w, id, effect, now));
  }

  lemma {:induction false} SettleKeepsPointers(w: World, id: string, effect: Effect, now: Time)
    requires ActiveAgrees(w) && PointersHeld(w)
    requires id in w.cases && SameIdentity(w.cases[id].r, effect.next.r) && !Terminal(w.cases[id].r.state)
    requires effect.completed ==> Terminal(effect.next.r.state)
    requires PointersMove(w.registry, Settle(w, id, effect, now).registry, effect.completed, effect.next.r)
    ensures PointersHeld(Settle(w, id, effect, now))
  {
    var w' := Settle(w, id, effect, now);
    SamePointersMove(w.registry, w'.registry, effect.completed, w.cases[id].r, effect.next.r);
    PointersFollow(w, w', id, effect.completed);
  }

  lemma {:induction false} SamePointersMove(s: Registry, s': Registry, completed: bool, r: Rollout, r': Rollout)
    requires SameIdentity(r, r') && PointersMove(s, s', completed, r')
    ensures PointersMove(s, s', completed, r)
  {
  }

  /** Completing `r` moves its own pointer to the candidate; nothing else moves one. */
  ghost predicate PointersMove(s: Registry, s': Registry, completed: bool, r: Rollout) {
    forall k :: Pointer(s', k) == if completed && k == KeyOf(r) then r.candidateVersionID else Pointer(s, k)
  }

  lemma {:induction false} ProgressCompletesIffCompleted(h: Hash, c: Case, agents: seq<Agent>, revision: int, t: Tick)
    requires Indexed(c) && (Delivering(c) || c.r.state == RollingBack)
    ensures Progress(h, c, agents, revision, t).completed <==>
      Progress(h, c, agents, revision, t).next.r.state == Completed
  {
  }

  /** Only the promotion of the last stage completes a rollout. */
  lemma {:induction false} CompletesIffCompleted(h: Hash, c: Case, e: Event)
    requires Shaped(c) && !Terminal(c.r.state)
    ensures NextEffect(h, c, e).completed <==> NextEffect(h, c, e).next.r.state == Completed
  {
    match e
    case Idle =>
    case Visit(agents, revision, t) => ProgressCompletesIffCompleted(h, c, agents, revision, t);
    case AckVisit(ack, agents, revision, t) => ProgressCompletesIffCompleted(h, AckCase(c, ack), agents, revision, t);
  }

  lemma {:induction false} PointersFollow(w: World, w': World, id: string, completed: bool)
    requires ActiveAgrees(w) && PointersHeld(w) && id in w.cases && !Terminal(w.cases[id].r.state)
    requires w'.cases.Keys == w.cases.Keys && SameIdentity(w.cases[id].r, w'.cases[id].r)
    requires forall j :: j in w.cases && j != id ==> w'.cases[j].r == w.cases[j].r
    requires completed ==> Terminal(w'.cases[id].r.state)
    requires PointersMove(w.registry, w'.registry, completed, w.cases[id].r)
    ensures PointersHeld(w')
  {
    forall j | j in w'.cases && !Terminal(w'.cases[j].r.state)
      ensures Pointer(w'.registry, KeyOf(w'.cases[j].r)) == w'.cases[j].r.stableVersionID
    {
      assert !Terminal(w.cases[j].r.state);
      assert j != id && completed ==> KeyOf(w.cases[j].r) != KeyOf(w.cases[id].r);
    }
  }

  lemma {:induction false} StepKeepsIdentity(h: Hash, w: World, id: string, e: Event, effect: Effect)
    requires StepOn(h, w, id, e, effect)
    ensures SameIdentity(w.cases[id].r, effect.next.r) && (effect.completed <==> effect.next.r.state == Completed)
  {
    StepKeepsKey(h, w, id, e, effect);
    CompletesIffCompleted(h, w.cases[id], e);
  }

  lemma {:induction false} SettleKeepsStore(h: Hash, w: World, id: string, e: Event, effect: Effect, now: Time)
    requires Files(h, w) && AgentsKnown(w) && ActiveAgrees(w) && RevisionsUnique(w)
    requires StepOn(h, w, id, e, effect)
    ensures Files(h, Settle(w, id, effect, now)) && AgentsKnown(Settle(w, id, effect, now))
    ensures ActiveAgrees(Settle(w, id, effect, now)) && RevisionsUnique(Settle(w, id, effect, now))
  {
    assert Files(h, Settle(w, id, effect, now)) by { SettleKeepsFiles(h, w, id, e, effect, now); }
    assert AgentsKnown(Settle(w, id, effect, now)) by { SettleKeepsAgents(h, w, id, e, effect, now); }
    assert ActiveAgrees(Settle(w, id, effect, now)) by { SettleKeepsActive(h, w, id, e, effect, now); }
    SettleKeepsRevisions(h, w, id, e, effect, now);
  }

  /** Any visit or acknowledgement keeps every part of the system invariant. */
  lemma {:induction false} SettleKeepsWorldInv(h: Hash, w: World, id: string, e: Event, effect: Effect, now: Time)
    requires WorldInv(h, w) && StepOn(h, w, id, e, effect)
    ensures WorldInv(h, Settle(w, id, effect, now))
  {
    SettleKeepsStore(h, w, id, e, effect, now);
    StepKeepsIdentity(h, w, id, e, effect);
    SettleMovesRegistry(w, id, effect, now);
    SettleKeepsLinks(w, id, effect, now);
    SettleKeepsPointers(w, id, effect, now);
  }
}
