/** Whatever is listed, and whatever is served, is valid by its own schema, in every run. */
module SchemaRuns {
  import opened Wrappers
  import opened Lifecycle
  import opened Cohorts
  import opened RolloutCase
  import opened World
  import opened SystemInvariant
  import opened SystemRuns
  import opened RegistryChecks
  import opened DataPlane
  import opened SnapshotTheorems
  import R = ConfigRegistry

  lemma {:induction false} RegistryStepKeepsSchemas(setup: Setup, s: Registry, step: Step)
    requires R.KeysAgree(s) && SchemasHold(setup.checks, s)
    ensures SchemasHold(setup.checks, RegistryStep(setup, s, step))
  {
    hide SchemasHold, R.CreateTenant, R.CreateDefinition, R.CreateVersion, R.SetStable, R.KeysAgree;
    match step
    case TenantStep(t) =>
      if R.CreateTenant(s, t).Ok? { TenantKeepsSchemas(setup.checks, s, t); }
    case DefinitionStep(input, id, now) =>
      if R.CreateDefinition(s, setup.checks, input, id, now).Ok? {
        DefinitionKeepsSchemas(setup.checks, s, input, id, now);
      }
    case VersionStep(input, id, now) =>
      if R.CreateVersion(s, setup.checks, input, id, now).Ok? {
        VersionKeepsSchemas(setup.checks, s, input, id, now);
      }
    case StableStep(tenantID, key, environment, number, now) =>
      if R.SetStable(s, tenantID, key, environment, number, now).Ok? {
        StateKeepsSchemas(setup.checks, s, tenantID, key, environment, number, now);
      }
    case _ =>
  }

  lemma {:induction false} SettleKeepsSchemas(checks: R.Checks, w: World, id: string, effect: Effect, now: R.Time)
    requires SchemasHold(checks, w.registry)
    ensures SchemasHold(checks, Settle(w, id, effect, now).registry)
  {
    hide SchemasHold, R.SetStable;
    var r := effect.next.r;
    if effect.completed && Completion(w.registry, r, now).Ok? {
      StateKeepsSchemas(checks, w.registry, r.tenantID, r.configKey, r.environment, r.candidateVersion, now);
    }
  }

  lemma {:induction false} StepKeepsSchemas(setup: Setup, w: World, step: Step)
    requires AllIndexed(w) && R.KeysAgree(w.registry) && SchemasHold(setup.checks, w.registry)
    ensures SchemasHold(setup.checks, Apply(setup, w, step).registry)
  {
    hide SchemasHold, R.KeysAgree, RegistryStep, CheckInput, NewCase, NextEffect, Settle, AllIndexed;
    match step
    case AckStep(ack, t) =>
      if ack.rolloutID in w.cases && !Terminal(w.cases[ack.rolloutID].r.state) {
        IndexedHere(w, ack.rolloutID);
        var e := NextEffect(setup.h, w.cases[ack.rolloutID], AckVisit(ack, w.agents, w.nextRevision, t));
        SettleKeepsSchemas(setup.checks, w, ack.rolloutID, e, t.clock.save);
      }
    case VisitStep(id, t) =>
      if id in w.cases && !Terminal(w.cases[id].r.state) {
        IndexedHere(w, id);
        var e := NextEffect(setup.h, w.cases[id], Visit(w.agents, w.nextRevision, t));
        SettleKeepsSchemas(setup.checks, w, id, e, t.clock.save);
      }
    case _ => RegistryStepKeepsSchemas(setup, w.registry, step);
  }

  lemma {:induction false} IndexedHere(w: World, id: string)
    requires AllIndexed(w) && id in w.cases
    ensures Indexed(w.cases[id])
  {
  }

  lemma {:induction false} KeysOfSound(h: Hash, s: Sys)
    requires SysInv(h, s)
    ensures R.KeysAgree(s.w.registry)
  {
  }

  /** In every run, every listed version is accepted by its definition's schema, and so is every default value. */
  lemma {:induction false} ValuesAreAccepted(setup: Setup, run: seq<Sys>, steps: seq<Step>, i: nat)
    requires IsRun(setup, run, steps) && i < |run|
    ensures SchemasHold(setup.checks, run[i].w.registry)
  {
    hide SysInv, Enabled, Apply, AllIndexed, R.KeysAgree;
    if i > 0 {
      ValuesAreAccepted(setup, run, steps, i - 1);
      ReachableStatesAreSound(setup, run, steps, i - 1);
      KeysOfSound(setup.h, run[i - 1]);
      assert run[i - 1 + 1] == Advance(setup, run[i - 1], steps[i - 1]);
      StepKeepsSchemas(setup, run[i - 1].w, steps[i - 1]);
    }
  }

  lemma {:induction false} ListedIsAccepted(k: R.Checks, s: Registry, id: string, n: int)
    requires SchemasHold(k, s) && 1 <= n <= |R.VersionsOf(s, id)|
    ensures id in s.definitions && k.validValue(s.definitions[id].schema, R.VersionsOf(s, id)[n - 1].value)
  {
    assert R.VersionsOf(s, id)[n - 1] in s.versions[id];
    assert Accepted(k, s.definitions[id], R.VersionsOf(s, id)[n - 1]);
  }

  /** In every run, the schema of its configuration accepts the value of every item of every snapshot. */
  lemma {:induction false} ServedValuesAreAccepted(
      setup: Setup, run: seq<Sys>, steps: seq<Step>, i: nat, checksum: Checksum, walked: seq<R.Definition>,
      agent: Agent, item: SnapshotItem)
    requires IsRun(setup, run, steps) && i < |run| && AllIndexed(run[i].w) && R.ValidEnvironment(agent.environment)
    requires item in Collected(run[i].w, checksum, walked, agent).0
    ensures item.configDefinitionID in run[i].w.registry.definitions
    ensures setup.checks.validValue(run[i].w.registry.definitions[item.configDefinitionID].schema, item.value)
  {
    hide IsRun, WorldInv, AllIndexed, Collected, EntryFor, SchemasHold;
    var w := run[i].w;
    ReachableStatesAreSound(setup, run, steps, i);
    ValuesAreAccepted(setup, run, steps, i);
    CollectedIsTheSnapshot(w, checksum, walked, agent);
    var d, e :| Shows(w, checksum, walked, agent, d, e) && e.item == item;
    EntryIsTheServedVersion(setup.h, w, checksum, d, agent);
    ListedIsAccepted(setup.checks, w.registry, d.id, item.version);
  }
}
