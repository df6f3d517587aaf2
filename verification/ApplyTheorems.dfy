/** What applying manifests guarantees: no unapplied references, and nothing left to do the second time. */
module ApplyTheorems {
  import opened Text
  import opened Wrappers
  import opened ConfigCode
  import opened ConfigApply
  import opened ConfigValidation
  import R = ConfigRegistry

  // ----- References -----

  ghost predicate Names(docs: seq<Manifest>, name: string) {
    exists i :: IsVersion(docs, i, name)
  }

  /** The version name a document refers to, if it refers to one when applied. */
  function RefOf(o: Options, m: Manifest): Option<string> {
    match m
    case StableManifest(_, _, _, _, ref) => Some(ref)
    case RolloutManifest(_, _, _, _, ref) => if o.includeRollouts then Some(ref) else None
    case _ => None
  }

  /** Some document refers to `ref`, and no version document is named so. */
  ghost predicate Dangling(o: Options, docs: seq<Manifest>, ref: string) {
    !Names(docs, ref) && exists i :: 0 <= i < |docs| && RefOf(o, docs[i]) == Some(ref)
  }

  lemma {:induction false} NamesSnoc(docs: seq<Manifest>, name: string)
    requires docs != []
    ensures Names(docs, name) <==>
      Names(docs[..|docs| - 1], name) || (docs[|docs| - 1].VersionManifest? && docs[|docs| - 1].name == name)
  {
    var front, last := docs[..|docs| - 1], docs[|docs| - 1];
    assert IsVersion(docs, |docs| - 1, name) <==> last.VersionManifest? && last.name == name;
    if Names(docs, name) {
      var i :| IsVersion(docs, i, name);
      assert i < |front| ==> IsVersion(front, i, name);
    }
    if Names(front, name) {
      var i :| IsVersion(front, i, name);
      assert IsVersion(docs, i, name);
    }
  }

  lemma {:induction false} OnlyVersionsResolve(o: Options, s: Registry, refs: Refs, m: Manifest, stamp: Stamp)
    requires ApplyOne(o, s, refs, m, stamp).Ok?
    ensures ApplyOne(o, s, refs, m, stamp).value.resolved.Some? <==> m.VersionManifest?
    ensures RefOf(o, m).Some? ==> RefOf(o, m).value in refs
  {
    hide R.CreateTenant, R.CreateDefinition, R.CreateVersion, R.SetStable, R.FindDefinition, R.FindVersions;
    hide R.EnvironmentStateOf;
  }

  lemma {:induction false} NothingNamed()
    ensures forall name :: !Names([], name)
  {
  }

  /** While it runs without error, ApplyDocuments has resolved exactly the version documents it passed. */
  lemma {:induction false} RefsAreTheNames(o: Options, s: Registry, docs: seq<Manifest>, stamps: nat -> Stamp)
    requires ApplyAll(o, s, docs, stamps).error.None?
    ensures forall name :: name in ApplyAll(o, s, docs, stamps).refs <==> Names(docs, name)
  {
    hide ApplyOne, Names;
    if docs == [] {
      NothingNamed();
    } else {
      var front, m := docs[..|docs| - 1], docs[|docs| - 1];
      RefsAreTheNames(o, s, front, stamps);
      var before := ApplyAll(o, s, front, stamps);
      OnlyVersionsResolve(o, before.registry, before.refs, m, stamps(|docs| - 1));
      forall name ensures name in ApplyAll(o, s, docs, stamps).refs <==> Names(docs, name) {
        NamesSnoc(docs, name);
      }
    }
  }

  lemma {:induction false} NamesOfPrefix(docs: seq<Manifest>, i: nat, name: string)
    requires i <= |docs| && Names(docs[..i], name)
    ensures Names(docs, name)
  {
    var k :| IsVersion(docs[..i], k, name);
    assert IsVersion(docs, k, name);
  }

  /** In kind order every version document comes before the documents that refer to versions. */
  lemma {:induction false} NamesComeFirst(o: Options, docs: seq<Manifest>, i: nat, name: string)
    requires SortedByKind(docs) && i < |docs| && RefOf(o, docs[i]).Some? && Names(docs, name)
    ensures Names(docs[..i], name)
  {
    var k :| IsVersion(docs, k, name);
    assert Rank(docs[k]) < Rank(docs[i]);
    assert IsVersion(docs[..i], k, name);
  }

  /** How a run of the applier stopped: at document `i`, with the error of that document. */
  lemma {:induction false} StoppedAt(o: Options, s: Registry, docs: seq<Manifest>, stamps: nat -> Stamp)
    returns (i: nat)
    requires ApplyAll(o, s, docs, stamps).error.Some?
    ensures i < |docs| && ApplyAll(o, s, docs[..i], stamps).error.None?
    ensures var before := ApplyAll(o, s, docs[..i], stamps);
      ApplyOne(o, before.registry, before.refs, docs[i], stamps(i)) == Err(ApplyAll(o, s, docs, stamps).error.value)
  {
    hide ApplyOne;
    var front := docs[..|docs| - 1];
    if ApplyAll(o, s, front, stamps).error.Some? {
      i := StoppedAt(o, s, front, stamps);
      assert front[..i] == docs[..i];
    } else {
      i := |docs| - 1;
    }
  }

  lemma {:induction false} MissingRef(o: Options, s: Registry, refs: Refs, m: Manifest, stamp: Stamp, ref: string)
    requires ApplyOne(o, s, refs, m, stamp) == Err(RefNotApplied(ref))
    ensures RefOf(o, m) == Some(ref) && ref !in refs
  {
  }

  /**
   * In kind order an unapplied reference is hit only when no version document has that name; so never for validated
   * ones.
   */
  lemma {:induction false} UnappliedRefsDangle(
      o: Options, s: Registry, docs: seq<Manifest>, stamps: nat -> Stamp, ref: string)
    requires SortedByKind(docs) && ApplyAll(o, s, docs, stamps).error == Some(RefNotApplied(ref))
    ensures Dangling(o, docs, ref)
  {
    hide ApplyOne, ApplyAll, Names;
    var i := StoppedAt(o, s, docs, stamps);
    var before := ApplyAll(o, s, docs[..i], stamps);
    MissingRef(o, before.registry, before.refs, docs[i], stamps(i), ref);
    RefsAreTheNames(o, s, docs[..i], stamps);
    if Names(docs, ref) {
      NamesComeFirst(o, docs, i, ref);
    }
  }

  /** And a dangling reference is never applied. */
  lemma {:induction false} DanglingRefsFail(
      o: Options, s: Registry, docs: seq<Manifest>, stamps: nat -> Stamp, ref: string)
    requires Dangling(o, docs, ref)
    ensures ApplyAll(o, s, docs, stamps).error.Some?
  {
    hide ApplyOne, ApplyAll, Names;
    if ApplyAll(o, s, docs, stamps).error.None? {
      var i :| 0 <= i < |docs| && RefOf(o, docs[i]) == Some(ref);
      SucceededAt(o, s, docs, stamps, i);
      var before := ApplyAll(o, s, docs[..i], stamps);
      OnlyVersionsResolve(o, before.registry, before.refs, docs[i], stamps(i));
      RefsAreTheNames(o, s, docs[..i], stamps);
      NamesOfPrefix(docs, i, ref);
      assert false;
    }
  }

  lemma {:induction false} SucceededAt(o: Options, s: Registry, docs: seq<Manifest>, stamps: nat -> Stamp, i: nat)
    requires i < |docs| && ApplyAll(o, s, docs, stamps).error.None?
    ensures ApplyAll(o, s, docs[..i], stamps).error.None?
    ensures var before := ApplyAll(o, s, docs[..i], stamps);
      ApplyOne(o, before.registry, before.refs, docs[i], stamps(i)).Ok?
  {
    hide ApplyOne;
    var front := docs[..|docs| - 1];
    if i < |front| {
      SucceededAt(o, s, front, stamps, i);
      assert front[..i] == docs[..i];
    }
  }

  // ----- Registry facts -----

  /** Version `i` of definition `id` has that version id. */
  predicate HasVersion(s: Registry, id: string, i: nat, versionID: string) {
    i < |R.VersionsOf(s, id)| && R.VersionsOf(s, id)[i].id == versionID
  }

  /** No two versions share an id, whatever their definitions. */
  ghost predicate UniqueVersions(s: Registry) {
    forall id, i: nat, id', i': nat, v :: HasVersion(s, id, i, v) && HasVersion(s, id', i', v) ==> id == id' && i == i'
  }

  /** Every resolved reference is a listed version of its own definition. */
  predicate RefsListed(s: Registry, refs: Refs) {
    forall n :: n in refs ==> Listed(s, refs[n])
  }

  predicate Listed(s: Registry, v: R.Version) {
    var versions := R.VersionsOf(s, v.configDefinitionID);
    1 <= v.versionNumber <= |versions| && versions[v.versionNumber - 1] == v
  }

  predicate GrowsAll(s: Registry, s': Registry) {
    R.Grows(s, s') && s.tenants.Keys <= s'.tenants.Keys
  }

  /** `s'` differs from `s` at most in environment states. */
  predicate SameBut(s: Registry, s': Registry) {
    s'.(states := s.states) == s
  }

  function Pointers(s: Registry): map<string, string> {
    map k | k in s.states :: s.states[k].stableVersionID
  }

  ghost predicate Sound(s: Registry, refs: Refs) {
    R.RegistryInv(s) && UniqueVersions(s) && RefsListed(s, refs)
  }

  /** What the server's generated ids are assumed to be. */
  ghost predicate FreshStamp(s: Registry, m: Manifest, stamp: Stamp) {
    && (m.DefinitionManifest? ==> NulFree(stamp.id))
    && (m.VersionManifest? ==> forall id, i: nat :: !HasVersion(s, id, i, stamp.id))
  }

  /** The pointer a stable-version document asks for. */
  function Setting(s: Registry, refs: Refs, m: Manifest): map<string, string> {
    match m
    case StableManifest(_, tenant, key, environment, ref) =>
      (if ref in refs && R.FindDefinition(s, tenant, key).Ok? then
         var id := R.FindDefinition(s, tenant, key).value.id;
         var n := refs[ref].versionNumber;
         if 1 <= n <= |R.VersionsOf(s, id)| then map[R.StateKey(id, environment) := R.VersionsOf(s, id)[n - 1].id]
         else map[]
       else map[])
    case _ => map[]
  }

  lemma {:induction false} GrowsAllComposes(a: Registry, b: Registry, c: Registry)
    requires GrowsAll(a, b) && GrowsAll(b, c)
    ensures GrowsAll(a, c)
  {
    R.GrowsIsTransitive(a, b, c);
  }

  lemma {:induction false} GrowsAllItself(s: Registry)
    ensures GrowsAll(s, s)
  {
    R.GrowsIsReflexive(s);
  }

  lemma {:induction false} SameVersions(s: Registry, s': Registry)
    requires forall id :: R.VersionsOf(s', id) == R.VersionsOf(s, id)
    ensures UniqueVersions(s) ==> UniqueVersions(s')
    ensures forall refs :: RefsListed(s, refs) ==> RefsListed(s', refs)
  {
    if UniqueVersions(s) {
      forall id, i: nat, id', i': nat, v | HasVersion(s', id, i, v) && HasVersion(s', id', i', v)
        ensures id == id' && i == i'
      {
        assert HasVersion(s, id, i, v) && HasVersion(s, id', i', v);
      }
    }
    forall refs | RefsListed(s, refs) ensures RefsListed(s', refs) {
      assert forall n :: n in refs ==> Listed(s, refs[n]) ==> Listed(s', refs[n]);
    }
  }

  /** Where a stored environment state sits. */
  lemma {:induction false} StateIsWhereItSays(s: Registry, id: string, environment: string)
    requires R.KeysAgree(s) && R.PointersExist(s) && id in s.definitions && R.StateKey(id, environment) in s.states
    ensures var e := s.states[R.StateKey(id, environment)];
      e.configDefinitionID == id && e.environment == environment && R.ValidEnvironment(environment)
      && R.NamesVersion(R.VersionsOf(s, id), e.stableVersionID)
  {
    var e := s.states[R.StateKey(id, environment)];
    JoinIsInjectiveOnTheLeft(id, environment, e.configDefinitionID, e.environment);
  }

  // ----- One document -----

  lemma {:induction false} TenantIsSound(o: Options, s: Registry, refs: Refs, m: Manifest, stamp: Stamp)
    requires Sound(s, refs) && m.TenantManifest? && ApplyTenant(s, m, stamp).Ok?
    ensures var s' := ApplyTenant(s, m, stamp).value.registry;
      Sound(s', refs) && GrowsAll(s, s') && s'.states == s.states
  {
    hide R.RegistryInv, R.Grows, UniqueVersions, RefsListed;
    R.GrowsIsReflexive(s);
    if m.name !in s.tenants {
      var t := R.Tenant(m.name, m.title, m.description, m.owner, stamp.now, stamp.now);
      R.TenantKeepsInv(s, t);
      SameVersions(s, R.AddTenant(s, t).value);
    }
  }

  lemma {:induction false} DefinitionIsSound(o: Options, s: Registry, refs: Refs, m: Manifest, stamp: Stamp)
    requires Sound(s, refs) && m.DefinitionManifest? && FreshStamp(s, m, stamp) && ApplyDefinition(o, s, m, stamp).Ok?
    ensures var s' := ApplyDefinition(o, s, m, stamp).value.registry;
      Sound(s', refs) && GrowsAll(s, s') && s'.states == s.states
  {
    hide R.RegistryInv, R.Grows, UniqueVersions, RefsListed, R.FindDefinition;
    R.GrowsIsReflexive(s);
    if R.FindDefinition(s, m.tenant, m.key).Err? {
      var d := R.Definition(stamp.id, m.tenant, m.key, m.description, m.schema, m.defaultValue, stamp.now, stamp.now);
      R.DefinitionKeepsInv(s, d);
      SameVersions(s, R.AddDefinition(s, d).value);
    }
  }

  lemma {:induction false} AddedVersionIsUnique(s: Registry, k: R.Checks, v: R.Version)
    requires UniqueVersions(s) && R.AddVersion(s, k, v).Ok? && forall id, i: nat :: !HasVersion(s, id, i, v.id)
    ensures UniqueVersions(R.AddVersion(s, k, v).value.0)
  {
    var s' := R.AddVersion(s, k, v).value.0;
    forall id, i: nat, w | HasVersion(s', id, i, w)
      ensures HasVersion(s, id, i, w) || (id == v.configDefinitionID && i == |R.VersionsOf(s, id)| && w == v.id)
    {
    }
  }

  lemma {:induction false} AddedVersionKeepsRefs(s: Registry, k: R.Checks, v: R.Version, refs: Refs, name: string)
    requires RefsListed(s, refs) && R.AddVersion(s, k, v).Ok?
    ensures RefsListed(R.AddVersion(s, k, v).value.0, refs[name := R.AddVersion(s, k, v).value.1])
  {
    var s' := R.AddVersion(s, k, v).value.0;
    forall n | n in refs ensures Listed(s', refs[n]) {
      assert Listed(s, refs[n]);
    }
  }

  lemma {:induction false} ListedByPosition(s: Registry, id: string, i: nat)
    requires R.VersionsNumbered(s) && i < |R.VersionsOf(s, id)|
    ensures Listed(s, R.VersionsOf(s, id)[i])
  {
    assert R.Numbered(id, R.VersionsOf(s, id));
  }

  lemma {:induction false} FreshNames(s: Registry, id: string, v: string)
    requires forall i: nat :: !HasVersion(s, id, i, v)
    ensures !R.NamesVersion(R.VersionsOf(s, id), v)
  {
    if R.NamesVersion(R.VersionsOf(s, id), v) {
      var i :| 0 <= i < |R.VersionsOf(s, id)| && R.VersionsOf(s, id)[i].id == v;
      assert HasVersion(s, id, i, v);
    }
  }

  lemma {:induction false} VersionIsSound(o: Options, s: Registry, refs: Refs, m: Manifest, stamp: Stamp)
    requires Sound(s, refs) && m.VersionManifest? && FreshStamp(s, m, stamp) && ApplyVersion(o, s, m, stamp).Ok?
    ensures var e := ApplyVersion(o, s, m, stamp).value;
      Sound(e.registry, Resolve(refs, m, e.resolved)) && GrowsAll(s, e.registry) && e.registry.states == s.states
  {
    hide R.NumbersAgree, R.KeysAgree, R.PointersExist, R.Grows, UniqueVersions, R.FindDefinition, Listed;
    var d := R.FindDefinition(s, m.tenant, m.key).value;
    var versions := R.VersionsOf(s, d.id);
    var i := FirstSame(o.same, versions, m.value);
    if i < |versions| {
      R.GrowsIsReflexive(s);
      ListedByPosition(s, d.id, i);
    } else {
      var v := R.Version(stamp.id, d.id, 0, m.value, m.sourceCommitSHA, m.createdBy, stamp.now);
      FreshNames(s, d.id, stamp.id);
      R.VersionKeepsInv(s, o.checks, v);
      AddedVersionIsUnique(s, o.checks, v);
      AddedVersionKeepsRefs(s, o.checks, v, refs, m.name);
    }
  }

  lemma {:induction false} StatesAlone(s: Registry, s': Registry, refs: Refs)
    requires SameBut(s, s') && UniqueVersions(s) && RefsListed(s, refs)
    ensures UniqueVersions(s') && RefsListed(s', refs) && GrowsAll(s, s')
  {
    SameVersions(s, s');
  }

  /** A pointer that already names the desired version names it by the desired number. */
  lemma {:induction false} SkippedSettingHolds(s: Registry, refs: Refs, m: Manifest, d: R.Definition)
    requires Sound(s, refs) && m.StableManifest? && m.versionRef in refs
    requires R.FindDefinition(s, m.tenant, m.key) == Ok(d)
    requires R.StateKey(d.id, m.environment) in s.states
    requires s.states[R.StateKey(d.id, m.environment)].stableVersionID == refs[m.versionRef].id
    ensures R.ValidEnvironment(m.environment)
    ensures Setting(s, refs, m) == map[R.StateKey(d.id, m.environment) := refs[m.versionRef].id]
  {
    hide R.NumbersAgree, R.VersionsNumbered, R.FindDefinition, UniqueVersions, R.KeysAgree, R.PointersExist;
    hide R.ValidEnvironment;
    FoundInKeys(s, m.tenant, m.key);
    StateIsWhereItSays(s, d.id, m.environment);
    assert Listed(s, refs[m.versionRef]);
    OneVersionPerID(s, d.id, refs[m.versionRef]);
    SettingInRange(s, refs, m, d);
  }

  lemma {:induction false} FoundInKeys(s: Registry, tenant: string, key: string)
    requires R.KeysAgree(s) && R.FindDefinition(s, tenant, key).Ok?
    ensures R.FindDefinition(s, tenant, key).value.id in s.definitions
  {
  }

  /** A listed version whose id some definition's versions name is that definition's. */
  lemma {:induction false} OneVersionPerID(s: Registry, id: string, v: R.Version)
    requires UniqueVersions(s) && Listed(s, v) && R.NamesVersion(R.VersionsOf(s, id), v.id)
    ensures v.configDefinitionID == id
  {
    var versions := R.VersionsOf(s, id);
    var i :| 0 <= i < |versions| && versions[i].id == v.id;
    assert HasVersion(s, id, i, v.id) && HasVersion(s, v.configDefinitionID, v.versionNumber - 1, v.id);
  }

  lemma {:induction false} PutPointers(s: Registry, e: R.EnvironmentState)
    ensures SameBut(s, R.PutState(s, e))
    ensures Pointers(R.PutState(s, e))
      == Pointers(s) + map[R.StateKey(e.configDefinitionID, e.environment) := e.stableVersionID]
  {
  }

  lemma {:induction false} SettingInRange(s: Registry, refs: Refs, m: Manifest, d: R.Definition)
    requires m.StableManifest? && m.versionRef in refs && R.FindDefinition(s, m.tenant, m.key) == Ok(d)
    requires 1 <= refs[m.versionRef].versionNumber <= |R.VersionsOf(s, d.id)|
    ensures Setting(s, refs, m)
      == map[R.StateKey(d.id, m.environment) := R.VersionsOf(s, d.id)[refs[m.versionRef].versionNumber - 1].id]
  {
  }

  /** The pointer write of a stable-version document, once it is due. */
  lemma {:induction false} SetSettingHolds(s: Registry, refs: Refs, m: Manifest, now: R.Time)
    requires R.RegistryInv(s) && m.StableManifest? && m.versionRef in refs
    requires R.SetStable(s, m.tenant, m.key, m.environment, refs[m.versionRef].versionNumber, now).Ok?
    ensures var s' := R.SetStable(s, m.tenant, m.key, m.environment, refs[m.versionRef].versionNumber, now).value.0;
      R.RegistryInv(s') && SameBut(s, s') && Pointers(s') == Pointers(s) + Setting(s, refs, m)
      && |Setting(s, refs, m)| == 1
      && R.ValidEnvironment(m.environment)
  {
    hide R.RegistryInv, R.SetStable, R.FindDefinition, R.PutState, R.Grows, Pointers, Setting, SameBut, R.StateKey;
    var n := refs[m.versionRef].versionNumber;
    R.SetStableNeedsAVersion(s, m.tenant, m.key, m.environment, n, now);
    R.SetStableSucceeds(s, m.tenant, m.key, m.environment, n, now);
    SettingInRange(s, refs, m, R.FindDefinition(s, m.tenant, m.key).value);
    PutPointers(s, R.SetStable(s, m.tenant, m.key, m.environment, n, now).value.1);
  }

  lemma {:induction false} StableIsSound(s: Registry, refs: Refs, m: Manifest, stamp: Stamp)
    requires Sound(s, refs) && m.StableManifest? && ApplyStable(s, refs, m, stamp).Ok?
    ensures var s' := ApplyStable(s, refs, m, stamp).value.registry;
      Sound(s', refs) && SameBut(s, s') && Pointers(s') == Pointers(s) + Setting(s, refs, m)
      && |Setting(s, refs, m)| == 1 && R.ValidEnvironment(m.environment)
  {
    hide R.RegistryInv, R.SetStable, UniqueVersions, RefsListed, Setting;
    var state := R.EnvironmentStateOf(s, m.tenant, m.key, m.environment);
    if state.Ok? && state.value.stableVersionID == refs[m.versionRef].id {
      SkippedSettingHolds(s, refs, m, R.FindDefinition(s, m.tenant, m.key).value);
      assert Pointers(s) + Setting(s, refs, m) == Pointers(s);
    } else {
      SetSettingHolds(s, refs, m, stamp.now);
    }
    StatesAlone(s, ApplyStable(s, refs, m, stamp).value.registry, refs);
  }

  /** Every document that applies keeps the registry sound, only adds, and sets the one pointer it asks for. */
  lemma {:induction false} DocumentIsSound(o: Options, s: Registry, refs: Refs, m: Manifest, stamp: Stamp)
    requires Sound(s, refs) && FreshStamp(s, m, stamp) && ApplyOne(o, s, refs, m, stamp).Ok?
    ensures var e := ApplyOne(o, s, refs, m, stamp).value;
      Sound(e.registry, Resolve(refs, m, e.resolved)) && GrowsAll(s, e.registry)
      && Pointers(e.registry) == Pointers(s) + Setting(s, refs, m)
  {
    hide Sound, FreshStamp, ApplyTenant, ApplyDefinition, ApplyVersion, ApplyStable;
    match m
    case TenantManifest(_, _, _, _) =>
      NoneResolved(o, s, refs, m, stamp);
      TenantIsSound(o, s, refs, m, stamp);
    case DefinitionManifest(_, _, _, _, _, _) =>
      NoneResolved(o, s, refs, m, stamp);
      DefinitionIsSound(o, s, refs, m, stamp);
    case VersionManifest(_, _, _, _, _, _) => VersionIsSound(o, s, refs, m, stamp);
    case StableManifest(_, _, _, _, _) =>
      NoneResolved(o, s, refs, m, stamp);
      StableIsSound(s, refs, m, stamp);
      SameButGrows(s, ApplyStable(s, refs, m, stamp).value.registry);
    case RolloutManifest(_, _, _, _, _) => GrowsAllItself(s);
  }

  lemma {:induction false} NoneResolved(o: Options, s: Registry, refs: Refs, m: Manifest, stamp: Stamp)
    requires ApplyOne(o, s, refs, m, stamp).Ok? && !m.VersionManifest?
    ensures Resolve(refs, m, ApplyOne(o, s, refs, m, stamp).value.resolved) == refs
  {
    OnlyVersionsResolve(o, s, refs, m, stamp);
  }

  lemma {:induction false} SameButGrows(s: Registry, s': Registry)
    requires SameBut(s, s')
    ensures GrowsAll(s, s')
  {
  }

  // ----- One document, applied again -----

  lemma {:induction false} FoundStays(s: Registry, s': Registry, tenant: string, key: string)
    requires R.KeysAgree(s) && R.FindDefinition(s, tenant, key).Ok? && R.Grows(s, s')
    ensures R.FindDefinition(s', tenant, key) == R.FindDefinition(s, tenant, key)
    ensures R.FindDefinition(s, tenant, key).value.id in s.definitions
  {
  }

  lemma {:induction false} TenantAgain(s: Registry, m: Manifest, stamp: Stamp, s': Registry, stamp': Stamp)
    requires m.TenantManifest? && ApplyTenant(s, m, stamp).Ok?
    requires ApplyTenant(s, m, stamp).value.registry.tenants.Keys <= s'.tenants.Keys
    ensures ApplyTenant(s', m, stamp') == Ok(Effect(s', None, Skipped))
  {
  }

  lemma {:induction false} DefinitionAgain(
      o: Options, s: Registry, m: Manifest, stamp: Stamp, s': Registry, stamp': Stamp)
    requires Reflexive(o) && m.DefinitionManifest? && ApplyDefinition(o, s, m, stamp).Ok?
    requires R.KeysAgree(ApplyDefinition(o, s, m, stamp).value.registry)
    requires R.Grows(ApplyDefinition(o, s, m, stamp).value.registry, s')
    ensures ApplyDefinition(o, s', m, stamp') == Ok(Effect(s', None, Skipped))
  {
    hide R.KeysAgree, R.Grows;
    AppliedDefinitionMatches(o, s, m, stamp);
    FoundStays(ApplyDefinition(o, s, m, stamp).value.registry, s', m.tenant, m.key);
  }

  /** Once applied, a definition document's definition is there, with its schema and its default. */
  lemma {:induction false} AppliedDefinitionMatches(o: Options, s: Registry, m: Manifest, stamp: Stamp)
    requires Reflexive(o) && m.DefinitionManifest? && ApplyDefinition(o, s, m, stamp).Ok?
    ensures var found := R.FindDefinition(ApplyDefinition(o, s, m, stamp).value.registry, m.tenant, m.key);
      found.Ok? && o.same(found.value.schema, m.schema)
      && (m.defaultValue != "" ==> o.same(found.value.defaultValue, m.defaultValue))
  {
  }

  lemma {:induction false} FirstSameStays(
      same: (Raw, Raw) -> bool, versions: seq<R.Version>, more: seq<R.Version>, value: Raw)
    requires versions <= more && FirstSame(same, versions, value) < |versions|
    ensures FirstSame(same, more, value) == FirstSame(same, versions, value)
  {
    var i, j := FirstSame(same, versions, value), FirstSame(same, more, value);
    assert more[i] == versions[i];
    forall k | 0 <= k < i ensures !same(more[k].value, value) {
      assert more[k] == versions[k];
    }
  }

  /** Once applied, a version document resolves to the first listed version with its value. */
  lemma {:induction false} AppliedVersionIsFirst(o: Options, s: Registry, m: Manifest, stamp: Stamp)
    requires Reflexive(o) && m.VersionManifest? && ApplyVersion(o, s, m, stamp).Ok? && R.KeysAgree(s)
    ensures R.FindDefinition(s, m.tenant, m.key).Ok?
    ensures var d := R.FindDefinition(s, m.tenant, m.key).value;
      var e := ApplyVersion(o, s, m, stamp).value;
      var versions := R.VersionsOf(e.registry, d.id);
      var i := FirstSame(o.same, versions, m.value);
      d.id in s.definitions && d.id in e.registry.definitions && i < |versions| && e.resolved == Some(versions[i])
      && (i < |R.VersionsOf(s, d.id)| ==> i == FirstSame(o.same, R.VersionsOf(s, d.id), m.value))
  {
    hide R.KeysAgree, R.DefinitionKey;
    assert R.FindDefinition(s, m.tenant, m.key).Ok?;
    var d := R.FindDefinition(s, m.tenant, m.key).value;
    var earlier := R.VersionsOf(s, d.id);
    var versions := R.VersionsOf(ApplyVersion(o, s, m, stamp).value.registry, d.id);
    if FirstSame(o.same, earlier, m.value) == |earlier| {
      assert versions[|earlier|].value == m.value && o.same(m.value, m.value);
      FirstSameIsNew(o.same, earlier, versions, m.value);
    }
  }

  lemma {:induction false} FirstSameIsNew(
      same: (Raw, Raw) -> bool, versions: seq<R.Version>, more: seq<R.Version>, value: Raw)
    requires versions <= more && FirstSame(same, versions, value) == |versions| < |more|
    requires same(more[|versions|].value, value)
    ensures FirstSame(same, more, value) == |versions|
  {
    forall k | 0 <= k < |versions| ensures !same(more[k].value, value) {
      assert more[k] == versions[k];
    }
  }

  lemma {:induction false} VersionAgain(o: Options, s: Registry, m: Manifest, stamp: Stamp, s': Registry, stamp': Stamp)
    requires Reflexive(o) && m.VersionManifest? && ApplyVersion(o, s, m, stamp).Ok? && R.KeysAgree(s)
    requires R.Grows(s, ApplyVersion(o, s, m, stamp).value.registry)
    requires R.Grows(ApplyVersion(o, s, m, stamp).value.registry, s')
    ensures ApplyVersion(o, s', m, stamp') == Ok(Effect(s', ApplyVersion(o, s, m, stamp).value.resolved, Skipped))
  {
    hide R.KeysAgree, R.FindDefinition, FirstSame;
    var e := ApplyVersion(o, s, m, stamp).value;
    AppliedVersionIsFirst(o, s, m, stamp);
    var d := R.FindDefinition(s, m.tenant, m.key).value;
    R.GrowsIsTransitive(s, e.registry, s');
    FoundStays(s, s', m.tenant, m.key);
    var versions := R.VersionsOf(e.registry, d.id);
    assert d.id in e.registry.versions && versions <= R.VersionsOf(s', d.id);
    FirstSameStays(o.same, versions, R.VersionsOf(s', d.id), m.value);
  }

  lemma {:induction false} SettingStays(s: Registry, refs: Refs, m: Manifest, s': Registry)
    requires m.StableManifest? && R.KeysAgree(s) && |Setting(s, refs, m)| == 1 && R.Grows(s, s')
    ensures Setting(s', refs, m) == Setting(s, refs, m)
    ensures var d := R.FindDefinition(s, m.tenant, m.key);
      d.Ok? && R.FindDefinition(s', m.tenant, m.key) == d && m.versionRef in refs
      && 1 <= refs[m.versionRef].versionNumber <= |R.VersionsOf(s', d.value.id)|
  {
    FoundStays(s, s', m.tenant, m.key);
    var id := R.FindDefinition(s, m.tenant, m.key).value.id;
    assert id in s.versions && R.VersionsOf(s, id) <= R.VersionsOf(s', id);
  }

  lemma {:induction false} StableAgain(s: Registry, refs: Refs, m: Manifest, stamp: Stamp, s': Registry, stamp': Stamp)
    requires Sound(s, refs) && m.StableManifest? && ApplyStable(s, refs, m, stamp).Ok? && R.Grows(s, s')
    requires Sound(s', refs)
    ensures ApplyStable(s', refs, m, stamp').Ok? && ApplyStable(s', refs, m, stamp').value.resolved == None
    ensures var e := ApplyStable(s', refs, m, stamp').value;
      SameBut(s', e.registry) && Sound(e.registry, refs) && Pointers(e.registry) == Pointers(s') + Setting(s, refs, m)
  {
    hide Setting, R.SetStable, UniqueVersions, RefsListed, R.RegistryInv, R.FindDefinition;
    StableIsSound(s, refs, m, stamp);
    KeysOfSound(s, refs);
    SettingStays(s, refs, m, s');
    R.SetStableNeedsAVersion(s', m.tenant, m.key, m.environment, refs[m.versionRef].versionNumber, stamp'.now);
    StableIsSound(s', refs, m, stamp');
  }

  lemma {:induction false} KeysOfSound(s: Registry, refs: Refs)
    requires Sound(s, refs)
    ensures R.KeysAgree(s)
  {
  }

  // ----- Whole applications -----

  /** The pointers a run asked for, later documents over earlier ones. */
  function Settings(o: Options, s: Registry, docs: seq<Manifest>, stamps: nat -> Stamp): map<string, string> {
    if docs == [] then map[]
    else
      var before := ApplyAll(o, s, docs[..|docs| - 1], stamps);
      Settings(o, s, docs[..|docs| - 1], stamps) + Setting(before.registry, before.refs, docs[|docs| - 1])
  }

  ghost predicate FreshStamps(o: Options, s: Registry, docs: seq<Manifest>, stamps: nat -> Stamp) {
    forall i :: 0 <= i < |docs| ==> FreshStamp(ApplyAll(o, s, docs[..i], stamps).registry, docs[i], stamps(i))
  }

  lemma {:induction false} FreshStampsOfFront(o: Options, s: Registry, docs: seq<Manifest>, stamps: nat -> Stamp)
    requires docs != [] && FreshStamps(o, s, docs, stamps)
    ensures FreshStamps(o, s, docs[..|docs| - 1], stamps)
    ensures FreshStamp(ApplyAll(o, s, docs[..|docs| - 1], stamps).registry, docs[|docs| - 1], stamps(|docs| - 1))
  {
    hide FreshStamp, ApplyAll;
    var front := docs[..|docs| - 1];
    forall i | 0 <= i < |front| ensures FreshStamp(ApplyAll(o, s, front[..i], stamps).registry, front[i], stamps(i)) {
      assert front[..i] == docs[..i];
    }
  }

  lemma {:induction false} SettingsCompose(p: map<string, string>, a: map<string, string>, b: map<string, string>)
    ensures p + a + b == p + (a + b)
    ensures p + a + a == p + a
  {
  }

  /** A successful application leaves exactly the pointers it found, overridden by those its documents ask for. */
  lemma {:induction false} ApplicationSetsPointers(o: Options, s: Registry, docs: seq<Manifest>, stamps: nat -> Stamp)
    requires Sound(s, map[]) && FreshStamps(o, s, docs, stamps) && ApplyAll(o, s, docs, stamps).error.None?
    ensures var done := ApplyAll(o, s, docs, stamps);
      Sound(done.registry, done.refs) && GrowsAll(s, done.registry)
      && Pointers(done.registry) == Pointers(s) + Settings(o, s, docs, stamps)
  {
    hide Sound, FreshStamps, FreshStamp, ApplyOne, Setting, GrowsAll, Resolve;
    if docs == [] {
      GrowsAllItself(s);
    } else {
      var front, m := docs[..|docs| - 1], docs[|docs| - 1];
      FreshStampsOfFront(o, s, docs, stamps);
      ApplicationSetsPointers(o, s, front, stamps);
      var before := ApplyAll(o, s, front, stamps);
      DocumentIsSound(o, before.registry, before.refs, m, stamps(|docs| - 1));
      GrowsAllComposes(s, before.registry, ApplyAll(o, s, docs, stamps).registry);
      SettingsCompose(Pointers(s), Settings(o, s, front, stamps), Setting(before.registry, before.refs, m));
    }
  }

  /** A document applied again, to a registry that kept growing: same reference, same pointer, nothing else. */
  lemma {:induction false} DocumentAgain(
      o: Options, s: Registry, refs: Refs, m: Manifest, stamp: Stamp, s': Registry, stamp': Stamp)
    requires Reflexive(o) && !o.includeRollouts && Sound(s, refs) && FreshStamp(s, m, stamp)
    requires ApplyOne(o, s, refs, m, stamp).Ok?
    requires Sound(s', refs) && GrowsAll(ApplyOne(o, s, refs, m, stamp).value.registry, s')
    ensures ApplyOne(o, s', refs, m, stamp').Ok?
    ensures var e, e' := ApplyOne(o, s, refs, m, stamp).value, ApplyOne(o, s', refs, m, stamp').value;
      && e'.resolved == e.resolved && SameBut(s', e'.registry)
      && R.RegistryInv(e'.registry) && UniqueVersions(e'.registry)
      && Pointers(e'.registry) == Pointers(s') + Setting(s, refs, m)
  {
    hide R.RegistryInv, UniqueVersions, RefsListed, FreshStamp, ApplyTenant, ApplyDefinition, ApplyVersion, ApplyStable;
    hide Reflexive, R.Grows;
    DocumentIsSound(o, s, refs, m, stamp);
    OnlyVersionsResolve(o, s, refs, m, stamp);
    KeysOfSound(s, refs);
    KeysOfSound(ApplyOne(o, s, refs, m, stamp).value.registry,
                Resolve(refs, m, ApplyOne(o, s, refs, m, stamp).value.resolved));
    match m
    case TenantManifest(_, _, _, _) => TenantAgain(s, m, stamp, s', stamp');
    case DefinitionManifest(_, _, _, _, _, _) => DefinitionAgain(o, s, m, stamp, s', stamp');
    case VersionManifest(_, _, _, _, _, _) => VersionAgain(o, s, m, stamp, s', stamp');
    case StableManifest(_, _, _, _, _) =>
      R.GrowsIsTransitive(s, ApplyOne(o, s, refs, m, stamp).value.registry, s');
      StableAgain(s, refs, m, stamp, s', stamp');
    case RolloutManifest(_, _, _, _, _) =>
  }

  lemma {:induction false} RefsListedGrows(s: Registry, refs: Refs, s': Registry)
    requires RefsListed(s, refs) && R.Grows(s, s')
    ensures RefsListed(s', refs)
  {
    forall n | n in refs ensures Listed(s', refs[n]) {
      var id := refs[n].configDefinitionID;
      assert Listed(s, refs[n]) && id in s.versions;
      assert R.VersionsOf(s, id) <= R.VersionsOf(s', id);
    }
  }

  /** The second run so far, against the first run so far. */
  ghost predicate Follows(first: Progress, settings: map<string, string>, s1: Registry, second: Progress) {
    && second.error.None? && second.refs == first.refs && SameBut(s1, second.registry)
    && R.RegistryInv(second.registry) && UniqueVersions(second.registry)
    && Pointers(second.registry) == Pointers(s1) + settings
  }

  lemma {:induction false} FollowsIsSound(
      first: Progress, settings: map<string, string>, s1: Registry, second: Progress)
    requires Follows(first, settings, s1, second) && RefsListed(first.registry, first.refs)
    requires GrowsAll(first.registry, s1)
    ensures Sound(second.registry, first.refs)
  {
    hide R.RegistryInv, UniqueVersions;
    RefsListedGrows(first.registry, first.refs, s1);
    SameVersions(s1, second.registry);
  }

  lemma {:induction false} GrowsToSameBut(s: Registry, s1: Registry, s2: Registry)
    requires GrowsAll(s, s1) && SameBut(s1, s2)
    ensures GrowsAll(s, s2)
  {
    SameButGrows(s1, s2);
    GrowsAllComposes(s, s1, s2);
  }

  lemma {:induction false} SameButComposes(a: Registry, b: Registry, c: Registry)
    requires SameBut(a, b) && SameBut(b, c)
    ensures SameBut(a, c)
  {
  }

  /** One more document of the second run. */
  lemma {:induction false} FollowsOn(
      o: Options, before: Progress, settings: map<string, string>, s1: Registry, again: Progress, m: Manifest,
      stamp: Stamp, stamp': Stamp)
    requires Reflexive(o) && !o.includeRollouts && before.error.None? && Sound(before.registry, before.refs)
    requires FreshStamp(before.registry, m, stamp) && ApplyOne(o, before.registry, before.refs, m, stamp).Ok?
    requires GrowsAll(ApplyOne(o, before.registry, before.refs, m, stamp).value.registry, s1)
    requires Follows(before, settings, s1, again)
    ensures ApplyOne(o, again.registry, before.refs, m, stamp').Ok?
    ensures var e := ApplyOne(o, before.registry, before.refs, m, stamp).value;
      var e' := ApplyOne(o, again.registry, before.refs, m, stamp').value;
      && e'.resolved == e.resolved && SameBut(s1, e'.registry) && R.RegistryInv(e'.registry)
      && UniqueVersions(e'.registry)
      && Pointers(e'.registry) == Pointers(s1) + (settings + Setting(before.registry, before.refs, m))
  {
    hide R.RegistryInv, UniqueVersions, FreshStamp, ApplyOne, Reflexive, GrowsAll, Setting, Pointers, RefsListed;
    var e := ApplyOne(o, before.registry, before.refs, m, stamp).value;
    DocumentIsSound(o, before.registry, before.refs, m, stamp);
    GrowsAllComposes(before.registry, e.registry, s1);
    FollowsIsSound(before, settings, s1, again);
    GrowsToSameBut(e.registry, s1, again.registry);
    DocumentAgain(o, before.registry, before.refs, m, stamp, again.registry, stamp');
    SameButComposes(s1, again.registry, ApplyOne(o, again.registry, before.refs, m, stamp').value.registry);
    SettingsCompose(Pointers(s1), settings, Setting(before.registry, before.refs, m));
  }

  lemma {:induction false} SecondRunFollows(
      o: Options, s: Registry, docs: seq<Manifest>, stamps: nat -> Stamp, s1: Registry, stamps': nat -> Stamp)
    requires Reflexive(o) && !o.includeRollouts
    requires Sound(s, map[]) && FreshStamps(o, s, docs, stamps) && ApplyAll(o, s, docs, stamps).error.None?
    requires GrowsAll(ApplyAll(o, s, docs, stamps).registry, s1) && R.RegistryInv(s1) && UniqueVersions(s1)
    ensures Follows(ApplyAll(o, s, docs, stamps), Settings(o, s, docs, stamps), s1, ApplyAll(o, s1, docs, stamps'))
  {
    hide R.RegistryInv, UniqueVersions, FreshStamp, FreshStamps, ApplyOne, Reflexive, GrowsAll, Setting, Sound, Resolve;
    if docs == [] {
      assert Pointers(s1) + map[] == Pointers(s1);
    } else {
      var front, m := docs[..|docs| - 1], docs[|docs| - 1];
      var before := ApplyAll(o, s, front, stamps);
      FreshStampsOfFront(o, s, docs, stamps);
      ApplicationSetsPointers(o, s, front, stamps);
      DocumentIsSound(o, before.registry, before.refs, m, stamps(|docs| - 1));
      GrowsAllComposes(before.registry, ApplyAll(o, s, docs, stamps).registry, s1);
      SecondRunFollows(o, s, front, stamps, s1, stamps');
      FollowsOn(o, before, Settings(o, s, front, stamps), s1, ApplyAll(o, s1, front, stamps'), m, stamps(|docs| - 1),
                stamps'(|docs| - 1));
    }
  }

  /** Equal apart from when the environment states were last written. */
  predicate SameButTimes(s: Registry, s': Registry) {
    && SameBut(s, s') && s'.states.Keys == s.states.Keys
    && forall k :: k in s.states ==> s'.states[k].(updatedAt := s.states[k].updatedAt) == s.states[k]
  }

  lemma {:induction false} PointerDeterminesState(s: Registry, s': Registry, k: string)
    requires R.PointersExist(s) && R.PointersExist(s') && k in s.states && k in s'.states
    requires s'.states[k].stableVersionID == s.states[k].stableVersionID
    ensures s'.states[k].(updatedAt := s.states[k].updatedAt) == s.states[k]
  {
    hide R.NamesVersion;
    var e, e' := s.states[k], s'.states[k];
    JoinIsInjectiveOnTheRight(e.configDefinitionID, e.environment, e'.configDefinitionID, e'.environment);
  }

  lemma {:induction false} SamePointersSameKeys(s: Registry, s': Registry)
    requires Pointers(s') == Pointers(s)
    ensures s'.states.Keys == s.states.Keys
    ensures forall k :: k in s.states ==> s'.states[k].stableVersionID == s.states[k].stableVersionID
  {
    assert s.states.Keys == Pointers(s).Keys && s'.states.Keys == Pointers(s').Keys;
    forall k | k in s.states ensures s'.states[k].stableVersionID == s.states[k].stableVersionID {
      assert Pointers(s)[k] == Pointers(s')[k];
    }
  }

  lemma {:induction false} PointersDetermineStates(s: Registry, s': Registry)
    requires R.PointersExist(s) && R.PointersExist(s') && SameBut(s, s') && Pointers(s') == Pointers(s)
    ensures SameButTimes(s, s')
  {
    hide R.PointersExist, Pointers;
    SamePointersSameKeys(s, s');
    forall k | k in s.states ensures s'.states[k].(updatedAt := s.states[k].updatedAt) == s.states[k] {
      PointerDeterminesState(s, s', k);
    }
  }

  lemma {:induction false} PointersExistInInv(s: Registry)
    requires R.RegistryInv(s)
    ensures R.PointersExist(s)
  {
  }

  /**
   * Applying converges. After an application succeeded, applying the same documents again succeeds, resolves the same
   * versions, and leaves the registry as it was but for the times pointers were last written.
   */
  lemma {:induction false} ApplyingAgainChangesNothing(
      o: Options, s: Registry, docs: seq<Manifest>, stamps: nat -> Stamp, stamps': nat -> Stamp)
    requires Reflexive(o) && !o.includeRollouts
    requires Sound(s, map[]) && FreshStamps(o, s, docs, stamps) && ApplyAll(o, s, docs, stamps).error.None?
    ensures var first := ApplyAll(o, s, docs, stamps);
      var again := ApplyAll(o, first.registry, docs, stamps');
      again.error.None? && again.refs == first.refs && SameButTimes(first.registry, again.registry)
  {
    hide FreshStamps, ApplyAll, Reflexive, GrowsAll, Settings, R.RegistryInv, UniqueVersions, RefsListed, Pointers;
    hide SameButTimes, SameBut;
    var first := ApplyAll(o, s, docs, stamps);
    ApplicationSetsPointers(o, s, docs, stamps);
    GrowsAllItself(first.registry);
    SecondRunFollows(o, s, docs, stamps, first.registry, stamps');
    var again := ApplyAll(o, first.registry, docs, stamps');
    SettingsCompose(Pointers(s), Settings(o, s, docs, stamps), Settings(o, s, docs, stamps));
    PointersExistInInv(first.registry);
    PointersExistInInv(again.registry);
    PointersDetermineStates(first.registry, again.registry);
  }

  // ----- Validated documents -----

  lemma {:induction false} OrderedKeepsNames(docs: seq<Manifest>, name: string)
    ensures Names(Ordered(docs), name) <==> Names(docs, name)
  {
    hide Ordered;
    OrderIsAStableSort(docs);
    if Names(docs, name) {
      var i :| IsVersion(docs, i, name);
      assert docs[i] in Ordered(docs);
      var k :| 0 <= k < |Ordered(docs)| && Ordered(docs)[k] == docs[i];
      assert IsVersion(Ordered(docs), k, name);
    }
    if Names(Ordered(docs), name) {
      var i :| IsVersion(Ordered(docs), i, name);
      assert Ordered(docs)[i] in docs;
      var k :| 0 <= k < |docs| && docs[k] == Ordered(docs)[i];
      assert IsVersion(docs, k, name);
    }
  }

  /** Documents whose references pass validation never stop on an unapplied reference. */
  lemma {:induction false} ValidatedRefsAreApplied(
      o: Options, s: Registry, docs: seq<Manifest>, stamps: nat -> Stamp, ref: string)
    requires AllRefsPass(docs)
    ensures ApplyAll(o, s, Ordered(docs), stamps).error != Some(RefNotApplied(ref))
  {
    hide ApplyAll, Ordered, AllRefsPass, Names;
    if ApplyAll(o, s, Ordered(docs), stamps).error == Some(RefNotApplied(ref)) {
      OrderIsAStableSort(docs);
      UnappliedRefsDangle(o, s, Ordered(docs), stamps, ref);
      var i :| 0 <= i < |Ordered(docs)| && RefOf(o, Ordered(docs)[i]) == Some(ref);
      assert Ordered(docs)[i] in docs;
      var k :| 0 <= k < |docs| && docs[k] == Ordered(docs)[i];
      var j := PassingRefsNameOneVersion(docs, k);
      VersionIsNamed(docs, j, ref);
      OrderedKeepsNames(docs, ref);
      assert false;
    }
  }

  lemma {:induction false} VersionIsNamed(docs: seq<Manifest>, j: nat, ref: string)
    requires IsVersion(docs, j, ref)
    ensures Names(docs, ref)
  {
  }

  // ----- The declared state -----

  /** The state key a stable-version document is about. */
  function KeyAt(s: Registry, m: Manifest): Option<string> {
    match m
    case StableManifest(_, tenant, key, environment, _) =>
      (match R.FindDefinition(s, tenant, key) case Ok(d) => Some(R.StateKey(d.id, environment)) case Err(_) => None)
    case _ => None
  }

  /** The version a resolved document stands for: of its configuration, with its value. */
  predicate Realizes(o: Options, s: Registry, m: Manifest, v: R.Version) {
    && m.VersionManifest? && R.FindDefinition(s, m.tenant, m.key).Ok?
    && v.configDefinitionID == R.FindDefinition(s, m.tenant, m.key).value.id && o.same(v.value, m.value)
  }

  lemma {:induction false} ListedVersionsAreOwn(s: Registry, id: string, i: nat)
    requires R.VersionsNumbered(s) && i < |R.VersionsOf(s, id)|
    ensures R.VersionsOf(s, id)[i].configDefinitionID == id
  {
    assert R.Numbered(id, R.VersionsOf(s, id));
  }

  lemma {:induction false} AppliedVersionRealizes(o: Options, s: Registry, refs: Refs, m: Manifest, stamp: Stamp)
    requires Reflexive(o) && Sound(s, refs) && m.VersionManifest? && FreshStamp(s, m, stamp)
    requires ApplyVersion(o, s, m, stamp).Ok?
    ensures var e := ApplyVersion(o, s, m, stamp).value; e.resolved.Some? && Realizes(o, s, m, e.resolved.value)
  {
    hide UniqueVersions, RefsListed, R.NumbersAgree, R.PointersExist, FreshStamp, Resolve;
    VersionIsSound(o, s, refs, m, stamp);
    AppliedVersionIsFirst(o, s, m, stamp);
    var e := ApplyVersion(o, s, m, stamp).value;
    var d := R.FindDefinition(s, m.tenant, m.key).value;
    ListedVersionsAreOwn(e.registry, d.id, FirstSame(o.same, R.VersionsOf(e.registry, d.id), m.value));
  }

  lemma {:induction false} RealizesStays(o: Options, s: Registry, m: Manifest, v: R.Version, s': Registry)
    requires R.KeysAgree(s) && Realizes(o, s, m, v) && R.Grows(s, s')
    ensures Realizes(o, s', m, v)
  {
    FoundStays(s, s', m.tenant, m.key);
  }

  /** After a run that succeeded, the reference of the only version document of its name realizes that document. */
  lemma {:induction false} RefRealizesItsDocument(
      o: Options, s: Registry, docs: seq<Manifest>, stamps: nat -> Stamp, j: nat)
    requires Reflexive(o) && Sound(s, map[]) && FreshStamps(o, s, docs, stamps)
    requires ApplyAll(o, s, docs, stamps).error.None?
    requires j < |docs| && docs[j].VersionManifest? && forall k :: IsVersion(docs, k, docs[j].name) ==> k == j
    ensures var done := ApplyAll(o, s, docs, stamps);
      docs[j].name in done.refs && Realizes(o, done.registry, docs[j], done.refs[docs[j].name])
  {
    hide Sound, FreshStamps, FreshStamp, ApplyOne, Reflexive, Realizes, R.Grows;
    var front, m := docs[..|docs| - 1], docs[|docs| - 1];
    var before := ApplyAll(o, s, front, stamps);
    FreshStampsOfFront(o, s, docs, stamps);
    ApplicationSetsPointers(o, s, front, stamps);
    DocumentIsSound(o, before.registry, before.refs, m, stamps(|docs| - 1));
    OnlyVersionsResolve(o, before.registry, before.refs, m, stamps(|docs| - 1));
    KeysOfSound(before.registry, before.refs);
    var done := ApplyAll(o, s, docs, stamps);
    if j == |front| {
      VersionEffect(o, before.registry, before.refs, m, stamps(|docs| - 1));
      AppliedVersionRealizes(o, before.registry, before.refs, m, stamps(|docs| - 1));
      RealizesStays(o, before.registry, m, done.refs[m.name], done.registry);
    } else {
      forall k | IsVersion(front, k, front[j].name) ensures k == j {
        assert IsVersion(docs, k, docs[j].name);
      }
      RefRealizesItsDocument(o, s, front, stamps, j);
      assert !IsVersion(docs, |docs| - 1, docs[j].name);
      RealizesStays(o, before.registry, docs[j], before.refs[docs[j].name], done.registry);
    }
  }

  lemma {:induction false} VersionEffect(o: Options, s: Registry, refs: Refs, m: Manifest, stamp: Stamp)
    requires m.VersionManifest?
    ensures ApplyOne(o, s, refs, m, stamp) == ApplyVersion(o, s, m, stamp)
  {
  }

  lemma {:induction false} SettingIsAtItsKey(s: Registry, refs: Refs, m: Manifest)
    ensures forall k :: k in Setting(s, refs, m) ==> KeyAt(s, m) == Some(k)
    ensures m.StableManifest? && |Setting(s, refs, m)| == 1 ==>
      KeyAt(s, m).Some? && KeyAt(s, m).value in Setting(s, refs, m)
  {
  }

  lemma {:induction false} KeyStays(s: Registry, m: Manifest, s': Registry)
    requires R.KeysAgree(s) && R.Grows(s, s') && KeyAt(s, m).Some?
    ensures KeyAt(s', m) == KeyAt(s, m)
  {
    FoundStays(s, s', m.tenant, m.key);
  }

  /** No document from `i` on asks for the pointer at `key`. */
  predicate LeftAlone(s: Registry, docs: seq<Manifest>, i: nat, key: string) {
    forall k :: i <= k < |docs| ==> KeyAt(s, docs[k]) != Some(key)
  }

  lemma {:induction false} OtherKeysAreLeft(s: Registry, refs: Refs, m: Manifest, s': Registry, key: string)
    requires R.KeysAgree(s) && GrowsAll(s, s') && KeyAt(s', m) != Some(key)
    ensures key !in Setting(s, refs, m)
  {
    SettingIsAtItsKey(s, refs, m);
    if KeyAt(s, m).Some? {
      KeyStays(s, m, s');
    }
  }

  lemma {:induction false} LeftAloneBefore(s: Registry, docs: seq<Manifest>, i: nat, s': Registry, key: string)
    requires R.KeysAgree(s) && GrowsAll(s, s') && docs != [] && LeftAlone(s', docs, i, key)
    ensures LeftAlone(s, docs[..|docs| - 1], i, key)
  {
    var front := docs[..|docs| - 1];
    forall k | i <= k < |front| ensures KeyAt(s, front[k]) != Some(key) {
      assert KeyAt(s', docs[k]) != Some(key);
      if KeyAt(s, docs[k]).Some? {
        KeyStays(s, docs[k], s');
      }
    }
  }

  /** The pointer a document asked for stands if no later document asks for the same one. */
  lemma {:induction false} LastSettingStands(
      o: Options, s: Registry, docs: seq<Manifest>, stamps: nat -> Stamp, i: nat, key: string)
    requires Sound(s, map[]) && FreshStamps(o, s, docs, stamps) && ApplyAll(o, s, docs, stamps).error.None?
    requires i <= |docs| && LeftAlone(ApplyAll(o, s, docs, stamps).registry, docs, i, key)
    ensures key in Settings(o, s, docs[..i], stamps) ==>
      key in Settings(o, s, docs, stamps) && Settings(o, s, docs, stamps)[key] == Settings(o, s, docs[..i], stamps)[key]
    decreases |docs|
  {
    hide Sound, FreshStamps, FreshStamp, ApplyOne, Setting, GrowsAll, KeyAt, ApplyAll;
    if i == |docs| {
      assert docs[..i] == docs;
    } else {
      var front := docs[..|docs| - 1];
      var before, done := ApplyAll(o, s, front, stamps), ApplyAll(o, s, docs, stamps);
      PrefixRuns(o, s, docs, stamps, |front|);
      ApplicationSetsPointers(o, s, front, stamps);
      KeysOfSound(before.registry, before.refs);
      LeftAloneBefore(before.registry, docs, i, done.registry, key);
      LastSettingStands(o, s, front, stamps, i, key);
      assert front[..i] == docs[..i];
      OtherKeysAreLeft(before.registry, before.refs, docs[|docs| - 1], done.registry, key);
    }
  }

  lemma {:induction false} PrefixRuns(o: Options, s: Registry, docs: seq<Manifest>, stamps: nat -> Stamp, i: nat)
    requires Sound(s, map[]) && FreshStamps(o, s, docs, stamps) && ApplyAll(o, s, docs, stamps).error.None?
    requires i <= |docs|
    ensures FreshStamps(o, s, docs[..i], stamps) && ApplyAll(o, s, docs[..i], stamps).error.None?
    ensures GrowsAll(ApplyAll(o, s, docs[..i], stamps).registry, ApplyAll(o, s, docs, stamps).registry)
    decreases |docs|
  {
    hide Sound, FreshStamps, FreshStamp, ApplyOne, GrowsAll;
    if i == |docs| {
      assert docs[..i] == docs;
      GrowsAllItself(ApplyAll(o, s, docs, stamps).registry);
    } else {
      var front := docs[..|docs| - 1];
      FreshStampsOfFront(o, s, docs, stamps);
      PrefixRuns(o, s, front, stamps, i);
      assert front[..i] == docs[..i];
      ApplicationSetsPointers(o, s, front, stamps);
      var before := ApplyAll(o, s, front, stamps);
      DocumentIsSound(o, before.registry, before.refs, docs[|docs| - 1], stamps(|docs| - 1));
      GrowsAllComposes(ApplyAll(o, s, docs[..i], stamps).registry, before.registry,
                       ApplyAll(o, s, docs, stamps).registry);
    }
  }

  /** A stable-version document sets its pointer to the version its reference stands for. */
  lemma {:induction false} SettingIsTheReference(
      o: Options, s: Registry, refs: Refs, m: Manifest, stamp: Stamp, v: Manifest)
    requires Sound(s, refs) && m.StableManifest? && ApplyStable(s, refs, m, stamp).Ok? && m.versionRef in refs
    requires Realizes(o, s, v, refs[m.versionRef]) && v.tenant == m.tenant && v.key == m.key
    ensures KeyAt(s, m).Some? && KeyAt(s, m).value in Setting(s, refs, m)
    ensures Setting(s, refs, m)[KeyAt(s, m).value] == refs[m.versionRef].id
  {
    hide R.RegistryInv, UniqueVersions, R.SetStable, R.FindDefinition;
    StableIsSound(s, refs, m, stamp);
    assert Listed(s, refs[m.versionRef]);
  }

  /**
   * The declared state holds. After a run of validated documents that succeeded, the pointer of a stable-version
   * document that no later one overrides names a version holding the value of the version document it refers to.
   */
  lemma {:induction false} DeclaredPointerHolds(
      o: Options, s: Registry, docs: seq<Manifest>, stamps: nat -> Stamp, i: nat, j: nat)
    requires Reflexive(o) && Sound(s, map[]) && FreshStamps(o, s, docs, stamps)
    requires ApplyAll(o, s, docs, stamps).error.None?
    requires j < i < |docs| && docs[i].StableManifest? && docs[j].VersionManifest? && docs[j].name == docs[i].versionRef
    requires docs[j].tenant == docs[i].tenant && docs[j].key == docs[i].key
      && forall k :: IsVersion(docs, k, docs[j].name) ==> k == j
    requires var key := KeyAt(ApplyAll(o, s, docs, stamps).registry, docs[i]);
      key.Some? ==> LeftAlone(ApplyAll(o, s, docs, stamps).registry, docs, i + 1, key.value)
    ensures var done := ApplyAll(o, s, docs, stamps);
      var key := KeyAt(done.registry, docs[i]);
      key.Some? && key.value in Pointers(done.registry) && docs[j].name in done.refs
      && Pointers(done.registry)[key.value] == done.refs[docs[j].name].id
      && Realizes(o, done.registry, docs[j], done.refs[docs[j].name])
  {
    hide Sound, FreshStamps, FreshStamp, ApplyOne, Reflexive, Realizes, GrowsAll, KeyAt, Setting, Pointers, LeftAlone;
    hide ApplyStable;
    var done, before := ApplyAll(o, s, docs, stamps), ApplyAll(o, s, docs[..i], stamps);
    PrefixRuns(o, s, docs, stamps, i);
    PrefixRuns(o, s, docs, stamps, i + 1);
    assert docs[..i + 1][..i] == docs[..i];
    ApplicationSetsPointers(o, s, docs, stamps);
    ApplicationSetsPointers(o, s, docs[..i], stamps);
    PrefixNamesOnce(docs, i, j);
    RefRealizesItsDocument(o, s, docs[..i], stamps, j);
    RefRealizesItsDocument(o, s, docs, stamps, j);
    RefStays(o, s, docs, stamps, i, docs[j].name);
    StableEffect(o, before.registry, before.refs, docs[i], stamps(i));
    SettingIsTheReference(o, before.registry, before.refs, docs[i], stamps(i), docs[j]);
    KeysOfSound(before.registry, before.refs);
    KeyStaysAll(before.registry, docs[i], done.registry);
    LastSettingStands(o, s, docs, stamps, i + 1, KeyAt(done.registry, docs[i]).value);
  }

  lemma {:induction false} KeyStaysAll(s: Registry, m: Manifest, s': Registry)
    requires R.KeysAgree(s) && GrowsAll(s, s') && KeyAt(s, m).Some?
    ensures KeyAt(s', m) == KeyAt(s, m)
  {
    KeyStays(s, m, s');
  }

  lemma {:induction false} StableEffect(o: Options, s: Registry, refs: Refs, m: Manifest, stamp: Stamp)
    requires m.StableManifest?
    ensures ApplyOne(o, s, refs, m, stamp) == ApplyStable(s, refs, m, stamp)
  {
  }

  lemma {:induction false} PrefixNamesOnce(docs: seq<Manifest>, i: nat, j: nat)
    requires j < i <= |docs| && docs[j].VersionManifest? && forall k :: IsVersion(docs, k, docs[j].name) ==> k == j
    ensures docs[..i][j] == docs[j] && forall k :: IsVersion(docs[..i], k, docs[j].name) ==> k == j
  {
    forall k | IsVersion(docs[..i], k, docs[j].name) ensures k == j {
      assert IsVersion(docs, k, docs[j].name);
    }
  }

  /** A reference is not resolved anew while no later version document has its name. */
  lemma {:induction false} RefStays(
      o: Options, s: Registry, docs: seq<Manifest>, stamps: nat -> Stamp, i: nat, name: string)
    requires i <= |docs| && ApplyAll(o, s, docs, stamps).error.None? && name in ApplyAll(o, s, docs[..i], stamps).refs
    requires forall k :: i <= k < |docs| ==> !IsVersion(docs, k, name)
    ensures name in ApplyAll(o, s, docs, stamps).refs
    ensures ApplyAll(o, s, docs, stamps).refs[name] == ApplyAll(o, s, docs[..i], stamps).refs[name]
    decreases |docs|
  {
    hide ApplyOne;
    if i == |docs| {
      assert docs[..i] == docs;
    } else {
      var front, m := docs[..|docs| - 1], docs[|docs| - 1];
      var before := ApplyAll(o, s, front, stamps);
      assert front[..i] == docs[..i];
      assert forall k :: i <= k < |front| ==> (IsVersion(front, k, name) ==> IsVersion(docs, k, name));
      RefStays(o, s, front, stamps, i, name);
      OnlyVersionsResolve(o, before.registry, before.refs, m, stamps(|docs| - 1));
      assert !IsVersion(docs, |docs| - 1, name);
    }
  }
}
