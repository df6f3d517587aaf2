/** What one manifest asks of the registry, and that a successful application leaves all that its manifests ask. */
module ApplyOutcome {
  import opened Text
  import opened Wrappers
  import opened ConfigCode
  import opened ConfigApply
  import opened ApplyTheorems
  import opened ConfigValidation
  import opened RegistryChecks
  import R = ConfigRegistry

  // ----- One document -----

  /** An existing tenant is left as it is, whatever the document says of it; a missing one is created as it says. */
  lemma {:induction false} TenantOutcome(s: Registry, m: Manifest, stamp: Stamp)
    requires m.TenantManifest?
    ensures var r := ApplyTenant(s, m, stamp);
      && (r.Ok? <==> m.name in s.tenants || (!Blank(m.name) && !Blank(m.title)))
      && (m.name in s.tenants ==> r == Ok(Effect(s, None, Skipped)))
      && (r.Ok? && m.name !in s.tenants ==>
            && r.value.status == Applied && r.value.resolved == None && m.name in r.value.registry.tenants
            && var t := r.value.registry.tenants[m.name];
               && t.id == m.name && t.name == m.title && t.description == m.description && t.owner == m.owner
               && r.value.registry == s.(tenants := s.tenants[m.name := t]))
  {
    hide Blank, R.CreateTenant;
    TenantCreatedIff(s, R.Tenant(m.name, m.title, m.description, m.owner, stamp.now, stamp.now));
  }

  /** An existing definition must agree in schema and in any default asked for; a missing one is created as asked. */
  lemma {:induction false} DefinitionOutcome(o: Options, s: Registry, m: Manifest, stamp: Stamp)
    requires m.DefinitionManifest?
    ensures var r, found := ApplyDefinition(o, s, m, stamp), R.FindDefinition(s, m.tenant, m.key);
      && (found.Ok? ==>
            && (r.Ok? <==> o.same(found.value.schema, m.schema)
                           && (m.defaultValue == "" || o.same(found.value.defaultValue, m.defaultValue)))
            && (r.Ok? ==> r.value == Effect(s, None, Skipped)))
      && (found.Err? ==>
            && (r.Ok? <==>
                  && m.tenant in s.tenants && WellTyped(o.checks, m.schema, m.defaultValue)
                  && !Blank(stamp.id) && !Blank(m.tenant) && !Blank(m.key)
                  && stamp.id !in s.definitions && Join(m.tenant, m.key) !in s.definitionsByKey)
            && (r.Ok? ==>
                  && r.value.status == Applied && r.value.resolved == None
                  && stamp.id in r.value.registry.definitions
                  && var d := r.value.registry.definitions[stamp.id];
                     && d.tenantID == m.tenant && d.key == m.key && d.description == m.description
                     && d.schema == m.schema && d.defaultValue == m.defaultValue))
  {
    hide Blank, R.CreateDefinition, WellTyped, R.FindDefinition, Join;
    DefinitionCreatedIff(s, o.checks, R.DefinitionInput(m.tenant, m.key, m.description, m.schema, m.defaultValue),
                         stamp.id, stamp.now);
  }

  /**
   * A version document takes the first version with an equal value, and otherwise adds one that says where it comes
   * from; it fails exactly when there is neither such a version nor a valid new one.
   */
  lemma {:induction false} VersionOutcome(o: Options, s: Registry, m: Manifest, stamp: Stamp)
    requires m.VersionManifest? && R.KeysAgree(s) && R.FindDefinition(s, m.tenant, m.key).Ok?
    ensures var r, d := ApplyVersion(o, s, m, stamp), R.FindDefinition(s, m.tenant, m.key).value;
      var versions := R.VersionsOf(s, d.id);
      && (r.Ok? <==>
            || (exists v :: v in versions && o.same(v.value, m.value))
            || (o.checks.validValue(d.schema, m.value) && !Blank(stamp.id) && m.value != ""
                && o.checks.validJson(m.value)))
      && (r.Ok? ==> r.value.resolved.Some?)
      && (r.Ok? && r.value.status == Skipped ==>
            r.value.registry == s && (exists i: nat :: i < |versions| && TakesFirst(o, r.value, versions, i, m.value)))
      && (r.Ok? && r.value.status != Skipped ==>
            && r.value.status == Applied && (forall v :: v in versions ==> !o.same(v.value, m.value))
            && var v := r.value.resolved.value;
               && v.value == m.value && v.sourceCommitSHA == m.sourceCommitSHA && v.createdBy == m.createdBy
               && v.configDefinitionID == d.id && R.VersionsOf(r.value.registry, d.id) == versions + [v]
               && v.versionNumber == |versions| + 1)
  {
    hide R.CreateVersion, Blank, FirstSame;
    VersionCreatedIff(s, o.checks, R.VersionInput(m.tenant, m.key, m.value, m.sourceCommitSHA, m.createdBy), stamp.id,
                      stamp.now);
    var d := R.FindDefinition(s, m.tenant, m.key).value;
    var versions := R.VersionsOf(s, d.id);
    var i := FirstSame(o.same, versions, m.value);
    if i < |versions| {
      assert versions[i] in versions && TakesFirst(o, ApplyVersion(o, s, m, stamp).value, versions, i, m.value);
    } else {
      assert forall v :: v in versions ==> !o.same(v.value, m.value);
    }
  }

  /** The reference is to the version at `i`, which has that value, and none before it has. */
  predicate TakesFirst(o: Options, e: Effect, versions: seq<R.Version>, i: nat, value: Raw)
    requires i < |versions|
  {
    && e.resolved == Some(versions[i]) && o.same(versions[i].value, value)
    && forall j :: 0 <= j < i ==> !o.same(versions[j].value, value)
  }

  /**
   * A stable-version document succeeds exactly when its reference was resolved before, its configuration and
   * environment are valid, and the configuration has a version of the resolved number; it is skipped exactly when the
   * pointer already names the resolved version.
   */
  lemma {:induction false} StableOutcome(s: Registry, refs: Refs, m: Manifest, stamp: Stamp)
    requires Sound(s, refs) && m.StableManifest?
    ensures var r, found := ApplyStable(s, refs, m, stamp), R.FindDefinition(s, m.tenant, m.key);
      && (r.Ok? <==>
            && m.versionRef in refs && found.Ok? && R.ValidEnvironment(m.environment)
            && 1 <= refs[m.versionRef].versionNumber <= |R.VersionsOf(s, found.value.id)|)
      && (m.versionRef !in refs <==> r == Err(RefNotApplied(m.versionRef)))
      && (r.Ok? ==>
            var key := R.StateKey(found.value.id, m.environment);
            r.value.status == Skipped <==> key in s.states && s.states[key].stableVersionID == refs[m.versionRef].id)
  {
    hide R.RegistryInv, UniqueVersions, RefsListed, R.SetStable, R.FindDefinition, R.ValidEnvironment;
    if m.versionRef in refs {
      R.SetStableNeedsAVersion(s, m.tenant, m.key, m.environment, refs[m.versionRef].versionNumber, stamp.now);
    }
    if ApplyStable(s, refs, m, stamp).Ok? {
      StableIsSound(s, refs, m, stamp);
    }
  }

  // ----- All documents -----

  /** What the document asks for is there. Which version a pointer names is said by `DeclaredPointerHolds`. */
  ghost predicate Holds(o: Options, s: Registry, m: Manifest) {
    match m
    case TenantManifest(name, _, _, _) => name in s.tenants
    case DefinitionManifest(_, tenant, key, _, schema, defaultValue) =>
      var found := R.FindDefinition(s, tenant, key);
      && found.Ok? && o.same(found.value.schema, schema)
      && (defaultValue == "" || o.same(found.value.defaultValue, defaultValue))
    case VersionManifest(_, tenant, key, value, _, _) =>
      var found := R.FindDefinition(s, tenant, key);
      found.Ok? && exists v :: v in R.VersionsOf(s, found.value.id) && o.same(v.value, value)
    case StableManifest(_, _, _, _, _) => KeyAt(s, m).Some? && KeyAt(s, m).value in s.states
    case RolloutManifest(_, _, _, _, _) => true
    case UnknownManifest(_) => false
  }

  lemma {:induction false} DocumentHolds(o: Options, s: Registry, refs: Refs, m: Manifest, stamp: Stamp)
    requires Reflexive(o) && Sound(s, refs) && FreshStamp(s, m, stamp) && ApplyOne(o, s, refs, m, stamp).Ok?
    ensures Holds(o, ApplyOne(o, s, refs, m, stamp).value.registry, m)
  {
    hide Sound, FreshStamp, ApplyTenant, ApplyDefinition, ApplyVersion, ApplyStable, Reflexive, R.FindDefinition;
    hide R.RegistryInv, UniqueVersions, RefsListed;
    KeysOfSound(s, refs);
    match m
    case TenantManifest(_, _, _, _) => TenantOutcome(s, m, stamp);
    case DefinitionManifest(_, _, _, _, _, _) => AppliedDefinitionMatches(o, s, m, stamp);
    case VersionManifest(_, _, _, _, _, _) =>
      AppliedVersionIsFirst(o, s, m, stamp);
      VersionIsSound(o, s, refs, m, stamp);
      var e := ApplyVersion(o, s, m, stamp).value;
      FoundStays(s, e.registry, m.tenant, m.key);
      var versions := R.VersionsOf(e.registry, R.FindDefinition(s, m.tenant, m.key).value.id);
      assert versions[FirstSame(o.same, versions, m.value)] in versions;
    case StableManifest(_, _, _, _, _) => AppliedPointerIsThere(s, refs, m, stamp);
    case RolloutManifest(_, _, _, _, _) =>
  }

  lemma {:induction false} AppliedPointerIsThere(s: Registry, refs: Refs, m: Manifest, stamp: Stamp)
    requires Sound(s, refs) && m.StableManifest? && ApplyStable(s, refs, m, stamp).Ok?
    ensures var s' := ApplyStable(s, refs, m, stamp).value.registry;
      KeyAt(s', m).Some? && KeyAt(s', m).value in s'.states
  {
    hide R.RegistryInv, UniqueVersions, RefsListed, R.SetStable, R.FindDefinition;
    StableIsSound(s, refs, m, stamp);
    hide Sound, Pointers, Setting, ApplyStable;
    var s' := ApplyStable(s, refs, m, stamp).value.registry;
    SettingIsAtItsKey(s, refs, m);
    KeysOfSound(s, refs);
    SameButGrows(s, s');
    KeyStays(s, m, s');
    PointersKeepTheirKeys(s, Setting(s, refs, m), s');
  }

  lemma {:induction false} HoldsStays(o: Options, s: Registry, m: Manifest, s': Registry)
    requires R.KeysAgree(s) && Holds(o, s, m) && GrowsAll(s, s') && s.states.Keys <= s'.states.Keys
    ensures Holds(o, s', m)
  {
    if m.DefinitionManifest? || m.VersionManifest? || m.StableManifest? {
      FoundStays(s, s', m.tenant, m.key);
    }
    if m.VersionManifest? {
      var id := R.FindDefinition(s, m.tenant, m.key).value.id;
      assert R.VersionsOf(s, id) <= R.VersionsOf(s', id);
    }
  }

  /**
   * After an application that succeeded, everything its documents ask for is in the registry: the tenants, definitions
   * with the schemas and defaults asked for, versions with the values, and a stable version wherever one was asked for.
   */
  lemma {:induction false} AppliedDocumentsHold(o: Options, s: Registry, docs: seq<Manifest>, stamps: nat -> Stamp)
    requires Reflexive(o) && Sound(s, map[]) && FreshStamps(o, s, docs, stamps)
    requires ApplyAll(o, s, docs, stamps).error.None?
    ensures forall i :: 0 <= i < |docs| ==> Holds(o, ApplyAll(o, s, docs, stamps).registry, docs[i])
  {
    hide Sound, FreshStamps, FreshStamp, ApplyOne, Reflexive, Holds, GrowsAll, Resolve, Setting;
    if docs != [] {
      var front, m := docs[..|docs| - 1], docs[|docs| - 1];
      var before, done := ApplyAll(o, s, front, stamps), ApplyAll(o, s, docs, stamps);
      FreshStampsOfFront(o, s, docs, stamps);
      AppliedDocumentsHold(o, s, front, stamps);
      ApplicationSetsPointers(o, s, front, stamps);
      KeysOfSound(before.registry, before.refs);
      DocumentIsSound(o, before.registry, before.refs, m, stamps(|docs| - 1));
      DocumentHolds(o, before.registry, before.refs, m, stamps(|docs| - 1));
      PointersKeepTheirKeys(before.registry, Setting(before.registry, before.refs, m), done.registry);
      forall i | 0 <= i < |docs| ensures Holds(o, done.registry, docs[i]) {
        if i < |front| {
          assert front[i] == docs[i];
          HoldsStays(o, before.registry, docs[i], done.registry);
        }
      }
    }
  }

  lemma {:induction false} PointersKeepTheirKeys(s: Registry, setting: map<string, string>, s': Registry)
    requires Pointers(s') == Pointers(s) + setting
    ensures s.states.Keys <= s'.states.Keys && setting.Keys <= s'.states.Keys
  {
    assert s.states.Keys == Pointers(s).Keys && s'.states.Keys == Pointers(s').Keys;
  }

  // ----- Nothing is missing -----

  /** What a document needs is in the registry already or declared by another document. */
  predicate Provided(s: Registry, docs: seq<Manifest>, m: Manifest) {
    match m
    case DefinitionManifest(_, tenant, _, _, _, _) => tenant in s.tenants || Declares(docs, tenant)
    case VersionManifest(_, tenant, key, _, _, _) =>
      R.FindDefinition(s, tenant, key).Ok? || Defined(docs, tenant, key)
    case _ => true
  }

  predicate Declares(docs: seq<Manifest>, tenant: string) {
    exists i :: 0 <= i < |docs| && docs[i].TenantManifest? && docs[i].name == tenant
  }

  lemma {:induction false} FreshStampsOfPrefix(
      o: Options, s: Registry, docs: seq<Manifest>, stamps: nat -> Stamp, i: nat)
    requires FreshStamps(o, s, docs, stamps) && i <= |docs|
    ensures FreshStamps(o, s, docs[..i], stamps)
  {
    hide FreshStamp, ApplyAll;
    var front := docs[..i];
    forall k | 0 <= k < i ensures FreshStamp(ApplyAll(o, s, front[..k], stamps).registry, front[k], stamps(k)) {
      assert front[..k] == docs[..k];
    }
  }

  /** In kind order, a document of an earlier kind comes before. */
  lemma {:induction false} EarlierKindsComeFirst(docs: seq<Manifest>, i: nat, m: Manifest) returns (k: nat)
    requires i < |Ordered(docs)| && m in docs && Rank(m) < Rank(Ordered(docs)[i])
    ensures k < i && Ordered(docs)[k] == m
  {
    hide Ordered, Rank;
    OrderIsAStableSort(docs);
    assert Rank(Ordered(docs)[i]) < 5;
    assert m in Ordered(docs);
    k :| 0 <= k < |Ordered(docs)| && Ordered(docs)[k] == m;
    assert !(i <= k);
  }

  lemma {:induction false} CountIsByKind(docs: seq<Manifest>, name: string)
    ensures CountNamed(docs, name) == CountNamed(OfRank(docs, 2), name)
  {
    hide OfRank, CountNamed;
    if docs == [] {
      NoneOfRank(docs, 2);
    } else {
      var front, last := docs[..|docs| - 1], docs[|docs| - 1];
      CountIsByKind(front, name);
      assert docs == front + [last];
      OfRankJoins(front, [last], 2);
      OfRankOne(last, 2);
      CountOneMore(front, last, name);
      CountOneMore(OfRank(front, 2), last, name);
      assert OfRank(front, 2) + [] == OfRank(front, 2);
    }
  }

  lemma {:induction false} CountOneMore(docs: seq<Manifest>, last: Manifest, name: string)
    ensures CountNamed(docs + [last], name)
      == CountNamed(docs, name) + if last.VersionManifest? && last.name == name then 1 else 0
  {
    assert (docs + [last])[..|docs|] == docs;
  }

  /** Ordering keeps a version name the name of one document. */
  lemma {:induction false} NamedOnceInOrder(docs: seq<Manifest>, i: nat) returns (k: nat)
    requires AllRefsPass(docs) && i < |Ordered(docs)| && Ordered(docs)[i].StableManifest?
    ensures var m := Ordered(docs)[i];
      k < i && Ordered(docs)[k].VersionManifest? && Ordered(docs)[k].name == m.versionRef
      && Ordered(docs)[k].tenant == m.tenant && Ordered(docs)[k].key == m.key
      && forall j :: IsVersion(Ordered(docs), j, m.versionRef) ==> j == k
  {
    hide Ordered, AllRefsPass;
    var d, m := Ordered(docs), Ordered(docs)[i];
    OrderIsAStableSort(docs);
    assert m in docs;
    var at :| 0 <= at < |docs| && docs[at] == m;
    var j := PassingRefsNameOneVersion(docs, at);
    k := EarlierKindsComeFirst(docs, i, docs[j]);
    CountIsByKind(docs, m.versionRef);
    CountIsByKind(d, m.versionRef);
    if CountNamed(docs, m.versionRef) >= 2 {
      NamedTwice(docs, m.versionRef);
    }
    forall n | IsVersion(d, n, m.versionRef) ensures n == k {
      if n < k {
        TwoNamedCountTwice(d, m.versionRef, n, k);
      } else if k < n {
        TwoNamedCountTwice(d, m.versionRef, k, n);
      }
    }
  }

  lemma {:induction false} NamedTwice(docs: seq<Manifest>, name: string)
    requires CountNamed(docs, name) >= 2
    ensures exists i, j :: i < j && IsVersion(docs, i, name) && IsVersion(docs, j, name)
  {
    var front := docs[..|docs| - 1];
    if IsVersion(docs, |front|, name) {
      var i := NamedSomewhere(front, name);
      assert IsVersion(docs, i, name);
    } else {
      NamedTwice(front, name);
      var i, j :| i < j && IsVersion(front, i, name) && IsVersion(front, j, name);
      assert IsVersion(docs, i, name) && IsVersion(docs, j, name);
    }
  }

  lemma {:induction false} NamedSomewhere(docs: seq<Manifest>, name: string) returns (i: nat)
    requires CountNamed(docs, name) >= 1
    ensures IsVersion(docs, i, name)
  {
    if IsVersion(docs, |docs| - 1, name) {
      i := |docs| - 1;
    } else {
      i := NamedSomewhere(docs[..|docs| - 1], name);
    }
  }

  /** One document, given what it needs. */
  lemma {:induction false} NothingMissingFor(o: Options, s: Registry, refs: Refs, m: Manifest, stamp: Stamp)
    requires R.RegistryInv(s)
    requires m.DefinitionManifest? ==> m.tenant in s.tenants
    requires m.VersionManifest? ==> R.FindDefinition(s, m.tenant, m.key).Ok?
    requires m.StableManifest? && m.versionRef in refs ==>
      R.FindDefinition(s, m.tenant, m.key).Ok?
      && 1 <= refs[m.versionRef].versionNumber <= |R.VersionsOf(s, R.FindDefinition(s, m.tenant, m.key).value.id)|
    ensures ApplyOne(o, s, refs, m, stamp) != Err(Refused(R.NotFound))
  {
    hide R.RegistryInv, R.FindDefinition, R.SetStable, FirstSame, R.ValidDefinition, R.ValidVersion, R.ValidTenant;
    assert R.KeysAgree(s) by { KeysOfInv(s); }
    if (m.VersionManifest? || m.StableManifest?) && R.FindDefinition(s, m.tenant, m.key).Ok? {
      R.FoundDefinitionExists(s, m.tenant, m.key);
    }
    if m.StableManifest? && m.versionRef in refs {
      SettingFindsAVersion(s, m.tenant, m.key, m.environment, refs[m.versionRef].versionNumber, stamp.now);
    }
  }

  lemma {:induction false} SettingFindsAVersion(
      s: Registry, tenant: string, key: string, environment: string, number: int, now: R.Time)
    requires R.RegistryInv(s) && R.FindDefinition(s, tenant, key).Ok?
    requires 1 <= number <= |R.VersionsOf(s, R.FindDefinition(s, tenant, key).value.id)|
    ensures R.SetStable(s, tenant, key, environment, number, now) != Err(R.NotFound)
  {
    hide R.RegistryInv, R.FindDefinition;
    if R.ValidEnvironment(environment) {
      R.SetStableSucceeds(s, tenant, key, environment, number, now);
    }
  }

  lemma {:induction false} KeysOfInv(s: Registry)
    requires R.RegistryInv(s)
    ensures R.KeysAgree(s)
  {
  }

  /** Where a document of the ordered list is reached, what it needs is there. */
  lemma {:induction false} NeedsAreMet(
      o: Options, s: Registry, docs: seq<Manifest>, stamps: nat -> Stamp, i: nat)
    requires Reflexive(o) && Sound(s, map[]) && FreshStamps(o, s, Ordered(docs), stamps) && AllRefsPass(docs)
    requires i < |Ordered(docs)| && ApplyAll(o, s, Ordered(docs)[..i], stamps).error.None?
    requires Provided(s, docs, Ordered(docs)[i])
    ensures var before, m := ApplyAll(o, s, Ordered(docs)[..i], stamps), Ordered(docs)[i];
      && R.RegistryInv(before.registry)
      && (m.DefinitionManifest? ==> m.tenant in before.registry.tenants)
      && (m.VersionManifest? ==> R.FindDefinition(before.registry, m.tenant, m.key).Ok?)
      && (m.StableManifest? && m.versionRef in before.refs ==>
            var found := R.FindDefinition(before.registry, m.tenant, m.key);
            found.Ok?
            && 1 <= before.refs[m.versionRef].versionNumber <= |R.VersionsOf(before.registry, found.value.id)|)
  {
    hide Ordered, AllRefsPass, FreshStamps, ApplyAll, R.RegistryInv, UniqueVersions, R.FindDefinition, R.KeysAgree;
    hide R.Grows, Pointers, Reflexive;
    var front, m := Ordered(docs)[..i], Ordered(docs)[i];
    FreshStampsOfPrefix(o, s, Ordered(docs), stamps, i);
    ApplicationSetsPointers(o, s, front, stamps);
    AppliedDocumentsHold(o, s, front, stamps);
    KeysOfSound(s, map[]);
    if m.DefinitionManifest? && m.tenant !in s.tenants {
      var at :| 0 <= at < |docs| && docs[at].TenantManifest? && docs[at].name == m.tenant;
      var k := EarlierKindsComeFirst(docs, i, docs[at]);
      assert front[k] == docs[at];
    } else if m.VersionManifest? && R.FindDefinition(s, m.tenant, m.key).Ok? {
      FoundStays(s, ApplyAll(o, s, front, stamps).registry, m.tenant, m.key);
    } else if m.VersionManifest? {
      var at :| 0 <= at < |docs| && Defines(docs[at], m.tenant, m.key);
      var k := EarlierKindsComeFirst(docs, i, docs[at]);
      assert front[k] == docs[at];
    } else if m.StableManifest? {
      var k := NamedOnceInOrder(docs, i);
      PrefixNamesOnce(Ordered(docs), i, k);
      RefRealizesItsDocument(o, s, front, stamps, k);
    }
  }

  /**
   * Documents are applied in an order that meets their needs. If every definition's tenant and every version's
   * configuration is declared or already there, and the references pass validation, an application never stops because
   * a tenant, a configuration or a version is missing.
   */
  lemma {:induction false} NothingIsMissing(o: Options, s: Registry, docs: seq<Manifest>, stamps: nat -> Stamp)
    requires Reflexive(o) && Sound(s, map[]) && FreshStamps(o, s, Ordered(docs), stamps) && AllRefsPass(docs)
    requires forall i :: 0 <= i < |docs| ==> Provided(s, docs, docs[i])
    ensures ApplyAll(o, s, Ordered(docs), stamps).error != Some(Refused(R.NotFound))
  {
    hide ApplyAll, ApplyOne, Ordered, AllRefsPass, Sound, FreshStamps, Provided, R.FindDefinition, R.RegistryInv;
    hide Reflexive;
    if ApplyAll(o, s, Ordered(docs), stamps).error == Some(Refused(R.NotFound)) {
      var i := StoppedAt(o, s, Ordered(docs), stamps);
      var before, m := ApplyAll(o, s, Ordered(docs)[..i], stamps), Ordered(docs)[i];
      OrderIsAStableSort(docs);
      assert m in docs;
      NeedsAreMet(o, s, docs, stamps, i);
      NothingMissingFor(o, before.registry, before.refs, m, stamps(i));
    }
  }

  // ----- The report -----

  /**
   * The report lists the documents in the order they were applied, one step each, up to the first that failed: that one
   * is the last step, and every step before it was applied or skipped.
   */
  lemma {:induction false} ReportFollowsTheDocuments(o: Options, s: Registry, docs: seq<Manifest>, stamps: nat -> Stamp)
    ensures var done := ApplyAll(o, s, docs, stamps);
      && |done.steps| <= |docs|
      && (forall i :: 0 <= i < |done.steps| ==> done.steps[i].doc == docs[i])
      && (done.error.None? ==> |done.steps| == |docs|)
      && (done.error.Some? ==> done.steps != [] && done.steps[|done.steps| - 1].status == Failed)
      && (forall i :: 0 <= i < |done.steps| - (if done.error.Some? then 1 else 0) ==>
            done.steps[i].status == Applied || done.steps[i].status == Skipped)
  {
    hide ApplyOne;
    if docs != [] {
      ReportFollowsTheDocuments(o, s, docs[..|docs| - 1], stamps);
      var before := ApplyAll(o, s, docs[..|docs| - 1], stamps);
      StepsAreAppliedOrSkipped(o, before.registry, before.refs, docs[|docs| - 1], stamps(|docs| - 1));
    }
  }

  /** A document that does not fail is applied or skipped, and a skipped one changes nothing. */
  lemma {:induction false} StepsAreAppliedOrSkipped(o: Options, s: Registry, refs: Refs, m: Manifest, stamp: Stamp)
    ensures var r := ApplyOne(o, s, refs, m, stamp); r.Ok? ==>
      && (r.value.status == Applied || r.value.status == Skipped)
      && (r.value.status == Skipped ==> r.value.registry == s)
  {
    hide R.CreateTenant, R.CreateDefinition, R.CreateVersion, R.SetStable, R.FindDefinition, FirstSame;
  }
}
