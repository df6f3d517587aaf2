/** internal/configcode/validator.go: the validation state and the checks of version names and references. */
module ConfigValidation {
  import opened Text
  import opened ConfigCode

  datatype ValidationState = ValidationState(
    definitions: map<string, Manifest>, versionRefs: map<string, Manifest>, versionNameCounts: map<string, nat>)

  const EMPTY := ValidationState(map[], map[], map[])

  function ConfigKey(tenant: string, key: string): string {
    tenant + "/" + key
  }

  function Noted(state: ValidationState, m: Manifest): ValidationState {
    match m
    case DefinitionManifest(_, tenant, key, _, schema, _) =>
      if Blank(tenant) || Blank(key) || schema == "" then state
      else state.(definitions := state.definitions[ConfigKey(tenant, key) := m])
    case VersionManifest(name, tenant, key, _, _, _) =>
      var counts := state.versionNameCounts;
      var counted := state.(versionNameCounts := counts[name := (if name in counts then counts[name] else 0) + 1]);
      if !Blank(tenant) && !Blank(key) then counted.(versionRefs := counted.versionRefs[name := m]) else counted
    case _ => state
  }

  function StateOf(docs: seq<Manifest>): ValidationState {
    if docs == [] then EMPTY else Noted(StateOf(docs[..|docs| - 1]), docs[|docs| - 1])
  }

  method BuildValidationState(docs: seq<Manifest>) returns (state: ValidationState)
    ensures state == StateOf(docs)
  {
    var definitions, versionRefs: map<string, Manifest>, versionNameCounts: map<string, nat> := map[], map[], map[];
    for i := 0 to |docs|
      invariant ValidationState(definitions, versionRefs, versionNameCounts) == StateOf(docs[..i])
    {
      assert docs[..i + 1][..i] == docs[..i];
      match docs[i] {
        case DefinitionManifest(_, tenant, key, _, schema, _) =>
          if !Blank(tenant) && !Blank(key) && schema != "" {
            definitions := definitions[ConfigKey(tenant, key) := docs[i]];
          }
        case VersionManifest(name, tenant, key, _, _, _) =>
          var count := if name in versionNameCounts then versionNameCounts[name] else 0;
          versionNameCounts := versionNameCounts[name := count + 1];
          if !Blank(tenant) && !Blank(key) {
            versionRefs := versionRefs[name := docs[i]];
          }
        case _ =>
      }
    }
    assert docs[..|docs|] == docs;
    state := ValidationState(definitions, versionRefs, versionNameCounts);
  }

  /** The reference is to a version document of the same configuration. */
  predicate RefHolds(state: ValidationState, tenant: string, key: string, ref: string) {
    && !Blank(ref) && ref in state.versionRefs
    && state.versionRefs[ref].VersionManifest? && state.versionRefs[ref].tenant == tenant
    && state.versionRefs[ref].key == key
  }

  /** validateManifest draws no diagnostic about version names, matching definitions or references for `m`. */
  predicate RefsPass(state: ValidationState, m: Manifest) {
    match m
    case VersionManifest(name, tenant, key, _, _, _) =>
      && (name !in state.versionNameCounts || state.versionNameCounts[name] <= 1)
      && ConfigKey(tenant, key) in state.definitions
    case StableManifest(_, tenant, key, _, ref) => RefHolds(state, tenant, key, ref)
    case RolloutManifest(_, tenant, key, _, ref) => RefHolds(state, tenant, key, ref)
    case _ => true
  }

  predicate AllRefsPass(docs: seq<Manifest>) {
    forall i :: 0 <= i < |docs| ==> RefsPass(StateOf(docs), docs[i])
  }

  // ----- What passing means for the documents -----

  predicate IsVersion(docs: seq<Manifest>, i: int, name: string) {
    0 <= i < |docs| && docs[i].VersionManifest? && docs[i].name == name
  }

  function CountNamed(docs: seq<Manifest>, name: string): nat {
    if docs == [] then 0
    else CountNamed(docs[..|docs| - 1], name) + if IsVersion(docs, |docs| - 1, name) then 1 else 0
  }

  lemma {:induction false} CountsAreCounts(docs: seq<Manifest>, name: string)
    ensures var counts := StateOf(docs).versionNameCounts;
      (if name in counts then counts[name] else 0) == CountNamed(docs, name)
  {
    if docs != [] {
      CountsAreCounts(docs[..|docs| - 1], name);
    }
  }

  lemma {:induction false} NamedCounts(docs: seq<Manifest>, name: string, i: int)
    requires IsVersion(docs, i, name)
    ensures CountNamed(docs, name) >= 1
  {
    var front := docs[..|docs| - 1];
    if i < |front| {
      assert IsVersion(front, i, name);
      NamedCounts(front, name, i);
    }
  }

  lemma {:induction false} TwoNamedCountTwice(docs: seq<Manifest>, name: string, i: int, j: int)
    requires IsVersion(docs, i, name) && IsVersion(docs, j, name) && i < j
    ensures CountNamed(docs, name) >= 2
  {
    var front := docs[..|docs| - 1];
    assert IsVersion(front, i, name);
    if j < |front| {
      assert IsVersion(front, j, name);
      TwoNamedCountTwice(front, name, i, j);
    } else {
      NamedCounts(front, name, i);
    }
  }

  /** A reference stands for a version document of that name. */
  lemma {:induction false} RefsAreVersions(docs: seq<Manifest>, ref: string) returns (i: nat)
    requires ref in StateOf(docs).versionRefs
    ensures IsVersion(docs, i, ref) && docs[i] == StateOf(docs).versionRefs[ref]
  {
    var front, last := docs[..|docs| - 1], docs[|docs| - 1];
    if last.VersionManifest? && last.name == ref && !Blank(last.tenant) && !Blank(last.key) {
      i := |docs| - 1;
    } else {
      i := RefsAreVersions(front, ref);
    }
  }

  /** Every reference that passes names one version document, the only one of its name, of the same configuration. */
  lemma {:induction false} PassingRefsNameOneVersion(docs: seq<Manifest>, i: nat) returns (j: nat)
    requires AllRefsPass(docs) && i < |docs| && (docs[i].StableManifest? || docs[i].RolloutManifest?)
    ensures var ref := if docs[i].StableManifest? then docs[i].versionRef else docs[i].candidateVersionRef;
      IsVersion(docs, j, ref) && docs[j].tenant == docs[i].tenant && docs[j].key == docs[i].key
      && forall k :: IsVersion(docs, k, ref) ==> k == j
  {
    var ref := if docs[i].StableManifest? then docs[i].versionRef else docs[i].candidateVersionRef;
    assert RefsPass(StateOf(docs), docs[i]);
    j := RefsAreVersions(docs, ref);
    assert RefsPass(StateOf(docs), docs[j]);
    CountsAreCounts(docs, ref);
    forall k | IsVersion(docs, k, ref) ensures k == j {
      if k < j {
        TwoNamedCountTwice(docs, ref, k, j);
      } else if j < k {
        TwoNamedCountTwice(docs, ref, j, k);
      }
    }
  }

  // ----- Matching definitions -----

  predicate Slashed(tenant: string, key: string) {
    '/' in tenant || '/' in key
  }

  lemma {:induction false} SplitsAtASlash(tenant: string, key: string)
    ensures ConfigKey(tenant, key)[..|tenant|] == tenant && ConfigKey(tenant, key)[|tenant| + 1..] == key
    ensures ConfigKey(tenant, key)[|tenant|] == '/'
    ensures forall i :: 0 <= i < |tenant| ==> ConfigKey(tenant, key)[i] == tenant[i]
    ensures forall i :: |tenant| < i < |ConfigKey(tenant, key)| ==> ConfigKey(tenant, key)[i] == key[i - |tenant| - 1]
  {
  }

  lemma {:induction false} UnslashedKeysSplitOneWay(tenant: string, key: string, tenant': string, key': string)
    requires !Slashed(tenant, key) && ConfigKey(tenant', key') == ConfigKey(tenant, key)
    ensures tenant' == tenant && key' == key
  {
    SplitsAtASlash(tenant, key);
    SplitsAtASlash(tenant', key');
    assert |tenant'| == |tenant|;
  }

  /** A validation key determines its tenant and key exactly when neither holds a slash. */
  lemma {:induction false} ConfigKeyIsUnambiguousIffUnslashed(tenant: string, key: string)
    ensures (forall tenant': string, key': string :: ConfigKey(tenant', key') == ConfigKey(tenant, key) ==>
              tenant' == tenant && key' == key) <==> !Slashed(tenant, key)
  {
    if !Slashed(tenant, key) {
      forall tenant': string, key': string | ConfigKey(tenant', key') == ConfigKey(tenant, key)
        ensures tenant' == tenant && key' == key
      {
        UnslashedKeysSplitOneWay(tenant, key, tenant', key');
      }
    } else if '/' in tenant {
      var i :| 0 <= i < |tenant| && tenant[i] == '/';
      assert ConfigKey(tenant[..i], tenant[i + 1..] + "/" + key) == ConfigKey(tenant, key);
    } else {
      var i :| 0 <= i < |key| && key[i] == '/';
      assert ConfigKey(tenant + "/" + key[..i], key[i + 1..]) == ConfigKey(tenant, key);
    }
  }

  /** A definition document the validation state takes up. */
  predicate Defines(m: Manifest, tenant: string, key: string) {
    && m.DefinitionManifest? && m.tenant == tenant && m.key == key && !Blank(tenant) && !Blank(key) && m.schema != ""
  }

  predicate Defined(docs: seq<Manifest>, tenant: string, key: string) {
    exists i :: 0 <= i < |docs| && Defines(docs[i], tenant, key)
  }

  lemma {:induction false} DefinedSnoc(docs: seq<Manifest>, tenant: string, key: string)
    requires docs != []
    ensures Defined(docs, tenant, key) <==>
      Defined(docs[..|docs| - 1], tenant, key) || Defines(docs[|docs| - 1], tenant, key)
  {
    var front := docs[..|docs| - 1];
    if Defined(docs, tenant, key) {
      var i :| 0 <= i < |docs| && Defines(docs[i], tenant, key);
      assert i < |front| ==> front[i] == docs[i];
    }
    if Defined(front, tenant, key) {
      var i :| 0 <= i < |front| && Defines(front[i], tenant, key);
      assert docs[i] == front[i];
    }
  }

  /** Some configuration with this validation key is defined. */
  ghost predicate DefinedUnderKey(docs: seq<Manifest>, configKey: string) {
    exists tenant, key :: ConfigKey(tenant, key) == configKey && Defined(docs, tenant, key)
  }

  /**
   * The validation state has a definition under a key exactly when a document defines some configuration with that key.
   */
  lemma {:induction false} DefinitionsAreTheDefined(docs: seq<Manifest>, configKey: string)
    ensures configKey in StateOf(docs).definitions <==> DefinedUnderKey(docs, configKey)
  {
    hide Defines, Defined, ConfigKey;
    if docs == [] {
      NothingIsDefined();
    } else {
      var front, last := docs[..|docs| - 1], docs[|docs| - 1];
      DefinitionsAreTheDefined(front, configKey);
      NotedDefinition(StateOf(front), last, configKey);
      forall tenant, key
        ensures Defined(docs, tenant, key) <==> Defined(front, tenant, key) || Defines(last, tenant, key)
      {
        DefinedSnoc(docs, tenant, key);
      }
    }
  }

  lemma {:induction false} NothingIsDefined()
    ensures forall tenant, key :: !Defined([], tenant, key)
  {
  }

  lemma {:induction false} NotedDefinition(state: ValidationState, m: Manifest, configKey: string)
    ensures configKey in Noted(state, m).definitions <==>
      configKey in state.definitions
      || exists tenant, key :: ConfigKey(tenant, key) == configKey && Defines(m, tenant, key)
  {
    if m.DefinitionManifest? && Defines(m, m.tenant, m.key) {
      assert ConfigKey(m.tenant, m.key) in Noted(state, m).definitions;
    }
  }

  // ----- Exactly what passes -----

  lemma {:induction false} CountedOnceIff(docs: seq<Manifest>, i: nat, name: string)
    requires IsVersion(docs, i, name)
    ensures CountNamed(docs, name) <= 1 <==> forall k :: IsVersion(docs, k, name) ==> k == i
  {
    if k :| IsVersion(docs, k, name) && k != i {
      TwoNamedCountTwice(docs, name, if k < i then k else i, if k < i then i else k);
    } else if forall k :: IsVersion(docs, k, name) ==> k == i {
      OnlyOneCounts(docs, i, name);
    }
  }

  lemma {:induction false} OnlyOneCounts(docs: seq<Manifest>, i: int, name: string)
    requires forall k :: IsVersion(docs, k, name) ==> k == i
    ensures CountNamed(docs, name) <= 1
  {
    if docs != [] {
      var front := docs[..|docs| - 1];
      forall k | IsVersion(front, k, name) ensures k == (if IsVersion(docs, |front|, name) then -1 else i) {
        assert IsVersion(docs, k, name);
      }
      if IsVersion(docs, |front|, name) {
        NoneCounts(front, name);
      } else {
        OnlyOneCounts(front, i, name);
      }
    }
  }

  lemma {:induction false} NoneCounts(docs: seq<Manifest>, name: string)
    requires forall k :: !IsVersion(docs, k, name)
    ensures CountNamed(docs, name) == 0
  {
    if docs != [] {
      var front := docs[..|docs| - 1];
      forall k ensures !IsVersion(front, k, name) {
        assert IsVersion(front, k, name) ==> IsVersion(docs, k, name);
      }
      assert !IsVersion(docs, |front|, name);
      NoneCounts(front, name);
    }
  }

  /** A version document passes exactly when no other one has its name and its validation key is defined. */
  lemma {:induction false} VersionPassesIff(docs: seq<Manifest>, i: nat)
    requires i < |docs| && docs[i].VersionManifest?
    ensures RefsPass(StateOf(docs), docs[i]) <==>
      && (forall k :: IsVersion(docs, k, docs[i].name) ==> k == i)
      && DefinedUnderKey(docs, ConfigKey(docs[i].tenant, docs[i].key))
  {
    hide ConfigKey, DefinedUnderKey, StateOf;
    CountsAreCounts(docs, docs[i].name);
    CountedOnceIff(docs, i, docs[i].name);
    DefinitionsAreTheDefined(docs, ConfigKey(docs[i].tenant, docs[i].key));
  }

  /** A version document of that name which names a configuration. */
  predicate Referable(docs: seq<Manifest>, i: int, name: string) {
    IsVersion(docs, i, name) && !Blank(docs[i].tenant) && !Blank(docs[i].key)
  }

  lemma {:induction false} RefsAreTheLast(docs: seq<Manifest>, j: nat, ref: string)
    requires Referable(docs, j, ref) && forall k :: Referable(docs, k, ref) ==> k <= j
    ensures ref in StateOf(docs).versionRefs && StateOf(docs).versionRefs[ref] == docs[j]
  {
    hide Blank;
    var front := docs[..|docs| - 1];
    if j < |front| {
      assert !Referable(docs, |front|, ref) && Referable(front, j, ref);
      forall k | Referable(front, k, ref) ensures k <= j {
        assert Referable(docs, k, ref);
      }
      RefsAreTheLast(front, j, ref);
    }
  }

  lemma {:induction false} RefsAreReferable(docs: seq<Manifest>, ref: string) returns (j: nat)
    requires ref in StateOf(docs).versionRefs
    ensures Referable(docs, j, ref) && forall k :: Referable(docs, k, ref) ==> k <= j
  {
    hide Blank;
    var front, last := docs[..|docs| - 1], docs[|docs| - 1];
    if last.VersionManifest? && last.name == ref && !Blank(last.tenant) && !Blank(last.key) {
      j := |docs| - 1;
    } else {
      j := RefsAreReferable(front, ref);
      forall k | Referable(docs, k, ref) ensures k <= j {
        assert Referable(front, k, ref);
      }
    }
  }

  /**
   * A reference passes exactly when it is not blank and the last version document of that name, among those that name a
   * configuration, is of the configuration asked for.
   */
  lemma {:induction false} RefPassesIff(docs: seq<Manifest>, tenant: string, key: string, ref: string)
    ensures RefHolds(StateOf(docs), tenant, key, ref) <==>
      !Blank(ref) && exists j: nat ::
        Referable(docs, j, ref) && docs[j].tenant == tenant && docs[j].key == key
        && forall k :: Referable(docs, k, ref) ==> k <= j
  {
    hide Blank, StateOf;
    if ref in StateOf(docs).versionRefs {
      var j := RefsAreReferable(docs, ref);
      RefsAreTheLast(docs, j, ref);
    }
    forall j: nat | Referable(docs, j, ref) && forall k :: Referable(docs, k, ref) ==> k <= j
      ensures ref in StateOf(docs).versionRefs && StateOf(docs).versionRefs[ref] == docs[j]
    {
      RefsAreTheLast(docs, j, ref);
    }
  }

  /** A version of this configuration finds a matching definition although no document defines the configuration. */
  predicate Misled(docs: seq<Manifest>, tenant: string, key: string) {
    ConfigKey(tenant, key) in StateOf(docs).definitions && !Defined(docs, tenant, key)
  }

  /** Only a configuration with a slash in its tenant or key can be taken for another one. */
  lemma {:induction false} OnlySlashedAreMisled(docs: seq<Manifest>, tenant: string, key: string)
    requires Misled(docs, tenant, key)
    ensures Slashed(tenant, key)
  {
    DefinitionsAreTheDefined(docs, ConfigKey(tenant, key));
    var tenant', key' :| ConfigKey(tenant', key') == ConfigKey(tenant, key) && Defined(docs, tenant', key');
    if !Slashed(tenant, key) {
      UnslashedKeysSplitOneWay(tenant, key, tenant', key');
    }
  }

  /** And one is: a single definition of the other configuration is enough. */
  lemma {:induction false} AnotherDefinitionMisleads(
      d: Manifest, tenant: string, key: string)
    requires d.DefinitionManifest? && Defines(d, d.tenant, d.key)
    requires ConfigKey(d.tenant, d.key) == ConfigKey(tenant, key) && (d.tenant != tenant || d.key != key)
    ensures Misled([d], tenant, key)
  {
    assert [d][..0] == [];
    assert StateOf([d]) == Noted(StateOf([]), d);
  }

  /** Another configuration, with a name for both parts, that has the same validation key. */
  predicate Doubles(tenant: string, key: string, tenant': string, key': string) {
    ConfigKey(tenant', key') == ConfigKey(tenant, key) && (tenant' != tenant || key' != key)
    && !Blank(tenant') && !Blank(key')
  }

  /**
   * A configuration can be taken for another exactly when its joined name can be cut at another slash into two names.
   */
  lemma {:induction false} MisledIffDoubled(tenant: string, key: string)
    ensures (exists docs :: Misled(docs, tenant, key)) <==>
      (exists tenant', key' :: Doubles(tenant, key, tenant', key'))
  {
    if docs :| Misled(docs, tenant, key) {
      DefinitionsAreTheDefined(docs, ConfigKey(tenant, key));
      var tenant', key' :| ConfigKey(tenant', key') == ConfigKey(tenant, key) && Defined(docs, tenant', key');
      assert Doubles(tenant, key, tenant', key');
    }
    if tenant', key' :| Doubles(tenant, key, tenant', key') {
      var d := DefinitionManifest("", tenant', key', "", "{}", "");
      AnotherDefinitionMisleads(d, tenant, key);
      assert Misled([d], tenant, key);
    }
  }

  /** "a/b", "c" is taken for "a", "b/c". */
  lemma {:induction false} SlashedConfigurationsCollide()
    ensures Misled([DefinitionManifest("d", "a", "b/c", "", "{}", "")], "a/b", "c")
  {
    assert !Blank("a") && !Blank("b/c") by { assert "a"[0] == 'a' && "b/c"[0] == 'b'; }
    AnotherDefinitionMisleads(DefinitionManifest("d", "a", "b/c", "", "{}", ""), "a/b", "c");
  }
}
