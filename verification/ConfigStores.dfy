/** internal/configregistry: the in-memory store and the service, as objects over the Registry value. */
module ConfigStores {
  import opened Text
  import opened Wrappers
  import opened ConfigRegistry

  predicate TenantsOrdered(ts: seq<Tenant>) {
    forall i, j :: 0 <= i < j < |ts| ==> Less(ts[i].id, ts[j].id)
  }

  predicate KeysOrdered(ds: seq<Definition>) {
    forall i, j :: 0 <= i < j < |ds| ==> !Less(ds[j].key, ds[i].key)
  }

  class MemoryStore {
    var tenants: map<string, Tenant>
    var definitions: map<string, Definition>
    var definitionsByKey: map<string, string>
    var versions: map<string, seq<Version>>
    var versionsByNumber: map<string, Version>
    var states: map<string, EnvironmentState>

    function State(): Registry
      reads this
    {
      Registry(tenants, definitions, definitionsByKey, versions, versionsByNumber, states)
    }

    constructor ()
      ensures State() == EMPTY
    {
      tenants, definitions, definitionsByKey := map[], map[], map[];
      versions, versionsByNumber, states := map[], map[], map[];
    }

    method CreateTenant(t: Tenant) returns (result: Result<(), RegistryError>)
      modifies this
      ensures match AddTenant(old(State()), t)
        case Ok(s') => result == Ok(()) && State() == s'
        case Err(e) => result == Err(e) && State() == old(State())
    {
      if t.id in tenants {
        return Err(AlreadyExists);
      }
      tenants := tenants[t.id := t];
      result := Ok(());
    }

    method GetTenant(id: string) returns (result: Result<Tenant, RegistryError>)
      ensures result == if id in tenants then Ok(tenants[id]) else Err(NotFound)
    {
      if id !in tenants {
        return Err(NotFound);
      }
      result := Ok(tenants[id]);
    }

    /** All tenants, ordered by id. */
    method ListTenants() returns (list: seq<Tenant>)
      requires forall id :: id in tenants ==> tenants[id].id == id
      ensures TenantsOrdered(list)
      ensures forall t :: t in list <==> t.id in tenants && tenants[t.id] == t
    {
      list := [];
      var left := tenants.Keys;
      while left != {}
        invariant left <= tenants.Keys && TenantsOrdered(list)
        invariant forall t :: t in list <==> t.id in tenants && t.id !in left && tenants[t.id] == t
        decreases left
      {
        var id :| id in left;
        left := left - {id};
        list := InsertTenant(tenants[id], list);
      }
    }

    method CreateDefinition(d: Definition) returns (result: Result<(), RegistryError>)
      modifies this
      ensures match AddDefinition(old(State()), d)
        case Ok(s') => result == Ok(()) && State() == s'
        case Err(e) => result == Err(e) && State() == old(State())
    {
      if d.tenantID !in tenants {
        return Err(NotFound);
      }
      if d.id in definitions {
        return Err(AlreadyExists);
      }
      var key := DefinitionKey(d.tenantID, d.key);
      if key in definitionsByKey {
        return Err(AlreadyExists);
      }
      definitions := definitions[d.id := d];
      definitionsByKey := definitionsByKey[key := d.id];
      result := Ok(());
    }

    /** A tenant's definitions, ordered by key. */
    method ListDefinitions(tenantID: string) returns (result: Result<seq<Definition>, RegistryError>)
      requires forall id :: id in definitions ==> definitions[id].id == id
      ensures result.Ok? <==> tenantID in tenants
      ensures result.Err? ==> result.error == NotFound
      ensures result.Ok? ==> KeysOrdered(result.value)
      ensures result.Ok? ==>
        forall d :: d in result.value <==> d.id in definitions && definitions[d.id] == d && d.tenantID == tenantID
      ensures result.Ok? ==> DistinctDefinitions(result.value)
    {
      if tenantID !in tenants {
        return Err(NotFound);
      }
      var list: seq<Definition> := [];
      var left := definitions.Keys;
      while left != {}
        invariant left <= definitions.Keys && KeysOrdered(list)
        invariant forall d :: d in list <==>
          d.id in definitions && d.id !in left && definitions[d.id] == d && d.tenantID == tenantID
        invariant DistinctDefinitions(list)
        decreases left
      {
        var id :| id in left;
        left := left - {id};
        if definitions[id].tenantID == tenantID {
          list := InsertDefinition(definitions[id], list);
        }
      }
      result := Ok(list);
    }

    method GetDefinitionByKey(tenantID: string, key: string) returns (result: Result<Definition, RegistryError>)
      ensures result == FindDefinition(State(), tenantID, key)
    {
      var k := DefinitionKey(tenantID, key);
      if k !in definitionsByKey {
        return Err(NotFound);
      }
      var id := definitionsByKey[k];
      result := Ok(if id in definitions then definitions[id] else Definition("", "", "", "", "", "", 0, 0));
    }

    method CreateVersion(k: Checks, version: Version) returns (result: Result<Version, RegistryError>)
      modifies this
      ensures match AddVersion(old(State()), k, version)
        case Ok(p) => result == Ok(p.1) && State() == p.0
        case Err(e) => result == Err(e) && State() == old(State())
    {
      var id := version.configDefinitionID;
      if id !in definitions {
        return Err(NotFound);
      }
      var earlier := if id in versions then versions[id] else [];
      var numbered := version.(versionNumber := |earlier| + 1);
      if !ValidVersion(k, numbered) {
        return Err(InvalidInput);
      }
      versions := versions[id := earlier + [numbered]];
      versionsByNumber := versionsByNumber[VersionKey(id, numbered.versionNumber) := numbered];
      result := Ok(numbered);
    }

    method ListVersions(configDefinitionID: string) returns (result: Result<seq<Version>, RegistryError>)
      ensures result == FindVersions(State(), configDefinitionID)
    {
      if configDefinitionID !in definitions {
        return Err(NotFound);
      }
      result := Ok(if configDefinitionID in versions then versions[configDefinitionID] else []);
    }

    method GetVersionByNumber(configDefinitionID: string, number: int) returns (result: Result<Version, RegistryError>)
      ensures result == FindByNumber(State(), configDefinitionID, number)
    {
      var k := VersionKey(configDefinitionID, number);
      if k !in versionsByNumber {
        return Err(NotFound);
      }
      result := Ok(versionsByNumber[k]);
    }

    method SaveEnvironmentState(e: EnvironmentState)
      modifies this
      ensures State() == PutState(old(State()), e)
    {
      states := states[StateKey(e.configDefinitionID, e.environment) := e];
    }

    method GetEnvironmentState(configDefinitionID: string, environment: string)
      returns (result: Result<EnvironmentState, RegistryError>)
      ensures result == FindState(State(), configDefinitionID, environment)
    {
      var k := StateKey(configDefinitionID, environment);
      if k !in states {
        return Err(NotFound);
      }
      result := Ok(states[k]);
    }
  }

  /** Stands for one step of slices.SortFunc by id. */
  method InsertTenant(t: Tenant, list: seq<Tenant>) returns (longer: seq<Tenant>)
    requires TenantsOrdered(list) && forall u :: u in list ==> u.id != t.id
    ensures TenantsOrdered(longer) && forall u :: u in longer <==> u == t || u in list
  {
    var k := |list|;
    while k > 0 && !Less(list[k - 1].id, t.id)
      invariant 0 <= k <= |list|
      invariant forall i :: k <= i < |list| ==> Less(t.id, list[i].id)
    {
      k := k - 1;
      LessIsTotal(list[k].id, t.id);
      assert list[k] in list;
    }
    forall i | 0 <= i < k ensures Less(list[i].id, t.id) {
      if i < k - 1 {
        LessIsTransitive(list[i].id, list[k - 1].id, t.id);
      }
    }
    longer := list[..k] + [t] + list[k..];
    assert list == list[..k] + list[k..];
  }

  predicate DistinctDefinitions(ds: seq<Definition>) {
    forall i, j :: 0 <= i < j < |ds| ==> ds[i].id != ds[j].id
  }

  method DefinitionPoint(d: Definition, list: seq<Definition>) returns (k: nat)
    requires KeysOrdered(list)
    ensures k <= |list|
    ensures forall i :: 0 <= i < k ==> !Less(d.key, list[i].key)
    ensures forall i :: k <= i < |list| ==> !Less(list[i].key, d.key)
  {
    k := |list|;
    while k > 0 && Less(d.key, list[k - 1].key)
      invariant k <= |list|
      invariant forall i :: k <= i < |list| ==> !Less(list[i].key, d.key)
    {
      k := k - 1;
      LessIsAsymmetric(d.key, list[k].key);
    }
    forall i | 0 <= i < k ensures !Less(d.key, list[i].key) {
      if i < k - 1 {
        NotLessIsTransitive(d.key, list[k - 1].key, list[i].key);
      }
    }
  }

  lemma {:induction false} InsertingKeepsDistinct(d: Definition, list: seq<Definition>, k: nat)
    requires DistinctDefinitions(list) && k <= |list| && forall e :: e in list ==> e.id != d.id
    ensures DistinctDefinitions(list[..k] + [d] + list[k..])
  {
    assert forall i :: 0 <= i < |list| ==> list[i] in list;
  }

  /** Stands for one step of slices.SortFunc by key. */
  method InsertDefinition(d: Definition, list: seq<Definition>) returns (longer: seq<Definition>)
    requires KeysOrdered(list) && DistinctDefinitions(list) && forall e :: e in list ==> e.id != d.id
    ensures KeysOrdered(longer) && forall e :: e in longer <==> e == d || e in list
    ensures DistinctDefinitions(longer)
  {
    var k := DefinitionPoint(d, list);
    InsertingKeepsDistinct(d, list, k);
    longer := list[..k] + [d] + list[k..];
    assert list == list[..k] + list[k..];
  }

  lemma {:induction false} NotLessIsTransitive(a: string, b: string, c: string)
    requires !Less(a, b) && !Less(b, c)
    ensures !Less(a, c)
  {
    LessIsTotal(a, b);
    LessIsTotal(b, c);
    if Less(a, c) {
      LessIsAsymmetric(a, c);
      if Less(c, b) && Less(b, a) {
        LessIsTransitive(c, b, a);
      }
    }
  }

  class Service {
    const store: MemoryStore
    const checks: Checks

    constructor (store: MemoryStore, checks: Checks)
      ensures this.store == store && this.checks == checks
    {
      this.store, this.checks := store, checks;
    }

    method CreateTenant(t: Tenant) returns (result: Result<Tenant, RegistryError>)
      modifies store
      ensures match ConfigRegistry.CreateTenant(old(store.State()), t)
        case Ok(s') => result == Ok(t) && store.State() == s'
        case Err(e) => result == Err(e) && store.State() == old(store.State())
    {
      if !ValidTenant(t) {
        return Err(InvalidInput);
      }
      var created := store.CreateTenant(t);
      result := match created case Ok(_) => Ok(t) case Err(e) => Err(e);
    }

    method CreateDefinition(input: DefinitionInput, id: string, now: Time)
      returns (result: Result<Definition, RegistryError>)
      modifies store
      ensures match ConfigRegistry.CreateDefinition(old(store.State()), checks, input, id, now)
        case Ok(p) => result == Ok(p.1) && store.State() == p.0
        case Err(e) => result == Err(e) && store.State() == old(store.State())
      ensures result.Ok? ==>
        checks.validSchema(input.schema)
        && (input.defaultValue != "" ==> checks.validValue(input.schema, input.defaultValue))
        && result.value.schema == input.schema && result.value.defaultValue == input.defaultValue
        && result.value.tenantID == input.tenantID && result.value.key == input.key && result.value.id == id
    {
      if input.tenantID !in store.tenants {
        return Err(NotFound);
      }
      if !checks.validSchema(input.schema) {
        return Err(SchemaRejected);
      }
      if input.defaultValue != "" && !checks.validValue(input.schema, input.defaultValue) {
        return Err(SchemaRejected);
      }
      var d := Definition(id, input.tenantID, input.key, input.description, input.schema, input.defaultValue, now, now);
      if !ValidDefinition(checks, d) {
        return Err(InvalidInput);
      }
      var created := store.CreateDefinition(d);
      result := match created case Ok(_) => Ok(d) case Err(e) => Err(e);
    }

    method GetDefinition(tenantID: string, key: string) returns (result: Result<Definition, RegistryError>)
      ensures result == FindDefinition(store.State(), tenantID, key)
    {
      result := store.GetDefinitionByKey(tenantID, key);
    }

    method CreateVersion(input: VersionInput, id: string, now: Time) returns (result: Result<Version, RegistryError>)
      modifies store
      ensures match ConfigRegistry.CreateVersion(old(store.State()), checks, input, id, now)
        case Ok(p) => result == Ok(p.1) && store.State() == p.0
        case Err(e) => result == Err(e) && store.State() == old(store.State())
      ensures result.Ok? ==>
        FindDefinition(old(store.State()), input.tenantID, input.key).Ok?
        && checks.validValue(FindDefinition(old(store.State()), input.tenantID, input.key).value.schema, input.value)
        && result.value.value == input.value && result.value.id == id && result.value.createdAt == now
      ensures var found := FindDefinition(old(store.State()), input.tenantID, input.key);
        found.Ok? && !checks.validValue(found.value.schema, input.value) ==> result == Err(SchemaRejected)
    {
      var found := store.GetDefinitionByKey(input.tenantID, input.key);
      if found.Err? {
        return Err(found.error);
      }
      var d := found.value;
      if !checks.validValue(d.schema, input.value) {
        return Err(SchemaRejected);
      }
      result := store.CreateVersion(checks,
                                    Version(id, d.id, 0, input.value, input.sourceCommitSHA, input.createdBy, now));
    }

    method ListVersions(tenantID: string, key: string) returns (result: Result<seq<Version>, RegistryError>)
      ensures result == match FindDefinition(store.State(), tenantID, key)
        case Ok(d) => FindVersions(store.State(), d.id)
        case Err(e) => Err(e)
    {
      var found := store.GetDefinitionByKey(tenantID, key);
      if found.Err? {
        return Err(found.error);
      }
      result := store.ListVersions(found.value.id);
    }

    method SetStableVersion(tenantID: string, key: string, environment: string, number: int, now: Time)
      returns (result: Result<EnvironmentState, RegistryError>)
      modifies store
      ensures match SetStable(old(store.State()), tenantID, key, environment, number, now)
        case Ok(p) => result == Ok(p.1) && store.State() == p.0
        case Err(e) => result == Err(e) && store.State() == old(store.State())
    {
      if !ValidEnvironment(environment) {
        return Err(InvalidInput);
      }
      var found := store.GetDefinitionByKey(tenantID, key);
      if found.Err? {
        return Err(found.error);
      }
      var version := store.GetVersionByNumber(found.value.id, number);
      if version.Err? {
        return Err(version.error);
      }
      var stored := store.GetEnvironmentState(found.value.id, environment);
      var state := match stored
        case Ok(e) => e
        case Err(_) => EnvironmentState(found.value.id, environment, "", "", 0);
      var next := WithStableVersion(state, version.value.id);
      if next.None? {
        return Err(Conflict);
      }
      var saved := next.value.(updatedAt := now);
      if Blank(saved.configDefinitionID) || !ValidEnvironment(saved.environment) {
        return Err(InvalidInput);
      }
      store.SaveEnvironmentState(saved);
      result := Ok(saved);
    }

    method GetEnvironmentState(tenantID: string, key: string, environment: string)
      returns (result: Result<EnvironmentState, RegistryError>)
      ensures result == EnvironmentStateOf(store.State(), tenantID, key, environment)
    {
      var found := store.GetDefinitionByKey(tenantID, key);
      if found.Err? {
        return Err(found.error);
      }
      result := store.GetEnvironmentState(found.value.id, environment);
    }
  }
}
