/** internal/configregistry and internal/domain/validation.go: definitions, append-only versions, stable pointers. */
module ConfigRegistry {
  import opened Text
  import opened Wrappers

  type Time = int

  /** Raw JSON text. */
  type Raw = string

  /** json.Valid and the JSON Schema validator, of which only determinism is used. */
  datatype Checks = Checks(validJson: Raw -> bool, validSchema: Raw -> bool, validValue: (Raw, Raw) -> bool)

  datatype Tenant = Tenant(id: string, name: string, description: string, owner: string, createdAt: Time,
                           updatedAt: Time)

  datatype Definition = Definition(
    id: string, tenantID: string, key: string, description: string, schema: Raw, defaultValue: Raw,
    createdAt: Time, updatedAt: Time)

  datatype Version = Version(
    id: string, configDefinitionID: string, versionNumber: int, value: Raw, sourceCommitSHA: string,
    createdBy: string, createdAt: Time)

  datatype EnvironmentState = EnvironmentState(
    configDefinitionID: string, environment: string, stableVersionID: string, activeRolloutID: string, updatedAt: Time)

  datatype RegistryError = NotFound | AlreadyExists | InvalidInput | SchemaRejected | Conflict

  // ----- domain/validation.go -----

  predicate ValidTenant(t: Tenant) {
    !Blank(t.id) && !Blank(t.name)
  }

  predicate ValidDefinition(k: Checks, d: Definition) {
    && !Blank(d.id) && !Blank(d.tenantID) && !Blank(d.key) && d.schema != "" && k.validJson(d.schema)
    && (d.defaultValue != "" ==> k.validJson(d.defaultValue))
  }

  predicate ValidVersion(k: Checks, v: Version) {
    !Blank(v.id) && !Blank(v.configDefinitionID) && v.versionNumber >= 1 && v.value != "" && k.validJson(v.value)
  }

  predicate ValidEnvironment(environment: string) {
    environment == "development" || environment == "staging" || environment == "production"
  }

  function WithStableVersion(s: EnvironmentState, versionID: string): Option<EnvironmentState> {
    if !Blank(s.activeRolloutID) && s.stableVersionID != versionID then None
    else Some(s.(stableVersionID := versionID))
  }

  // ----- memory_store.go: keys and state -----

  function DefinitionKey(tenantID: string, key: string): string {
    Join(tenantID, key)
  }

  function VersionKey(configDefinitionID: string, number: int): string {
    Join(configDefinitionID, Decimal(number))
  }

  function StateKey(configDefinitionID: string, environment: string): string {
    Join(configDefinitionID, environment)
  }

  datatype Registry = Registry(
    tenants: map<string, Tenant>, definitions: map<string, Definition>, definitionsByKey: map<string, string>,
    versions: map<string, seq<Version>>, versionsByNumber: map<string, Version>, states: map<string, EnvironmentState>)

  const EMPTY := Registry(map[], map[], map[], map[], map[], map[])

  function VersionsOf(s: Registry, id: string): seq<Version> {
    if id in s.versions then s.versions[id] else []
  }

  function AddTenant(s: Registry, t: Tenant): Result<Registry, RegistryError> {
    if t.id in s.tenants then Err(AlreadyExists) else Ok(s.(tenants := s.tenants[t.id := t]))
  }

  function AddDefinition(s: Registry, d: Definition): Result<Registry, RegistryError> {
    var key := DefinitionKey(d.tenantID, d.key);
    if d.tenantID !in s.tenants then Err(NotFound)
    else if d.id in s.definitions then Err(AlreadyExists)
    else if key in s.definitionsByKey then Err(AlreadyExists)
    else Ok(s.(definitions := s.definitions[d.id := d], definitionsByKey := s.definitionsByKey[key := d.id]))
  }

  function AddVersion(s: Registry, k: Checks, v: Version): Result<(Registry, Version), RegistryError> {
    if v.configDefinitionID !in s.definitions then Err(NotFound) else
    var id := v.configDefinitionID;
    var numbered := v.(versionNumber := |VersionsOf(s, id)| + 1);
    if !ValidVersion(k, numbered) then Err(InvalidInput)
    else Ok((s.(versions := s.versions[id := VersionsOf(s, id) + [numbered]],
                versionsByNumber := s.versionsByNumber[VersionKey(id, numbered.versionNumber) := numbered]), numbered))
  }

  function PutState(s: Registry, e: EnvironmentState): Registry {
    s.(states := s.states[StateKey(e.configDefinitionID, e.environment) := e])
  }

  function FindDefinition(s: Registry, tenantID: string, key: string): Result<Definition, RegistryError> {
    var k := DefinitionKey(tenantID, key);
    if k !in s.definitionsByKey then Err(NotFound)
    else if s.definitionsByKey[k] in s.definitions then Ok(s.definitions[s.definitionsByKey[k]])
    else Ok(Definition("", "", "", "", "", "", 0, 0))
  }

  function FindVersions(s: Registry, id: string): Result<seq<Version>, RegistryError> {
    if id !in s.definitions then Err(NotFound) else Ok(VersionsOf(s, id))
  }

  function FindByNumber(s: Registry, id: string, number: int): Result<Version, RegistryError> {
    var k := VersionKey(id, number);
    if k in s.versionsByNumber then Ok(s.versionsByNumber[k]) else Err(NotFound)
  }

  function FindState(s: Registry, id: string, environment: string): Result<EnvironmentState, RegistryError> {
    var k := StateKey(id, environment);
    if k in s.states then Ok(s.states[k]) else Err(NotFound)
  }

  // ----- service.go: operations -----

  function CreateTenant(s: Registry, t: Tenant): Result<Registry, RegistryError> {
    if !ValidTenant(t) then Err(InvalidInput) else AddTenant(s, t)
  }

  datatype DefinitionInput = DefinitionInput(tenantID: string, key: string, description: string, schema: Raw,
                                             defaultValue: Raw)

  function CreateDefinition(s: Registry, k: Checks, input: DefinitionInput, id: string, now: Time)
    : Result<(Registry, Definition), RegistryError>
  {
    if input.tenantID !in s.tenants then Err(NotFound)
    else if !k.validSchema(input.schema) then Err(SchemaRejected)
    else if input.defaultValue != "" && !k.validValue(input.schema, input.defaultValue) then Err(SchemaRejected)
    else
      var d := Definition(id, input.tenantID, input.key, input.description, input.schema, input.defaultValue, now, now);
      if !ValidDefinition(k, d) then Err(InvalidInput)
      else match AddDefinition(s, d)
        case Err(e) => Err(e)
        case Ok(s') => Ok((s', d))
  }

  datatype VersionInput = VersionInput(tenantID: string, key: string, value: Raw, sourceCommitSHA: string,
                                       createdBy: string)

  function CreateVersion(s: Registry, k: Checks, input: VersionInput, id: string, now: Time)
    : Result<(Registry, Version), RegistryError>
  {
    match FindDefinition(s, input.tenantID, input.key)
    case Err(e) => Err(e)
    case Ok(d) =>
      if !k.validValue(d.schema, input.value) then Err(SchemaRejected)
      else AddVersion(s, k, Version(id, d.id, 0, input.value, input.sourceCommitSHA, input.createdBy, now))
  }

  function StateOrNew(s: Registry, id: string, environment: string): EnvironmentState {
    match FindState(s, id, environment)
    case Ok(e) => e
    case Err(_) => EnvironmentState(id, environment, "", "", 0)
  }

  function SetStable(s: Registry, tenantID: string, key: string, environment: string, number: int, now: Time)
    : Result<(Registry, EnvironmentState), RegistryError>
  {
    if !ValidEnvironment(environment) then Err(InvalidInput)
    else match FindDefinition(s, tenantID, key)
    case Err(e) => Err(e)
    case Ok(d) =>
      match FindByNumber(s, d.id, number)
      case Err(e) => Err(e)
      case Ok(v) =>
        match WithStableVersion(StateOrNew(s, d.id, environment), v.id)
        case None => Err(Conflict)
        case Some(next) =>
          var saved := next.(updatedAt := now);
          if Blank(saved.configDefinitionID) || !ValidEnvironment(saved.environment) then Err(InvalidInput)
          else Ok((PutState(s, saved), saved))
  }

  function EnvironmentStateOf(s: Registry, tenantID: string, key: string, environment: string)
    : Result<EnvironmentState, RegistryError>
  {
    match FindDefinition(s, tenantID, key)
    case Err(e) => Err(e)
    case Ok(d) => FindState(s, d.id, environment)
  }

  // ----- What every operation keeps -----

  predicate NamesVersion(versions: seq<Version>, versionID: string) {
    exists i :: 0 <= i < |versions| && versions[i].id == versionID
  }

  /** Both ways: the key index is the definitions, read by key. */
  predicate KeysAgree(s: Registry) {
    && (forall id :: id in s.tenants ==> s.tenants[id].id == id)
    && (forall k :: k in s.definitionsByKey ==>
          s.definitionsByKey[k] in s.definitions
          && (var d := s.definitions[s.definitionsByKey[k]]; DefinitionKey(d.tenantID, d.key) == k))
    && (forall id :: id in s.definitions ==>
          var d := s.definitions[id];
          d.id == id && !Blank(id) && NulFree(id) && d.tenantID in s.tenants
          && DefinitionKey(d.tenantID, d.key) in s.definitionsByKey
          && s.definitionsByKey[DefinitionKey(d.tenantID, d.key)] == id)
  }

  /** A definition's versions are numbered 1..n in list order, under distinct ids. */
  predicate Numbered(id: string, versions: seq<Version>) {
    && (forall i :: 0 <= i < |versions| ==>
          versions[i].versionNumber == i + 1 && versions[i].configDefinitionID == id && versions[i].id != "")
    && (forall i, j :: 0 <= i < j < |versions| ==> versions[i].id != versions[j].id)
  }

  predicate VersionsNumbered(s: Registry) {
    forall id :: id in s.versions ==> id in s.definitions && Numbered(id, s.versions[id])
  }

  /** The by-number index holds exactly the listed versions. */
  ghost predicate NumbersAgree(s: Registry) {
    forall id: string, n: int ::
      (VersionKey(id, n) in s.versionsByNumber <==> 1 <= n <= |VersionsOf(s, id)|)
      && (1 <= n <= |VersionsOf(s, id)| ==> s.versionsByNumber[VersionKey(id, n)] == VersionsOf(s, id)[n - 1])
  }

  /** Every environment state sits under its own key and points at an existing version. */
  predicate PointersExist(s: Registry) {
    forall k :: k in s.states ==>
      var e := s.states[k];
      k == StateKey(e.configDefinitionID, e.environment) && e.configDefinitionID in s.definitions
      && ValidEnvironment(e.environment) && e.activeRolloutID == ""
      && NamesVersion(VersionsOf(s, e.configDefinitionID), e.stableVersionID)
  }

  ghost predicate RegistryInv(s: Registry) {
    KeysAgree(s) && VersionsNumbered(s) && NumbersAgree(s) && PointersExist(s)
  }

  /** Definitions and versions are only ever added. */
  predicate Grows(s: Registry, s': Registry) {
    && (forall id :: id in s.definitions ==> id in s'.definitions && s'.definitions[id] == s.definitions[id])
    && (forall k :: k in s.definitionsByKey ==>
        k in s'.definitionsByKey && s'.definitionsByKey[k] == s.definitionsByKey[k])
    && (forall id :: id in s.versions ==> VersionsOf(s, id) <= VersionsOf(s', id))
  }

  lemma {:induction false} GrowsIsReflexive(s: Registry)
    ensures Grows(s, s)
  {
  }

  lemma {:induction false} GrowsIsTransitive(a: Registry, b: Registry, c: Registry)
    requires Grows(a, b) && Grows(b, c)
    ensures Grows(a, c)
  {
    forall id | id in a.versions ensures VersionsOf(a, id) <= VersionsOf(c, id) {
      assert VersionsOf(a, id) <= VersionsOf(b, id);
      if id !in b.versions {
        assert VersionsOf(a, id) == [];
      }
    }
  }

  lemma {:induction false} EmptyIsValid()
    ensures RegistryInv(EMPTY)
  {
  }

  lemma {:induction false} NumbersStay(s: Registry, s': Registry)
    requires NumbersAgree(s) && s'.versions == s.versions && s'.versionsByNumber == s.versionsByNumber
    ensures NumbersAgree(s') && forall id :: VersionsOf(s', id) == VersionsOf(s, id)
  {
    forall id: string, n: int
      ensures VersionKey(id, n) in s'.versionsByNumber <==> 1 <= n <= |VersionsOf(s', id)|
      ensures 1 <= n <= |VersionsOf(s', id)| ==> s'.versionsByNumber[VersionKey(id, n)] == VersionsOf(s', id)[n - 1]
    {
      assert VersionKey(id, n) in s.versionsByNumber <==> 1 <= n <= |VersionsOf(s, id)|;
    }
  }

  /** A registry that keeps its versions, and every definition, keeps what concerns versions and pointers. */
  lemma {:induction false} VersionsStay(s: Registry, s': Registry)
    requires VersionsNumbered(s) && s'.versions == s.versions
    requires forall id :: id in s.definitions ==> id in s'.definitions && s'.definitions[id] == s.definitions[id]
    requires forall k :: k in s.definitionsByKey ==>
      k in s'.definitionsByKey && s'.definitionsByKey[k] == s.definitionsByKey[k]
    ensures VersionsNumbered(s') && Grows(s, s')
  {
    hide Numbered;
  }

  lemma {:induction false} PointersStay(s: Registry, s': Registry)
    requires PointersExist(s) && s'.versions == s.versions && s'.states == s.states
    requires forall id :: id in s.definitions ==> id in s'.definitions
    ensures PointersExist(s')
  {
    hide NamesVersion, ValidEnvironment, StateKey;
    forall k | k in s'.states
      ensures var e := s'.states[k];
        k == StateKey(e.configDefinitionID, e.environment) && e.configDefinitionID in s'.definitions
        && ValidEnvironment(e.environment) && e.activeRolloutID == ""
        && NamesVersion(VersionsOf(s', e.configDefinitionID), e.stableVersionID)
    {
      assert VersionsOf(s', s'.states[k].configDefinitionID) == VersionsOf(s, s.states[k].configDefinitionID);
    }
  }

  lemma {:induction false} DefinitionKeepsKeys(s: Registry, d: Definition)
    requires KeysAgree(s) && AddDefinition(s, d).Ok? && !Blank(d.id) && NulFree(d.id)
    ensures KeysAgree(AddDefinition(s, d).value)
  {
    hide Blank, NulFree, DefinitionKey;
  }

  lemma {:induction false} PutKeepsPointers(s: Registry, e: EnvironmentState)
    requires PointersExist(s) && e.configDefinitionID in s.definitions && ValidEnvironment(e.environment)
    requires e.activeRolloutID == "" && NamesVersion(VersionsOf(s, e.configDefinitionID), e.stableVersionID)
    ensures PointersExist(PutState(s, e))
  {
    hide NamesVersion, ValidEnvironment, StateKey;
    var s' := PutState(s, e);
    assert forall id :: VersionsOf(s', id) == VersionsOf(s, id);
  }

  lemma {:induction false} TenantKeepsInv(s: Registry, t: Tenant)
    requires RegistryInv(s) && AddTenant(s, t).Ok?
    ensures RegistryInv(AddTenant(s, t).value) && Grows(s, AddTenant(s, t).value)
  {
    hide NumbersAgree, PointersExist, VersionsNumbered, Grows, Blank, NulFree, DefinitionKey;
    NumbersStay(s, AddTenant(s, t).value);
    VersionsStay(s, AddTenant(s, t).value);
    PointersStay(s, AddTenant(s, t).value);
  }

  lemma {:induction false} DefinitionKeepsInv(s: Registry, d: Definition)
    requires RegistryInv(s) && AddDefinition(s, d).Ok? && !Blank(d.id) && NulFree(d.id)
    ensures RegistryInv(AddDefinition(s, d).value) && Grows(s, AddDefinition(s, d).value)
  {
    hide NumbersAgree, PointersExist, VersionsNumbered, KeysAgree, Grows, DefinitionKey;
    DefinitionKeepsKeys(s, d);
    NumbersStay(s, AddDefinition(s, d).value);
    VersionsStay(s, AddDefinition(s, d).value);
    PointersStay(s, AddDefinition(s, d).value);
  }

  lemma {:induction false} VersionKeysDiffer(id: string, n: int, id': string, n': int)
    requires VersionKey(id, n) == VersionKey(id', n')
    ensures id == id' && n == n'
  {
    JoinIsInjectiveOnTheRight(id, Decimal(n), id', Decimal(n'));
    DecimalIsInjective(n, n');
  }

  lemma {:induction false} VersionKeepsNumbers(s: Registry, k: Checks, v: Version)
    requires NumbersAgree(s) && AddVersion(s, k, v).Ok?
    ensures NumbersAgree(AddVersion(s, k, v).value.0)
  {
    var (s', numbered) := AddVersion(s, k, v).value;
    forall id: string, n: int
      ensures VersionKey(id, n) in s'.versionsByNumber <==> 1 <= n <= |VersionsOf(s', id)|
      ensures 1 <= n <= |VersionsOf(s', id)| ==> s'.versionsByNumber[VersionKey(id, n)] == VersionsOf(s', id)[n - 1]
    {
      if VersionKey(id, n) == VersionKey(v.configDefinitionID, numbered.versionNumber) {
        VersionKeysDiffer(id, n, v.configDefinitionID, numbered.versionNumber);
      }
    }
  }

  lemma {:induction false} VersionKeepsNumbered(s: Registry, k: Checks, v: Version)
    requires VersionsNumbered(s) && AddVersion(s, k, v).Ok?
    requires !NamesVersion(VersionsOf(s, v.configDefinitionID), v.id)
    ensures VersionsNumbered(AddVersion(s, k, v).value.0)
  {
    var (s', numbered) := AddVersion(s, k, v).value;
    var id := v.configDefinitionID;
    var earlier := VersionsOf(s, id);
    assert Numbered(id, earlier);
    assert Blank("");
    assert Numbered(id, earlier + [numbered]) by {
      assert forall i :: 0 <= i < |earlier| ==> earlier[i].id != v.id;
    }
  }

  lemma {:induction false} VersionKeepsPointers(s: Registry, k: Checks, v: Version)
    requires PointersExist(s) && AddVersion(s, k, v).Ok?
    ensures PointersExist(AddVersion(s, k, v).value.0)
  {
    var (s', numbered) := AddVersion(s, k, v).value;
    forall key | key in s'.states
      ensures NamesVersion(VersionsOf(s', s'.states[key].configDefinitionID), s'.states[key].stableVersionID)
    {
      var e := s.states[key];
      var versions := VersionsOf(s, e.configDefinitionID);
      var i :| 0 <= i < |versions| && versions[i].id == e.stableVersionID;
      assert VersionsOf(s', e.configDefinitionID)[i].id == e.stableVersionID;
    }
  }

  lemma {:induction false} VersionKeepsInv(s: Registry, k: Checks, v: Version)
    requires RegistryInv(s) && AddVersion(s, k, v).Ok?
    requires !NamesVersion(VersionsOf(s, v.configDefinitionID), v.id)
    ensures RegistryInv(AddVersion(s, k, v).value.0) && Grows(s, AddVersion(s, k, v).value.0)
  {
    VersionKeepsNumbers(s, k, v);
    VersionKeepsNumbered(s, k, v);
    VersionKeepsPointers(s, k, v);
    VersionKeepsKeys(s, k, v);
    VersionGrows(s, k, v);
  }

  lemma {:induction false} VersionKeepsKeys(s: Registry, k: Checks, v: Version)
    requires KeysAgree(s) && AddVersion(s, k, v).Ok?
    ensures KeysAgree(AddVersion(s, k, v).value.0)
  {
  }

  lemma {:induction false} VersionGrows(s: Registry, k: Checks, v: Version)
    requires AddVersion(s, k, v).Ok?
    ensures Grows(s, AddVersion(s, k, v).value.0)
  {
    var s' := AddVersion(s, k, v).value.0;
    forall id | id in s.versions ensures VersionsOf(s, id) <= VersionsOf(s', id) {
    }
  }

  lemma {:induction false} StateKeepsInv(s: Registry, e: EnvironmentState)
    requires RegistryInv(s) && e.configDefinitionID in s.definitions && ValidEnvironment(e.environment)
    requires e.activeRolloutID == "" && NamesVersion(VersionsOf(s, e.configDefinitionID), e.stableVersionID)
    ensures RegistryInv(PutState(s, e)) && Grows(s, PutState(s, e))
  {
    hide NumbersAgree, PointersExist, VersionsNumbered, Grows, Blank, NulFree, DefinitionKey;
    NumbersStay(s, PutState(s, e));
    VersionsStay(s, PutState(s, e));
    PutKeepsPointers(s, e);
  }

  /** The definition found under a key whose tenant holds no NUL is the one with that tenant and key. */
  lemma {:induction false} FoundDefinitionIsTheOne(s: Registry, tenantID: string, key: string)
    requires KeysAgree(s) && FindDefinition(s, tenantID, key).Ok?
    requires NulFree(tenantID) && NulFree(FindDefinition(s, tenantID, key).value.tenantID)
    ensures var d := FindDefinition(s, tenantID, key).value; d.tenantID == tenantID && d.key == key
  {
    var d := FindDefinition(s, tenantID, key).value;
    JoinIsInjectiveOnTheLeft(d.tenantID, d.key, tenantID, key);
  }

  /** With a NUL in a tenant id, another tenant's lookup finds that tenant's definition. */
  lemma {:induction false} NulTenantsShareKeys(s: Registry, d: Definition, i: nat)
    requires KeysAgree(s) && d.id in s.definitions && s.definitions[d.id] == d
    requires i < |d.tenantID| && d.tenantID[i] == NUL
    ensures var tenantID, key := d.tenantID[..i], d.tenantID[i + 1..] + [NUL] + d.key;
      tenantID != d.tenantID && FindDefinition(s, tenantID, key) == Ok(d)
  {
    assert d.tenantID == d.tenantID[..i] + [NUL] + d.tenantID[i + 1..];
    assert DefinitionKey(d.tenantID[..i], d.tenantID[i + 1..] + [NUL] + d.key) == DefinitionKey(d.tenantID, d.key);
  }

  lemma {:induction false} NumberIsFound(s: Registry, id: string, number: int)
    requires NumbersAgree(s)
    ensures FindByNumber(s, id, number).Ok? <==> 1 <= number <= |VersionsOf(s, id)|
    ensures FindByNumber(s, id, number).Ok? ==> FindByNumber(s, id, number).value == VersionsOf(s, id)[number - 1]
  {
    assert VersionKey(id, number) in s.versionsByNumber <==> 1 <= number <= |VersionsOf(s, id)|;
  }

  lemma {:induction false} StateIsOwn(s: Registry, id: string, environment: string)
    requires PointersExist(s) && ValidEnvironment(environment)
    ensures var e := StateOrNew(s, id, environment);
      e.configDefinitionID == id && e.environment == environment && e.activeRolloutID == ""
  {
    if StateKey(id, environment) in s.states {
      var e := s.states[StateKey(id, environment)];
      JoinIsInjectiveOnTheRight(id, environment, e.configDefinitionID, e.environment);
    }
  }

  lemma {:induction false} FoundDefinitionExists(s: Registry, tenantID: string, key: string)
    requires KeysAgree(s) && FindDefinition(s, tenantID, key).Ok?
    ensures var d := FindDefinition(s, tenantID, key).value;
      d.id in s.definitions && s.definitions[d.id] == d && !Blank(d.id)
  {
  }

  /**
   * Setting a stable pointer succeeds for every existing version in every valid environment, and moves nothing else.
   */
  lemma {:induction false} SetStableSucceeds(
      s: Registry, tenantID: string, key: string, environment: string, number: int, now: Time)
    requires RegistryInv(s) && ValidEnvironment(environment) && FindDefinition(s, tenantID, key).Ok?
    requires var d := FindDefinition(s, tenantID, key).value; 1 <= number <= |VersionsOf(s, d.id)|
    ensures SetStable(s, tenantID, key, environment, number, now).Ok?
    ensures var d := FindDefinition(s, tenantID, key).value;
      var saved := SetStable(s, tenantID, key, environment, number, now).value;
      saved.1 == EnvironmentState(d.id, environment, VersionsOf(s, d.id)[number - 1].id, "", now)
      && saved.0 == PutState(s, saved.1) && RegistryInv(saved.0) && Grows(s, saved.0)
  {
    hide KeysAgree, VersionsNumbered, NumbersAgree, PointersExist, FindDefinition, FindByNumber, StateOrNew, PutState;
    hide Grows;
    var d := FindDefinition(s, tenantID, key).value;
    FoundDefinitionExists(s, tenantID, key);
    NumberIsFound(s, d.id, number);
    StateIsOwn(s, d.id, environment);
    StateKeepsInv(s, EnvironmentState(d.id, environment, VersionsOf(s, d.id)[number - 1].id, "", now));
  }

  /** It fails for any other number, so a pointer can only name an existing version. */
  lemma {:induction false} SetStableNeedsAVersion(
      s: Registry, tenantID: string, key: string, environment: string, number: int, now: Time)
    requires RegistryInv(s)
    ensures SetStable(s, tenantID, key, environment, number, now).Ok? <==>
      ValidEnvironment(environment) && FindDefinition(s, tenantID, key).Ok?
      && 1 <= number <= |VersionsOf(s, FindDefinition(s, tenantID, key).value.id)|
  {
    if ValidEnvironment(environment) && FindDefinition(s, tenantID, key).Ok? {
      var d := FindDefinition(s, tenantID, key).value;
      assert VersionKey(d.id, number) in s.versionsByNumber <==> 1 <= number <= |VersionsOf(s, d.id)|;
      if 1 <= number <= |VersionsOf(s, d.id)| {
        SetStableSucceeds(s, tenantID, key, environment, number, now);
      }
    }
  }

  // ----- Searches used by the rollout service and the data plane -----

  /** findVersionByNumber: index of the first version with that number, or the length. */
  function IndexByNumber(versions: seq<Version>, number: int): (i: nat)
    ensures i <= |versions|
    ensures forall j :: 0 <= j < i ==> versions[j].versionNumber != number
    ensures i < |versions| ==> versions[i].versionNumber == number
  {
    if versions == [] then 0
    else if versions[0].versionNumber == number then 0
    else 1 + IndexByNumber(versions[1..], number)
  }

  /** findVersionByID. */
  function IndexByID(versions: seq<Version>, id: string): (i: nat)
    ensures i <= |versions|
    ensures forall j :: 0 <= j < i ==> versions[j].id != id
    ensures i < |versions| ==> versions[i].id == id
  {
    if versions == [] then 0
    else if versions[0].id == id then 0
    else 1 + IndexByID(versions[1..], id)
  }
}
