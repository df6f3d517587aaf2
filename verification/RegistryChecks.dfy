/** What the registry asks before it takes anything up, and that therefore everything in it is valid. */
module RegistryChecks {
  import opened Text
  import opened Wrappers
  import opened ConfigRegistry

  // ----- Which requests are accepted, and what they add -----

  /** A tenant is added exactly when it has an id and a name and the id is free; nothing else changes. */
  lemma {:induction false} TenantCreatedIff(s: Registry, t: Tenant)
    ensures CreateTenant(s, t).Ok? <==> !Blank(t.id) && !Blank(t.name) && t.id !in s.tenants
    ensures CreateTenant(s, t).Ok? ==> CreateTenant(s, t).value == s.(tenants := s.tenants[t.id := t])
  {
    hide Blank;
  }

  /** The schema and, if there is one, the default value are what the validators accept. */
  predicate WellTyped(k: Checks, schema: Raw, defaultValue: Raw) {
    && schema != "" && k.validJson(schema) && k.validSchema(schema)
    && (defaultValue == "" || (k.validJson(defaultValue) && k.validValue(schema, defaultValue)))
  }

  /**
   * A definition is added exactly when its tenant is there, it is named and well typed, and its id and key are free.
   */
  lemma {:induction false} DefinitionCreatedIff(s: Registry, k: Checks, input: DefinitionInput, id: string, now: Time)
    ensures CreateDefinition(s, k, input, id, now).Ok? <==>
      && input.tenantID in s.tenants && WellTyped(k, input.schema, input.defaultValue)
      && !Blank(id) && !Blank(input.tenantID) && !Blank(input.key)
      && id !in s.definitions && Join(input.tenantID, input.key) !in s.definitionsByKey
    ensures CreateDefinition(s, k, input, id, now).Ok? ==>
      var (s', d) := CreateDefinition(s, k, input, id, now).value;
      && d.id == id && d.tenantID == input.tenantID && d.key == input.key && d.description == input.description
      && d.schema == input.schema && d.defaultValue == input.defaultValue && d.createdAt == d.updatedAt == now
      && s' == s.(definitions := s.definitions[id := d],
                  definitionsByKey := s.definitionsByKey[Join(input.tenantID, input.key) := id])
  {
    hide Blank;
  }

  /** The configuration is there and its schema accepts the value. */
  predicate Typed(s: Registry, k: Checks, input: VersionInput) {
    FindDefinition(s, input.tenantID, input.key).Ok?
    && k.validValue(FindDefinition(s, input.tenantID, input.key).value.schema, input.value)
  }

  /**
   * A version is added exactly when its configuration is there, the schema accepts the value, and the value and the id
   * are not blank; a value the schema rejects is answered as such. The new version is the last of its configuration's.
   */
  lemma {:induction false} VersionCreatedIff(s: Registry, k: Checks, input: VersionInput, id: string, now: Time)
    requires KeysAgree(s)
    ensures CreateVersion(s, k, input, id, now).Ok? <==>
      Typed(s, k, input) && !Blank(id) && input.value != "" && k.validJson(input.value)
    ensures CreateVersion(s, k, input, id, now) == Err(SchemaRejected) <==>
      FindDefinition(s, input.tenantID, input.key).Ok? && !Typed(s, k, input)
    ensures CreateVersion(s, k, input, id, now).Ok? ==>
      var (s', v) := CreateVersion(s, k, input, id, now).value;
      var d := FindDefinition(s, input.tenantID, input.key).value;
      && v.id == id && v.configDefinitionID == d.id && v.value == input.value && v.createdAt == now
      && v.sourceCommitSHA == input.sourceCommitSHA && v.createdBy == input.createdBy
      && VersionsOf(s', d.id) == VersionsOf(s, d.id) + [v] && v.versionNumber == |VersionsOf(s', d.id)|
      && (forall j :: j != d.id ==> VersionsOf(s', j) == VersionsOf(s, j))
      && s'.definitions == s.definitions && s'.states == s.states && s'.tenants == s.tenants
  {
    hide Blank, NulFree, DefinitionKey;
  }

  /**
   * A pointer that a rollout holds cannot be moved: for an existing version and environment, the request is refused as
   * a conflict exactly when the stored state names an active rollout and another version.
   */
  lemma {:induction false} HeldPointersStay(
      s: Registry, tenantID: string, key: string, environment: string, number: int, now: Time)
    requires ValidEnvironment(environment) && FindDefinition(s, tenantID, key).Ok?
    requires FindByNumber(s, FindDefinition(s, tenantID, key).value.id, number).Ok?
    ensures var id := FindDefinition(s, tenantID, key).value.id;
      var at := StateKey(id, environment);
      SetStable(s, tenantID, key, environment, number, now) == Err(Conflict) <==>
        at in s.states && !Blank(s.states[at].activeRolloutID)
        && s.states[at].stableVersionID != FindByNumber(s, id, number).value.id
  {
    hide FindDefinition, FindByNumber;
  }

  // ----- Everything in the registry is valid -----

  /** Every definition is well typed, and every version holds a value the schema of its own definition accepts. */
  predicate SchemasHold(k: Checks, s: Registry) {
    && (forall id :: id in s.definitions ==> WellTyped(k, s.definitions[id].schema, s.definitions[id].defaultValue))
    && (forall id :: id in s.versions ==>
          id in s.definitions && forall v :: v in s.versions[id] ==> Accepted(k, s.definitions[id], v))
  }

  predicate Accepted(k: Checks, d: Definition, v: Version) {
    v.value != "" && k.validJson(v.value) && k.validValue(d.schema, v.value)
  }

  lemma {:induction false} TenantKeepsSchemas(k: Checks, s: Registry, t: Tenant)
    requires SchemasHold(k, s) && CreateTenant(s, t).Ok?
    ensures SchemasHold(k, CreateTenant(s, t).value)
  {
    hide Blank, Accepted, WellTyped;
  }

  lemma {:induction false} DefinitionKeepsSchemas(k: Checks, s: Registry, input: DefinitionInput, id: string, now: Time)
    requires SchemasHold(k, s) && CreateDefinition(s, k, input, id, now).Ok?
    ensures SchemasHold(k, CreateDefinition(s, k, input, id, now).value.0)
  {
    hide Accepted, CreateDefinition, WellTyped, Join;
    DefinitionCreatedIff(s, k, input, id, now);
  }

  lemma {:induction false} VersionKeepsSchemas(k: Checks, s: Registry, input: VersionInput, id: string, now: Time)
    requires KeysAgree(s) && SchemasHold(k, s) && CreateVersion(s, k, input, id, now).Ok?
    ensures SchemasHold(k, CreateVersion(s, k, input, id, now).value.0)
  {
    hide Blank, NulFree, DefinitionKey, WellTyped;
  }

  lemma {:induction false} StateKeepsSchemas(
      k: Checks, s: Registry, tenantID: string, key: string, environment: string, number: int, now: Time)
    requires SchemasHold(k, s) && SetStable(s, tenantID, key, environment, number, now).Ok?
    ensures SchemasHold(k, SetStable(s, tenantID, key, environment, number, now).value.0)
  {
    hide Blank, Accepted, WellTyped, FindDefinition, FindByNumber, StateOrNew;
  }
}
