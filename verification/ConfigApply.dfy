/** internal/configcode/apply.go: applying ordered manifests to the registry, and applying them again. */
module ConfigApply {
  import opened Text
  import opened Wrappers
  import opened ConfigCode
  import R = ConfigRegistry
  import ConfigStores

  /** EqualJSON, of which only reflexivity is used; whether rollouts are applied; and which ones the service starts. */
  datatype Options = Options(checks: R.Checks, same: (Raw, Raw) -> bool, includeRollouts: bool,
                             starts: Manifest -> bool)

  ghost predicate Reflexive(o: Options) {
    forall x: Raw :: o.same(x, x)
  }

  /** The id and clock reading the server uses for one document. */
  datatype Stamp = Stamp(id: string, now: R.Time)

  datatype ApplyError =
    | URLRequired | RefNotApplied(ref: string) | DifferentSchema | DifferentDefault | RolloutRefused | Unsupported
    | Refused(cause: R.RegistryError)

  datatype Status = Applied | Skipped | Planned | Failed

  datatype ApplyStep = ApplyStep(doc: Manifest, status: Status)

  type Refs = map<string, R.Version>

  /** What one document does: the registry, the reference it resolves, if it is a version, and the step's status. */
  datatype Effect = Effect(registry: Registry, resolved: Option<R.Version>, status: Status)

  function ApplyTenant(s: Registry, m: Manifest, stamp: Stamp): Result<Effect, ApplyError>
    requires m.TenantManifest?
  {
    if m.name in s.tenants then Ok(Effect(s, None, Skipped))
    else match R.CreateTenant(s, R.Tenant(m.name, m.title, m.description, m.owner, stamp.now, stamp.now))
      case Err(e) => Err(Refused(e))
      case Ok(s') => Ok(Effect(s', None, Applied))
  }

  function ApplyDefinition(o: Options, s: Registry, m: Manifest, stamp: Stamp): Result<Effect, ApplyError>
    requires m.DefinitionManifest?
  {
    match R.FindDefinition(s, m.tenant, m.key)
    case Ok(d) =>
      if !o.same(d.schema, m.schema) then Err(DifferentSchema)
      else if m.defaultValue != "" && !o.same(d.defaultValue, m.defaultValue) then Err(DifferentDefault)
      else Ok(Effect(s, None, Skipped))
    case Err(_) =>
      match R.CreateDefinition(s, o.checks, R.DefinitionInput(m.tenant, m.key, m.description, m.schema, m.defaultValue),
                               stamp.id, stamp.now)
      case Err(e) => Err(Refused(e))
      case Ok(p) => Ok(Effect(p.0, None, Applied))
  }

  /** Index of the first version with that value, or the length. */
  function FirstSame(same: (Raw, Raw) -> bool, versions: seq<R.Version>, value: Raw): (i: nat)
    ensures i <= |versions|
    ensures forall j :: 0 <= j < i ==> !same(versions[j].value, value)
    ensures i < |versions| ==> same(versions[i].value, value)
  {
    if versions == [] then 0
    else if same(versions[0].value, value) then 0
    else 1 + FirstSame(same, versions[1..], value)
  }

  function ApplyVersion(o: Options, s: Registry, m: Manifest, stamp: Stamp): Result<Effect, ApplyError>
    requires m.VersionManifest?
  {
    match R.FindDefinition(s, m.tenant, m.key)
    case Err(e) => Err(Refused(e))
    case Ok(d) =>
      match R.FindVersions(s, d.id)
      case Err(e) => Err(Refused(e))
      case Ok(versions) =>
        var i := FirstSame(o.same, versions, m.value);
        if i < |versions| then Ok(Effect(s, Some(versions[i]), Skipped))
        else match R.CreateVersion(s, o.checks,
                                   R.VersionInput(m.tenant, m.key, m.value, m.sourceCommitSHA, m.createdBy),
                                   stamp.id, stamp.now)
          case Err(e) => Err(Refused(e))
          case Ok(p) => Ok(Effect(p.0, Some(p.1), Applied))
  }

  function ApplyStable(s: Registry, refs: Refs, m: Manifest, stamp: Stamp): Result<Effect, ApplyError>
    requires m.StableManifest?
  {
    if m.versionRef !in refs then Err(RefNotApplied(m.versionRef)) else
    var desired := refs[m.versionRef];
    var state := R.EnvironmentStateOf(s, m.tenant, m.key, m.environment);
    if state.Ok? && state.value.stableVersionID == desired.id then Ok(Effect(s, None, Skipped))
    else match R.SetStable(s, m.tenant, m.key, m.environment, desired.versionNumber, stamp.now)
      case Err(e) => Err(Refused(e))
      case Ok(p) => Ok(Effect(p.0, None, Applied))
  }

  function ApplyRollout(o: Options, s: Registry, refs: Refs, m: Manifest): Result<Effect, ApplyError>
    requires m.RolloutManifest?
  {
    if !o.includeRollouts then Ok(Effect(s, None, Skipped))
    else if m.candidateVersionRef !in refs then Err(RefNotApplied(m.candidateVersionRef))
    else if !o.starts(m) then Err(RolloutRefused)
    else Ok(Effect(s, None, Applied))
  }

  function ApplyOne(o: Options, s: Registry, refs: Refs, m: Manifest, stamp: Stamp): Result<Effect, ApplyError> {
    match m
    case TenantManifest(_, _, _, _) => ApplyTenant(s, m, stamp)
    case DefinitionManifest(_, _, _, _, _, _) => ApplyDefinition(o, s, m, stamp)
    case VersionManifest(_, _, _, _, _, _) => ApplyVersion(o, s, m, stamp)
    case StableManifest(_, _, _, _, _) => ApplyStable(s, refs, m, stamp)
    case RolloutManifest(_, _, _, _, _) => ApplyRollout(o, s, refs, m)
    case UnknownManifest(_) => Err(Unsupported)
  }

  function Resolve(refs: Refs, m: Manifest, resolved: Option<R.Version>): Refs {
    match resolved case Some(v) => refs[m.name := v] case None => refs
  }

  /** ApplyDocuments so far: a failing document stops it, and is the last step reported. */
  datatype Progress = Progress(registry: Registry, refs: Refs, steps: seq<ApplyStep>, error: Option<ApplyError>)

  function ApplyAll(o: Options, s: Registry, docs: seq<Manifest>, stamps: nat -> Stamp): Progress {
    if docs == [] then Progress(s, map[], [], None)
    else
      var before := ApplyAll(o, s, docs[..|docs| - 1], stamps);
      var m := docs[|docs| - 1];
      if before.error.Some? then before
      else match ApplyOne(o, before.registry, before.refs, m, stamps(|docs| - 1))
        case Err(e) => before.(steps := before.steps + [ApplyStep(m, Failed)], error := Some(e))
        case Ok(e) =>
          Progress(e.registry, Resolve(before.refs, m, e.resolved), before.steps + [ApplyStep(m, e.status)], None)
  }

  /** What a dry run reports. */
  function Plan(docs: seq<Manifest>): (steps: seq<ApplyStep>)
    ensures |steps| == |docs| && forall i :: 0 <= i < |docs| ==> steps[i] == ApplyStep(docs[i], Planned)
  {
    seq(|docs|, i requires 0 <= i < |docs| => ApplyStep(docs[i], Planned))
  }

  /** The registry moved from `s` to `s'`, and the answer is, as `expected` says; a refusal changes nothing. */
  predicate Matches(s: Registry, s': Registry, expected: Result<Effect, ApplyError>,
                    result: Result<(Option<R.Version>, Status), ApplyError>)
  {
    match expected
    case Ok(e) => result == Ok((e.resolved, e.status)) && s' == e.registry
    case Err(e) => result == Err(e) && s' == s
  }

  // ----- The code -----

  class Applier {
    const registry: ConfigStores.Service
    const baseURL: string
    const dryRun: bool
    const same: (Raw, Raw) -> bool
    const includeRollouts: bool
    const starts: Manifest -> bool

    constructor (registry: ConfigStores.Service, baseURL: string, dryRun: bool, same: (Raw, Raw) -> bool,
                 includeRollouts: bool, starts: Manifest -> bool)
      ensures this.registry == registry && this.baseURL == baseURL && this.dryRun == dryRun && this.same == same
      ensures this.includeRollouts == includeRollouts && this.starts == starts
    {
      this.registry, this.baseURL, this.dryRun, this.same := registry, baseURL, dryRun, same;
      this.includeRollouts, this.starts := includeRollouts, starts;
    }

    function Settings(): Options {
      Options(registry.checks, same, includeRollouts, starts)
    }

    method DoTenant(m: Manifest, stamp: Stamp) returns (result: Result<(Option<R.Version>, Status), ApplyError>)
      requires m.TenantManifest?
      modifies registry.store
      ensures Matches(old(registry.store.State()), registry.store.State(),
                      ApplyTenant(old(registry.store.State()), m, stamp), result)
    {
      var existing := registry.store.GetTenant(m.name);
      if existing.Ok? {
        return Ok((None, Skipped));
      }
      var created := registry.CreateTenant(R.Tenant(m.name, m.title, m.description, m.owner, stamp.now, stamp.now));
      result := match created case Ok(_) => Ok((None, Applied)) case Err(e) => Err(Refused(e));
    }

    method DoDefinition(m: Manifest, stamp: Stamp) returns (result: Result<(Option<R.Version>, Status), ApplyError>)
      requires m.DefinitionManifest?
      modifies registry.store
      ensures Matches(old(registry.store.State()), registry.store.State(),
                      ApplyDefinition(Settings(), old(registry.store.State()), m, stamp), result)
    {
      var existing := registry.GetDefinition(m.tenant, m.key);
      match existing {
        case Ok(d) =>
          if !same(d.schema, m.schema) {
            return Err(DifferentSchema);
          }
          if m.defaultValue != "" && !same(d.defaultValue, m.defaultValue) {
            return Err(DifferentDefault);
          }
          result := Ok((None, Skipped));
        case Err(_) =>
          var input := R.DefinitionInput(m.tenant, m.key, m.description, m.schema, m.defaultValue);
          var created := registry.CreateDefinition(input, stamp.id, stamp.now);
          result := match created case Ok(_) => Ok((None, Applied)) case Err(e) => Err(Refused(e));
      }
    }

    method DoVersion(m: Manifest, stamp: Stamp) returns (result: Result<(Option<R.Version>, Status), ApplyError>)
      requires m.VersionManifest?
      modifies registry.store
      ensures Matches(old(registry.store.State()), registry.store.State(),
                      ApplyVersion(Settings(), old(registry.store.State()), m, stamp), result)
    {
      var listed := registry.ListVersions(m.tenant, m.key);
      match listed {
        case Err(e) => return Err(Refused(e));
        case Ok(versions) =>
          for i := 0 to |versions|
            invariant registry.store.State() == old(registry.store.State())
            invariant FirstSame(same, versions, m.value) >= i
          {
            if same(versions[i].value, m.value) {
              return Ok((Some(versions[i]), Skipped));
            }
          }
          var input := R.VersionInput(m.tenant, m.key, m.value, m.sourceCommitSHA, m.createdBy);
          var created := registry.CreateVersion(input, stamp.id, stamp.now);
          result := match created case Ok(v) => Ok((Some(v), Applied)) case Err(e) => Err(Refused(e));
      }
    }

    method DoStable(m: Manifest, refs: Refs, stamp: Stamp)
      returns (result: Result<(Option<R.Version>, Status), ApplyError>)
      requires m.StableManifest?
      modifies registry.store
      ensures Matches(old(registry.store.State()), registry.store.State(),
                      ApplyStable(old(registry.store.State()), refs, m, stamp), result)
    {
      if m.versionRef !in refs {
        return Err(RefNotApplied(m.versionRef));
      }
      var desired := refs[m.versionRef];
      var state := registry.GetEnvironmentState(m.tenant, m.key, m.environment);
      if state.Ok? && state.value.stableVersionID == desired.id {
        return Ok((None, Skipped));
      }
      var moved := registry.SetStableVersion(m.tenant, m.key, m.environment, desired.versionNumber, stamp.now);
      result := match moved case Ok(_) => Ok((None, Applied)) case Err(e) => Err(Refused(e));
    }

    method DoDocument(m: Manifest, refs: Refs, stamp: Stamp)
      returns (result: Result<(Option<R.Version>, Status), ApplyError>)
      modifies registry.store
      ensures dryRun ==> result == Ok((None, Planned)) && registry.store.State() == old(registry.store.State())
      ensures !dryRun ==> Matches(old(registry.store.State()), registry.store.State(),
                                  ApplyOne(Settings(), old(registry.store.State()), refs, m, stamp), result)
    {
      if dryRun {
        return Ok((None, Planned));
      }
      hide ApplyTenant, ApplyDefinition, ApplyVersion, ApplyStable;
      match m {
        case TenantManifest(_, _, _, _) => result := DoTenant(m, stamp);
        case DefinitionManifest(_, _, _, _, _, _) => result := DoDefinition(m, stamp);
        case VersionManifest(_, _, _, _, _, _) => result := DoVersion(m, stamp);
        case StableManifest(_, _, _, _, _) => result := DoStable(m, refs, stamp);
        case RolloutManifest(_, _, _, _, ref) =>
          if !includeRollouts {
            return Ok((None, Skipped));
          }
          if ref !in refs {
            return Err(RefNotApplied(ref));
          }
          result := if starts(m) then Ok((None, Applied)) else Err(RolloutRefused);
        case UnknownManifest(_) => result := Err(Unsupported);
      }
    }

    /**
     * Without a URL nothing is done, a dry run only plans, and otherwise the ordered documents are applied one by one.
     */
    method ApplyDocuments(docs: seq<Manifest>, stamps: nat -> Stamp)
      returns (report: seq<ApplyStep>, error: Option<ApplyError>)
      modifies registry.store
      ensures Blank(baseURL) && !dryRun ==>
        report == [] && error == Some(URLRequired) && registry.store.State() == old(registry.store.State())
      ensures dryRun ==>
        report == Plan(Ordered(docs)) && error == None && registry.store.State() == old(registry.store.State())
      ensures !Blank(baseURL) && !dryRun ==>
        var done := ApplyAll(Settings(), old(registry.store.State()), Ordered(docs), stamps);
        report == done.steps && error == done.error && registry.store.State() == done.registry
    {
      hide ApplyOne, Ordered, Blank;
      if Blank(baseURL) && !dryRun {
        return [], Some(URLRequired);
      }
      var ordered := OrderDocuments(docs);
      var refs: Refs := map[];
      report := [];
      for i := 0 to |ordered|
        invariant dryRun ==> report == Plan(ordered[..i]) && registry.store.State() == old(registry.store.State())
        invariant !dryRun ==>
          ApplyAll(Settings(), old(registry.store.State()), ordered[..i], stamps)
          == Progress(registry.store.State(), refs, report, None)
      {
        assert ordered[..i + 1][..i] == ordered[..i];
        var outcome := DoDocument(ordered[i], refs, stamps(i));
        match outcome {
          case Err(e) =>
            StoppedStays(Settings(), old(registry.store.State()), ordered, i + 1, stamps);
            return report + [ApplyStep(ordered[i], Failed)], Some(e);
          case Ok(p) =>
            refs := Resolve(refs, ordered[i], p.0);
            report := report + [ApplyStep(ordered[i], p.1)];
            assert dryRun ==> report == Plan(ordered[..i + 1]);
        }
      }
      assert ordered[..|ordered|] == ordered;
      error := None;
    }
  }

  lemma {:induction false} StoppedStays(o: Options, s: Registry, docs: seq<Manifest>, i: nat, stamps: nat -> Stamp)
    requires i <= |docs| && ApplyAll(o, s, docs[..i], stamps).error.Some?
    ensures ApplyAll(o, s, docs, stamps) == ApplyAll(o, s, docs[..i], stamps)
    decreases |docs|
  {
    if i < |docs| {
      var front := docs[..|docs| - 1];
      assert front[..i] == docs[..i];
      StoppedStays(o, s, front, i, stamps);
    } else {
      assert docs[..i] == docs;
    }
  }
}
