/** The capability service's writes to the row in force and the revisions kept.
    app/service/capabilities.py:61-160. */
module CapabilityService {
  import opened Outcomes
  import opened CapabilityCatalog

  class CapabilityService {
    const small: Catalog -> bool
    var revision: nat
    var configuration: Catalog
    var history: map<nat, Catalog>

    ghost function View(): State
      reads this
    {
      State(revision, configuration, history)
    }

    constructor (small: Catalog -> bool, c: Catalog)
      ensures this.small == small && View() == Initial(c)
    {
      this.small := small;
      revision, configuration, history := 1, c, map[1 := c];
    }

    /** `persist`. */
    method Persist(c: Catalog)
      modifies this
      ensures View() == Persisted(old(View()), c)
    {
      revision := revision + 1;
      configuration := c;
      history := history[revision := configuration];
    }

    /** `update_runtime`. */
    method ChangePolicy(p: Policy, expected: nat, reachable: bool) returns (error: Option<ErrorCode>)
      modifies this
      ensures UpdateRuntime(old(View()), small, p, expected, reachable) ==
                (if error.None? then Ok(View()) else Raised(error.value))
      ensures error.Some? ==> View() == old(View())
    {
      if revision != expected { return Some(CapabilityRevisionConflict); }
      if p.SandboxPolicy? && (SANDBOX in configuration.tools || SANDBOX in configuration.retiredTools) {
        return Some(SandboxIdentityConflict);
      }
      if p.SqlPolicy? && p.sql.enabled && !reachable { return Some(SqlConfigurationError); }
      var raw := configuration;
      match p {
        case SqlPolicy(d) => raw := raw.(sql := Some(Versioned(if raw.sql.Some? then raw.sql.value.version + 1 else 1, d)));
        case WebPolicy(d) => raw := raw.(web := Some(Versioned(if raw.web.Some? then raw.web.value.version + 1 else 1, d)));
        case SandboxPolicy(d) => raw := raw.(sandbox := Some(Versioned(if raw.sandbox.Some? then raw.sandbox.value.version + 1 else 1, d)));
      }
      if !Coherent(raw, small) { return Some(ValueError); }
      Persist(raw);
      return None;
    }

    /** The catalog with a declaration under its next version. */
    method Amend(d: Declaration) returns (raw: Catalog)
      ensures raw == WithDeclaration(configuration, d)
    {
      raw := configuration;
      match d {
        case OfSkill(k) =>
          var version, builtin := 1, false;
          if k.name in raw.skills { version, builtin := raw.skills[k.name].version + 1, raw.skills[k.name].builtin; }
          raw := raw.(skills := raw.skills[k.name := Registered(version, builtin, k)]);
        case OfTool(t) =>
          var version := 1;
          if t.name in raw.tools { version := raw.tools[t.name].version + 1; }
          raw := raw.(tools := raw.tools[t.name := Versioned(version, t)]);
      }
    }

    /** `change` with a declaration. */
    method Register(d: Declaration, expected: nat, create: bool, secrets: set<Name>) returns (error: Option<ErrorCode>)
      modifies this
      ensures Declare(old(View()), small, d, expected, create, secrets) == (if error.None? then Ok(View()) else Raised(error.value))
      ensures error.Some? ==> View() == old(View())
    {
      if d.OfTool? && d.tool.name in RESERVED { return Some(BuiltinToolProtected); }
      if revision != expected { return Some(CapabilityRevisionConflict); }
      if d.OfTool? && d.tool.name == SANDBOX && configuration.sandbox.Some? { return Some(BuiltinToolProtected); }
      if create && Listed(configuration, d) { return Some(CapabilityExists); }
      if !create && !Listed(configuration, d) { return Some(NotFound); }
      if Gone(configuration, d) { return Some(CapabilityRetired); }
      if exists n | n in SecretsOf(d) :: n !in secrets { return Some(CapabilitySecretNotAllowed); }
      var raw := Amend(d);
      if !Coherent(raw, small) { return Some(InvalidCapabilityDependencies); }
      Persist(raw);
      return None;
    }

    /** `change` with `delete`, for a tool. */
    method RemoveTool(n: Name, expected: nat) returns (error: Option<ErrorCode>)
      modifies this
      ensures DeleteTool(old(View()), small, n, expected) == (if error.None? then Ok(View()) else Raised(error.value))
      ensures error.Some? ==> View() == old(View())
    {
      if n in RESERVED { return Some(BuiltinToolProtected); }
      if revision != expected { return Some(CapabilityRevisionConflict); }
      if n == SANDBOX && configuration.sandbox.Some? { return Some(BuiltinToolProtected); }
      if n !in configuration.tools { return Some(NotFound); }
      if exists k | k in configuration.skills :: n in configuration.skills[k].declaration.tools { return Some(CapabilityInUse); }
      var raw := configuration.(tools := configuration.tools - {n});
      raw := raw.(retiredTools := raw.retiredTools + [n]);
      if !Coherent(raw, small) { return Some(InvalidCapabilityDependencies); }
      Persist(raw);
      return None;
    }

    /** `change` with `delete`, for a skill. */
    method RemoveSkill(n: Name, expected: nat) returns (error: Option<ErrorCode>)
      modifies this
      ensures DeleteSkill(old(View()), small, n, expected) == (if error.None? then Ok(View()) else Raised(error.value))
      ensures error.Some? ==> View() == old(View())
    {
      if revision != expected { return Some(CapabilityRevisionConflict); }
      if n !in configuration.skills { return Some(NotFound); }
      var raw := configuration.(skills := configuration.skills - {n});
      raw := raw.(retiredSkills := raw.retiredSkills + [n]);
      if !Coherent(raw, small) { return Some(InvalidCapabilityDependencies); }
      Persist(raw);
      return None;
    }
  }
}
