/** The capability catalog and its revisions: skills, HTTP tools and runtime policies, each under a
    version, every revision kept.  app/service/capabilities.py:61-160,
    app/entity/bo/capabilities.py:33-45,236-272. */
module CapabilityCatalog {
  import opened Outcomes

  type Name = string

  datatype Role = User | Admin

  /** Declarations, down to what the service looks at; `rest` stands for the other fields. */
  datatype Tool = Tool(name: Name, enabled: bool, roles: seq<Role>, secrets: seq<Name>, approval: bool, rest: int)
  datatype Skill = Skill(name: Name, enabled: bool, roles: seq<Role>, secrets: seq<Name>, tools: seq<Name>, rest: int)
  datatype Sql = Sql(enabled: bool, tables: seq<string>, rest: int)
  datatype Web = Web(enabled: bool)
  datatype Sandbox = Sandbox(enabled: bool, rest: int)

  datatype Versioned<+D> = Versioned(version: nat, declaration: D)

  /** A skill also remembers whether it was built in. */
  datatype Registered = Registered(version: nat, builtin: bool, declaration: Skill)

  datatype Catalog = Catalog(skills: map<Name, Registered>, tools: map<Name, Versioned<Tool>>,
                             retiredSkills: seq<Name>, retiredTools: seq<Name>,
                             sql: Option<Versioned<Sql>>, web: Option<Versioned<Web>>, sandbox: Option<Versioned<Sandbox>>)

  const RAG := "delegate_rag"
  const SQL := "delegate_sql"
  const WEB := "delegate_web"
  const SANDBOX := "sandbox_execute"

  const BUILTINS: seq<Name> := [RAG, SQL, WEB]

  const RESERVED: set<Name> :=
    {RAG, SQL, WEB, "search_tools", "describe_skill", "invoke_public_tool", "call_http_tool", "save_memory",
     "search_knowledge", "search_rewritten_knowledge", "search_web", "read_web_page", "crawl_fixed_sites",
     "describe_sql_schema", "execute_sql"}

  /** `builtin_tools`. */
  function BuiltinsOf(c: Catalog): seq<Name> { if c.sandbox.None? then BUILTINS else BUILTINS + [SANDBOX] }

  /** `requires_tool_approval`. */
  predicate NeedsApproval(c: Catalog, n: Name)
  {
    (n == SANDBOX && c.sandbox.Some?) || (n in c.tools && c.tools[n].declaration.approval)
  }

  predicate SkillFits(c: Catalog, n: Name)
    requires n in c.skills
  {
    var s := c.skills[n].declaration;
    && s.name == n && (forall t | t in s.tools :: t in c.tools || t in BuiltinsOf(c))
    && (forall i, k | 0 <= i < k < |s.tools| :: s.tools[i] != s.tools[k])
    && (s.enabled ==> forall t | t in s.tools :: t in c.tools ==> c.tools[t].declaration.enabled)
  }

  /** `CapabilityCatalog.coherent`; `small` is the limit on sizes. */
  predicate Coherent(c: Catalog, small: Catalog -> bool)
  {
    && (forall n | n in c.skills :: n !in c.retiredSkills) && (forall n | n in c.tools :: n !in c.retiredTools)
    && (forall n | n in c.tools :: n !in RESERVED && c.tools[n].declaration.name == n)
    && (c.sandbox.Some? ==> SANDBOX !in c.tools && SANDBOX !in c.retiredTools)
    && (forall n | n in c.skills :: SkillFits(c, n))
    && small(c)
  }

  // ---------------------------------------------------------------- revisions

  /** The row in force and the revisions kept. */
  datatype State = State(revision: nat, configuration: Catalog, history: map<nat, Catalog>)

  /** `persist`. */
  function Persisted(s: State, c: Catalog): State
  {
    State(s.revision + 1, c, s.history[s.revision + 1 := c])
  }

  datatype Policy = SqlPolicy(sql: Sql) | WebPolicy(web: Web) | SandboxPolicy(sandbox: Sandbox)

  function Next<D>(previous: Option<Versioned<D>>, d: D): Option<Versioned<D>>
  {
    Some(Versioned(if previous.Some? then previous.value.version + 1 else 1, d))
  }

  function WithPolicy(c: Catalog, p: Policy): Catalog
  {
    match p
    case SqlPolicy(d) => c.(sql := Next(c.sql, d))
    case WebPolicy(d) => c.(web := Next(c.web, d))
    case SandboxPolicy(d) => c.(sandbox := Next(c.sandbox, d))
  }

  /** `update_runtime`; `reachable` is the trial connection of an enabled SQL policy. */
  function UpdateRuntime(s: State, small: Catalog -> bool, p: Policy, expected: nat, reachable: bool): Outcome<State>
  {
    var c := s.configuration;
    if s.revision != expected then Raised(CapabilityRevisionConflict)
    else if p.SandboxPolicy? && (SANDBOX in c.tools || SANDBOX in c.retiredTools) then Raised(SandboxIdentityConflict)
    else if p.SqlPolicy? && p.sql.enabled && !reachable then Raised(SqlConfigurationError)
    else if !Coherent(WithPolicy(c, p), small) then Raised(ValueError)
    else Ok(Persisted(s, WithPolicy(c, p)))
  }

  datatype Declaration = OfSkill(skill: Skill) | OfTool(tool: Tool)

  function SecretsOf(d: Declaration): seq<Name> { if d.OfSkill? then d.skill.secrets else d.tool.secrets }

  function WithDeclaration(c: Catalog, d: Declaration): Catalog
  {
    match d
    case OfSkill(k) =>
      var previous := if k.name in c.skills then c.skills[k.name] else Registered(0, false, k);
      c.(skills := c.skills[k.name := Registered(previous.version + 1, previous.builtin, k)])
    case OfTool(t) =>
      var version := if t.name in c.tools then c.tools[t.name].version + 1 else 1;
      c.(tools := c.tools[t.name := Versioned(version, t)])
  }

  predicate Listed(c: Catalog, d: Declaration) { if d.OfSkill? then d.skill.name in c.skills else d.tool.name in c.tools }

  predicate Gone(c: Catalog, d: Declaration)
  {
    if d.OfSkill? then d.skill.name in c.retiredSkills else d.tool.name in c.retiredTools
  }

  /** A name the catalog keeps for itself. */
  predicate Protected(c: Catalog, n: Name) { n in RESERVED || (n == SANDBOX && c.sandbox.Some?) }

  /** `change` with a declaration; `secrets` are the names the server allows. */
  function Declare(s: State, small: Catalog -> bool, d: Declaration, expected: nat, create: bool, secrets: set<Name>): Outcome<State>
  {
    var c := s.configuration;
    if d.OfTool? && d.tool.name in RESERVED then Raised(BuiltinToolProtected)
    else if s.revision != expected then Raised(CapabilityRevisionConflict)
    else if d.OfTool? && Protected(c, d.tool.name) then Raised(BuiltinToolProtected)
    else if create && Listed(c, d) then Raised(CapabilityExists)
    else if !create && !Listed(c, d) then Raised(NotFound)
    else if Gone(c, d) then Raised(CapabilityRetired)
    else if exists n | n in SecretsOf(d) :: n !in secrets then Raised(CapabilitySecretNotAllowed)
    else if !Coherent(WithDeclaration(c, d), small) then Raised(InvalidCapabilityDependencies)
    else Ok(Persisted(s, WithDeclaration(c, d)))
  }

  function WithoutSkill(c: Catalog, n: Name): Catalog { c.(skills := c.skills - {n}, retiredSkills := c.retiredSkills + [n]) }

  function WithoutTool(c: Catalog, n: Name): Catalog { c.(tools := c.tools - {n}, retiredTools := c.retiredTools + [n]) }

  /** `change` with `delete`. */
  function DeleteSkill(s: State, small: Catalog -> bool, n: Name, expected: nat): Outcome<State>
  {
    var c := s.configuration;
    if s.revision != expected then Raised(CapabilityRevisionConflict)
    else if n !in c.skills then Raised(NotFound)
    else if !Coherent(WithoutSkill(c, n), small) then Raised(InvalidCapabilityDependencies)
    else Ok(Persisted(s, WithoutSkill(c, n)))
  }

  function DeleteTool(s: State, small: Catalog -> bool, n: Name, expected: nat): Outcome<State>
  {
    var c := s.configuration;
    if n in RESERVED then Raised(BuiltinToolProtected)
    else if s.revision != expected then Raised(CapabilityRevisionConflict)
    else if Protected(c, n) then Raised(BuiltinToolProtected)
    else if n !in c.tools then Raised(NotFound)
    else if exists k | k in c.skills :: n in c.skills[k].declaration.tools then Raised(CapabilityInUse)
    else if !Coherent(WithoutTool(c, n), small) then Raised(InvalidCapabilityDependencies)
    else Ok(Persisted(s, WithoutTool(c, n)))
  }

  // ---------------------------------------------------------------- what versions denote

  datatype Identity = SkillNamed(name: Name) | ToolNamed(name: Name) | TheSql | TheWeb | TheSandbox

  datatype Meaning = MeansSkill(skill: Skill) | MeansTool(tool: Tool) | MeansSql(sql: Sql) | MeansWeb(web: Web) | MeansSandbox(sandbox: Sandbox)

  /** What a catalog says under an identity: a version and its declaration. */
  function Entry(c: Catalog, id: Identity): Option<(nat, Meaning)>
  {
    match id
    case SkillNamed(n) => if n in c.skills then Some((c.skills[n].version, MeansSkill(c.skills[n].declaration))) else None
    case ToolNamed(n) => if n in c.tools then Some((c.tools[n].version, MeansTool(c.tools[n].declaration))) else None
    case TheSql => if c.sql.Some? then Some((c.sql.value.version, MeansSql(c.sql.value.declaration))) else None
    case TheWeb => if c.web.Some? then Some((c.web.value.version, MeansWeb(c.web.value.declaration))) else None
    case TheSandbox => if c.sandbox.Some? then Some((c.sandbox.value.version, MeansSandbox(c.sandbox.value.declaration))) else None
  }

  predicate Retired(c: Catalog, id: Identity)
  {
    match id
    case SkillNamed(n) => n in c.retiredSkills
    case ToolNamed(n) => n in c.retiredTools
    case _ => false
  }

  /** From one revision to the next an entry stays, takes the next version, appears under version 1
      when it was never retired, or goes and is retired. */
  predicate Moves(c: Catalog, d: Catalog, id: Identity)
  {
    var a, b := Entry(c, id), Entry(d, id);
    && (Retired(c, id) ==> Retired(d, id))
    && (b == a
        || (a.Some? && b.Some? && b.value.0 == a.value.0 + 1)
        || (a.None? && b.Some? && !Retired(c, id))
        || (a.Some? && b.None? && Retired(d, id)))
  }

  ghost predicate AllMove(c: Catalog, d: Catalog) { forall id :: Moves(c, d, id) }

  /** An entry of an old revision against the one in force: a version no newer, and the same
      declaration when it is the same version; or retired since. */
  predicate Superseded(past: Catalog, now: Catalog, id: Identity)
  {
    var a, b := Entry(past, id), Entry(now, id);
    a.Some? ==> if b.Some? then a.value.0 <= b.value.0 && (a.value.0 == b.value.0 ==> a.value.1 == b.value.1) else Retired(now, id)
  }

  /** Two revisions never give one version two meanings. */
  predicate Agree(a: Catalog, b: Catalog, id: Identity)
  {
    if Entry(a, id).Some? && Entry(b, id).Some? && Entry(a, id).value.0 == Entry(b, id).value.0
    then Entry(a, id).value.1 == Entry(b, id).value.1 else true
  }

  ghost predicate Kept(s: State)
  {
    && (forall r :: r in s.history <==> 1 <= r <= s.revision)
    && s.revision >= 1 && s.history[s.revision] == s.configuration
    && (forall id :: Retired(s.configuration, id) ==> Entry(s.configuration, id).None?)
    && (forall r, id :: r in s.history ==> Superseded(s.history[r], s.configuration, id))
    && (forall q, r, id :: q in s.history && r in s.history ==> Agree(s.history[q], s.history[r], id))
  }

  // ---------------------------------------------------------------- every update keeps it

  lemma PersistingKeeps(s: State, d: Catalog)
    requires Kept(s) && AllMove(s.configuration, d)
    requires forall id :: Retired(d, id) ==> Entry(d, id).None?
    ensures Kept(Persisted(s, d))
  {
    var v := Persisted(s, d);
    forall r, id | r in v.history ensures Superseded(v.history[r], d, id) {
      if r != v.revision { assert Superseded(s.history[r], s.configuration, id) && Moves(s.configuration, d, id); }
    }
    forall q, r, id | q in v.history && r in v.history ensures Agree(v.history[q], v.history[r], id) {
      if q != v.revision && r != v.revision {
        assert Agree(s.history[q], s.history[r], id);
      } else {
        NewestAgrees(s, d, if q != v.revision then q else r, id);
      }
    }
  }

  lemma NewestAgrees(s: State, d: Catalog, r: nat, id: Identity)
    requires Kept(s) && AllMove(s.configuration, d) && (r in s.history || r == s.revision + 1)
    ensures r in s.history ==> Agree(s.history[r], d, id) && Agree(d, s.history[r], id)
  {
    if r in s.history { assert Superseded(s.history[r], s.configuration, id) && Moves(s.configuration, d, id); }
  }

  lemma CoherentRetires(c: Catalog, small: Catalog -> bool, id: Identity)
    requires Coherent(c, small)
    ensures Retired(c, id) ==> Entry(c, id).None?
  {
  }

  lemma PolicyMoves(c: Catalog, p: Policy)
    ensures AllMove(c, WithPolicy(c, p))
  {
  }

  lemma DeclarationMoves(c: Catalog, d: Declaration)
    requires !Gone(c, d)
    ensures AllMove(c, WithDeclaration(c, d))
  {
    forall id ensures Moves(c, WithDeclaration(c, d), id) {
      if d.OfSkill? { assert id == SkillNamed(d.skill.name) || Entry(WithDeclaration(c, d), id) == Entry(c, id); }
      else { assert id == ToolNamed(d.tool.name) || Entry(WithDeclaration(c, d), id) == Entry(c, id); }
    }
  }

  lemma DeletionMoves(c: Catalog, n: Name)
    ensures n in c.skills ==> AllMove(c, WithoutSkill(c, n))
    ensures n in c.tools ==> AllMove(c, WithoutTool(c, n))
  {
    if n in c.skills {
      forall id ensures Moves(c, WithoutSkill(c, n), id) {
        assert id == SkillNamed(n) || Entry(WithoutSkill(c, n), id) == Entry(c, id);
      }
    }
    if n in c.tools {
      forall id ensures Moves(c, WithoutTool(c, n), id) {
        assert id == ToolNamed(n) || Entry(WithoutTool(c, n), id) == Entry(c, id);
      }
    }
  }

  // ---------------------------------------------------------------- histories

  datatype Update =
    | Runtime(policy: Policy, reachable: bool)
    | Declared(declaration: Declaration, create: bool, secrets: set<Name>)
    | SkillDeleted(name: Name) | ToolDeleted(name: Name)

  function Updated(s: State, small: Catalog -> bool, u: Update, expected: nat): Outcome<State>
  {
    match u
    case Runtime(p, reachable) => UpdateRuntime(s, small, p, expected, reachable)
    case Declared(d, create, secrets) => Declare(s, small, d, expected, create, secrets)
    case SkillDeleted(n) => DeleteSkill(s, small, n, expected)
    case ToolDeleted(n) => DeleteTool(s, small, n, expected)
  }

  /** Refused updates leave the catalog as it is. */
  function After(s: State, small: Catalog -> bool, updates: seq<(Update, nat)>): State
    decreases |updates|
  {
    if updates == [] then s
    else
      var next := Updated(s, small, updates[0].0, updates[0].1);
      After(if next.Ok? then next.value else s, small, updates[1..])
  }

  lemma UpdateMoves(s: State, small: Catalog -> bool, u: Update, expected: nat)
    requires Updated(s, small, u, expected).Ok?
    ensures AllMove(s.configuration, Updated(s, small, u, expected).value.configuration)
    ensures Updated(s, small, u, expected).value == Persisted(s, Updated(s, small, u, expected).value.configuration)
    ensures Coherent(Updated(s, small, u, expected).value.configuration, small) && s.revision == expected
  {
    match u {
      case Runtime(p, _) => PolicyMoves(s.configuration, p);
      case Declared(d, _, _) => DeclarationMoves(s.configuration, d);
      case SkillDeleted(n) => DeletionMoves(s.configuration, n);
      case ToolDeleted(n) => DeletionMoves(s.configuration, n);
    }
  }

  lemma UpdateKeeps(s: State, small: Catalog -> bool, u: Update, expected: nat)
    requires Kept(s) && Coherent(s.configuration, small) && Updated(s, small, u, expected).Ok?
    ensures var v := Updated(s, small, u, expected).value;
            Kept(v) && Coherent(v.configuration, small) && v.revision == s.revision + 1 == expected + 1 && Appended(s, v)
  {
    var v := Updated(s, small, u, expected).value;
    forall id ensures Retired(v.configuration, id) ==> Entry(v.configuration, id).None? { CoherentRetires(v.configuration, small, id); }
    UpdateMoves(s, small, u, expected);
    PersistingKeeps(s, v.configuration);
  }

  /** Revisions are only ever added. */
  ghost predicate Appended(s: State, v: State)
  {
    s.revision <= v.revision && forall r :: r in s.history ==> r in v.history && v.history[r] == s.history[r]
  }

  lemma {:induction false} AfterKeeps(s: State, small: Catalog -> bool, updates: seq<(Update, nat)>)
    requires Kept(s) && Coherent(s.configuration, small)
    ensures var v := After(s, small, updates); Kept(v) && Coherent(v.configuration, small) && Appended(s, v)
    decreases |updates|
  {
    if updates != [] {
      var next := Updated(s, small, updates[0].0, updates[0].1);
      if next.Ok? { UpdateKeeps(s, small, updates[0].0, updates[0].1); }
      AfterKeeps(if next.Ok? then next.value else s, small, updates[1..]);
    }
  }

  /** The state the migration leaves: one revision, kept. */
  function Initial(c: Catalog): State { State(1, c, map[1 := c]) }

  lemma InitialIsKept(c: Catalog, small: Catalog -> bool)
    requires Coherent(c, small)
    ensures Kept(Initial(c))
  {
    forall id ensures Retired(c, id) ==> Entry(c, id).None? { CoherentRetires(c, small, id); }
  }

  /** After any updates the catalog in force is its own newest revision, every revision is there,
      and a version of a skill, tool or policy has one declaration in all of them. */
  lemma OneVersionOneMeaning(c: Catalog, small: Catalog -> bool, updates: seq<(Update, nat)>, q: nat, r: nat, id: Identity)
    requires Coherent(c, small)
    ensures var v := After(Initial(c), small, updates);
            && v.revision in v.history && v.history[v.revision] == v.configuration
            && (1 <= q <= v.revision ==> q in v.history)
            && (q in v.history && r in v.history ==> Agree(v.history[q], v.history[r], id))
  {
    InitialIsKept(c, small);
    AfterKeeps(Initial(c), small, updates);
  }

  /** A name once deleted never means anything again. */
  lemma RetiredStaysRetired(s: State, small: Catalog -> bool, updates: seq<(Update, nat)>, id: Identity)
    requires Kept(s) && Coherent(s.configuration, small) && Retired(s.configuration, id)
    ensures Retired(After(s, small, updates).configuration, id) && Entry(After(s, small, updates).configuration, id).None?
    decreases |updates|
  {
    if updates == [] {
      CoherentRetires(s.configuration, small, id);
    } else {
      var next := Updated(s, small, updates[0].0, updates[0].1);
      if next.Ok? {
        UpdateKeeps(s, small, updates[0].0, updates[0].1);
        UpdateMoves(s, small, updates[0].0, updates[0].1);
        assert Moves(s.configuration, next.value.configuration, id);
      }
      RetiredStaysRetired(if next.Ok? then next.value else s, small, updates[1..], id);
    }
  }
}
