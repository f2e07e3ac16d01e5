/** Freezing the tools of a run against one catalog revision, and checking them again before use.
    app/service/capabilities.py:174-258,291-323, app/entity/bo/capabilities.py:284-320. */
module CapabilityExecution {
  import opened Outcomes
  import opened CapabilityCatalog

  /** The server's settings and secrets, as both calls see them. */
  datatype Server = Server(sandboxes: bool, approvals: bool, runs: bool, database: bool, fallback: Sql,
                           secrets: set<Name>, connection: Option<string>)

  datatype Reason = Disabled | ApprovalNotAvailable | PermissionRequired | NotConfigured | Deleted

  datatype Mode = KnowledgeMode | SqlMode | WebMode | AutoMode

  /** `sql_policy`. */
  function SqlOf(v: Server, c: Catalog): Sql { if c.sql.Some? then c.sql.value.declaration else v.fallback }

  function BuiltinReason(v: Server, c: Catalog, n: Name): Option<Reason>
  {
    if n == SQL && !SqlOf(v, c).enabled then Some(if c.sql.Some? then Disabled else NotConfigured)
    else if n == SQL && !v.database then Some(NotConfigured)
    else if n == WEB && c.web.Some? && !c.web.value.declaration.enabled then Some(Disabled)
    else None
  }

  /** `tool_reason`. */
  function ToolReason(v: Server, c: Catalog, role: Role, n: Name): Option<Reason>
  {
    if n == SANDBOX && c.sandbox.Some? then
      if !v.sandboxes || !c.sandbox.value.declaration.enabled then Some(Disabled)
      else if !v.approvals || !v.runs then Some(ApprovalNotAvailable)
      else if role != Admin then Some(PermissionRequired) else None
    else if n in BUILTINS then BuiltinReason(v, c, n)
    else if n !in c.tools then Some(Deleted)
    else
      var t := c.tools[n].declaration;
      if !t.enabled then Some(Disabled)
      else if t.roles != [] && role !in t.roles then Some(PermissionRequired)
      else if exists k | k in t.secrets :: k !in v.secrets then Some(NotConfigured)
      else if !t.approval then None
      else if !v.approvals then Some(ApprovalNotAvailable)
      else if role != Admin then Some(PermissionRequired) else None
  }

  function FirstReason(v: Server, c: Catalog, role: Role, tools: seq<Name>): Option<Reason>
  {
    if tools == [] then None
    else if ToolReason(v, c, role, tools[0]).Some? then ToolReason(v, c, role, tools[0])
    else FirstReason(v, c, role, tools[1..])
  }

  /** `skill_reason`. */
  function SkillReason(v: Server, c: Catalog, role: Role, n: Name): Option<Reason>
  {
    if n !in c.skills then Some(Deleted)
    else
      var s := c.skills[n].declaration;
      if !s.enabled then Some(Disabled)
      else if s.roles != [] && role !in s.roles then Some(PermissionRequired)
      else if exists k | k in s.secrets :: k !in v.secrets then Some(NotConfigured)
      else FirstReason(v, c, role, s.tools)
  }

  /** A frozen execution; the approved tools are kept sorted, so as a set. */
  datatype Execution = Execution(revision: nat, catalog: Catalog, skill: Option<Name>, mode: Mode, allowed: seq<Name>,
                                 approved: set<Name>, sql: Option<Sql>, connection: Option<string>)

  predicate InMode(c: Catalog, mode: Mode, n: Name)
  {
    if n in BuiltinsOf(c) then
      match mode
      case KnowledgeMode => n == RAG
      case SqlMode => n == SQL
      case WebMode => n == WEB
      case AutoMode => true
    else mode.WebMode? || mode.AutoMode?
  }

  predicate Unrepeated(s: seq<Name>) { forall i, k | 0 <= i < k < |s| :: s[i] != s[k] }

  /** The tools are known, each once, fit the mode, and belong to the skill. */
  predicate ScopeFits(x: Execution)
  {
    && (x.skill.Some? ==> x.skill.value in x.catalog.skills)
    && Unrepeated(x.allowed) && (forall n | n in x.allowed :: n in BuiltinsOf(x.catalog) || n in x.catalog.tools)
    && (forall n | n in x.allowed :: InMode(x.catalog, x.mode, n))
    && (x.skill.Some? ==> forall n | n in x.allowed :: n in x.catalog.skills[x.skill.value].declaration.tools)
  }

  /** Approved is what needs approval, no more and no less. */
  predicate ApprovalsFit(x: Execution)
  {
    && (forall n | n in x.allowed :: NeedsApproval(x.catalog, n) ==> n in x.approved)
    && (forall n | n in x.approved :: n in x.allowed && NeedsApproval(x.catalog, n))
  }

  predicate PoliciesFit(x: Execution)
  {
    && (SANDBOX in x.allowed && x.catalog.sandbox.Some? ==> x.catalog.sandbox.value.declaration.enabled)
    && (SQL in x.allowed ==> x.sql.Some? && x.sql.value.enabled && x.connection.Some?)
    && (SQL in x.allowed && x.catalog.sql.Some? ==> x.sql == Some(x.catalog.sql.value.declaration))
  }

  /** `CapabilityExecution.coherent`. */
  predicate WellFormed(x: Execution) { ScopeFits(x) && ApprovalsFit(x) && PoliciesFit(x) }

  // ---------------------------------------------------------------- freezing

  /** What a run asks for. */
  datatype Request = Request(skill: Option<Name>, mode: Mode, publicQuery: bool, approved: seq<Name>, approvalRevision: Option<nat>)

  /** The checks on approvals, before any tool is looked at. */
  function ApprovalError(v: Server, s: State, role: Role, q: Request): Option<ErrorCode>
  {
    if !Unrepeated(q.approved) then Some(InvalidToolApproval)
    else if (q.approved != []) != q.approvalRevision.Some? then Some(InvalidToolApproval)
    else if q.approved == [] then None
    else if !v.runs then Some(CapabilityDurableRunRequired)
    else if !v.approvals then Some(ToolApprovalsDisabled)
    else if role != Admin then Some(Forbidden)
    else if q.approvalRevision != Some(s.revision) then Some(CapabilityRevisionConflict)
    else if exists n | n in q.approved :: !NeedsApproval(s.configuration, n) then Some(InvalidToolApproval)
    else None
  }

  datatype Fate = Allowed | Skipped | Blocked(code: ErrorCode)

  /** One candidate: a tool a skill names must be allowed, any other may be left out. */
  function FateOf(v: Server, c: Catalog, role: Role, q: Request, n: Name): Fate
  {
    var named := q.skill.Some?;
    if !InMode(c, q.mode, n) then (if named then Blocked(SkillModeConflict) else Skipped)
    else if ToolReason(v, c, role, n).Some? then Skipped
    else if NeedsApproval(c, n) && n !in q.approved then (if named then Blocked(ToolApprovalRequired) else Skipped)
    else if n in c.tools && !q.publicQuery then (if named then Blocked(HttpToolPublicQueryRequired) else Skipped)
    else Allowed
  }

  /** The loop over the candidates. */
  function Filtered(v: Server, c: Catalog, role: Role, q: Request, candidates: seq<Name>): Outcome<seq<Name>>
  {
    if candidates == [] then Ok([])
    else
      var n := candidates[|candidates| - 1];
      var front := Filtered(v, c, role, q, candidates[..|candidates| - 1]);
      if front.Raised? then front
      else
        match FateOf(v, c, role, q, n)
        case Blocked(code) => Raised(code)
        case Skipped => front
        case Allowed => Ok(front.value + [n])
  }

  /** The custom tools in the order the catalog lists them. */
  ghost predicate Lists(c: Catalog, tools: seq<Name>)
  {
    Unrepeated(tools) && forall n :: n in tools <==> n in c.tools
  }

  function Candidates(c: Catalog, q: Request, tools: seq<Name>): seq<Name>
  {
    if q.skill.Some? && q.skill.value in c.skills then c.skills[q.skill.value].declaration.tools else BuiltinsOf(c) + tools
  }

  /** `freeze`. */
  function Freeze(v: Server, s: State, role: Role, q: Request, tools: seq<Name>): Outcome<Execution>
  {
    var c := s.configuration;
    var refused := ApprovalError(v, s, role, q);
    if refused.Some? then Raised(refused.value)
    else if q.skill.Some? && SkillReason(v, c, role, q.skill.value).Some? then Raised(SkillUnavailable)
    else
      var allowed := Filtered(v, c, role, q, Candidates(c, q, tools));
      if allowed.Raised? then Raised(allowed.code)
      else if exists n | n in q.approved :: n !in allowed.value then Raised(InvalidToolApproval)
      else if SQL in allowed.value && v.connection.None? then Raised(SqlConfigurationError)
      else
        var approved := set n | n in q.approved;
        var sql := SQL in allowed.value;
        Ok(Execution(s.revision, c, q.skill, q.mode, allowed.value, approved,
                     if sql then Some(SqlOf(v, c)) else None, if sql then v.connection else None))
  }

  // ---------------------------------------------------------------- validating

  /** `validate_execution`: every failure is reported as one changed scope.  The execution's hash is
      `digest` of its catalog, as its own validation makes sure. */
  function Validate<H(==)>(v: Server, s: State, role: Role, x: Execution, tool: Option<Name>, digest: Catalog -> H): Outcome<Execution>
  {
    if WellFormed(x) && Retained(s, x, digest) && Authorized(v, s.configuration, role, x, tool) then Ok(x)
    else Raised(CapabilityScopeChanged)
  }

  predicate Retained<H(==)>(s: State, x: Execution, digest: Catalog -> H)
  {
    x.revision in s.history && digest(s.history[x.revision]) == digest(x.catalog)
  }

  /** What the catalog in force, the role and the settings must still allow. */
  predicate Authorized(v: Server, now: Catalog, role: Role, x: Execution, tool: Option<Name>)
  {
    && (x.approved != {} ==> v.approvals && role == Admin)
    && (x.skill.Some? ==> SkillReason(v, x.catalog, role, x.skill.value).None? && SkillReason(v, now, role, x.skill.value).None?)
    && (SQL in x.allowed ==>
          && SqlOf(v, now).enabled && v.connection.Some? && x.connection == v.connection && x.sql.Some?
          && forall t | t in x.sql.value.tables :: t in SqlOf(v, now).tables)
    && (forall n | n in x.allowed :: ToolReason(v, now, role, n).None?)
    && (forall n | n in x.allowed :: NeedsApproval(now, n) ==> n in x.approved)
    && (tool.Some? ==> tool.value in x.allowed && ToolReason(v, x.catalog, role, tool.value).None?
                       && ToolReason(v, now, role, tool.value).None?)
  }

  // ---------------------------------------------------------------- what is frozen

  /** The tools frozen are the candidates allowed, and nothing was blocked. */
  lemma {:induction false} FilteredAre(v: Server, c: Catalog, role: Role, q: Request, candidates: seq<Name>, n: Name)
    requires Filtered(v, c, role, q, candidates).Ok?
    ensures n in Filtered(v, c, role, q, candidates).value <==> n in candidates && FateOf(v, c, role, q, n).Allowed?
    ensures n in candidates ==> !FateOf(v, c, role, q, n).Blocked?
  {
    if candidates != [] {
      FilteredAre(v, c, role, q, candidates[..|candidates| - 1], n);
      assert candidates == candidates[..|candidates| - 1] + [candidates[|candidates| - 1]];
    }
  }

  lemma {:induction false} FilteredOnce(v: Server, c: Catalog, role: Role, q: Request, candidates: seq<Name>)
    requires Filtered(v, c, role, q, candidates).Ok? && Unrepeated(candidates)
    ensures Unrepeated(Filtered(v, c, role, q, candidates).value)
  {
    if candidates != [] {
      var front := candidates[..|candidates| - 1];
      FilteredOnce(v, c, role, q, front);
      FilteredAre(v, c, role, q, front, candidates[|candidates| - 1]);
    }
  }

  lemma CandidatesFit(c: Catalog, small: Catalog -> bool, q: Request, tools: seq<Name>)
    requires Coherent(c, small) && Lists(c, tools) && (q.skill.Some? ==> q.skill.value in c.skills)
    ensures var all := Candidates(c, q, tools);
            Unrepeated(all) && forall n :: n in all ==> n in BuiltinsOf(c) || n in c.tools
  {
    if q.skill.Some? {
      assert SkillFits(c, q.skill.value);
    } else {
      forall n | n in BuiltinsOf(c) ensures n !in tools {}
      assert Unrepeated(BuiltinsOf(c));
    }
  }

  /** A frozen tool was a candidate, fits the mode, is available, and is approved when it must be. */
  predicate Chosen(v: Server, c: Catalog, role: Role, q: Request, tools: seq<Name>, n: Name)
  {
    && n in Candidates(c, q, tools) && InMode(c, q.mode, n) && ToolReason(v, c, role, n).None?
    && (NeedsApproval(c, n) ==> n in q.approved)
  }

  lemma FrozenAreChosen(v: Server, s: State, role: Role, q: Request, tools: seq<Name>)
    requires Freeze(v, s, role, q, tools).Ok?
    ensures forall n :: n in Freeze(v, s, role, q, tools).value.allowed ==> Chosen(v, s.configuration, role, q, tools, n)
  {
    forall n | n in Freeze(v, s, role, q, tools).value.allowed ensures Chosen(v, s.configuration, role, q, tools, n) {
      FilteredAre(v, s.configuration, role, q, Candidates(s.configuration, q, tools), n);
    }
  }

  lemma FrozenScopeFits(v: Server, s: State, small: Catalog -> bool, role: Role, q: Request, tools: seq<Name>)
    requires Coherent(s.configuration, small) && Lists(s.configuration, tools) && Freeze(v, s, role, q, tools).Ok?
    ensures ScopeFits(Freeze(v, s, role, q, tools).value)
  {
    CandidatesFit(s.configuration, small, q, tools);
    FilteredOnce(v, s.configuration, role, q, Candidates(s.configuration, q, tools));
    FrozenAreChosen(v, s, role, q, tools);
  }

  lemma FrozenApprovalsFit(v: Server, s: State, role: Role, q: Request, tools: seq<Name>)
    requires Freeze(v, s, role, q, tools).Ok?
    ensures ApprovalsFit(Freeze(v, s, role, q, tools).value)
  {
    FrozenAreChosen(v, s, role, q, tools);
  }

  /** What freezing returns is always well formed: its own validation never fails. */
  lemma FrozenIsWellFormed(v: Server, s: State, small: Catalog -> bool, role: Role, q: Request, tools: seq<Name>)
    requires Coherent(s.configuration, small) && Lists(s.configuration, tools) && Freeze(v, s, role, q, tools).Ok?
    ensures WellFormed(Freeze(v, s, role, q, tools).value)
  {
    FrozenScopeFits(v, s, small, role, q, tools);
    FrozenApprovalsFit(v, s, role, q, tools);
    FrozenAreChosen(v, s, role, q, tools);
    var x := Freeze(v, s, role, q, tools).value;
    if SQL in x.allowed { assert Chosen(v, s.configuration, role, q, tools, SQL); }
    if SANDBOX in x.allowed { assert Chosen(v, s.configuration, role, q, tools, SANDBOX); }
  }

  lemma FrozenIsAuthorized(v: Server, s: State, role: Role, q: Request, tools: seq<Name>, tool: Option<Name>)
    requires Freeze(v, s, role, q, tools).Ok?
    requires tool.Some? ==> tool.value in Freeze(v, s, role, q, tools).value.allowed
    ensures Authorized(v, s.configuration, role, Freeze(v, s, role, q, tools).value, tool)
  {
    FrozenAreChosen(v, s, role, q, tools);
    var x := Freeze(v, s, role, q, tools).value;
    if SQL in x.allowed { assert Chosen(v, s.configuration, role, q, tools, SQL); }
  }

  /** An execution just frozen passes validation, as a whole and for each of its tools, while the
      catalog, the role and the settings stay. */
  lemma FrozenValidates<H>(v: Server, s: State, small: Catalog -> bool, role: Role, q: Request, tools: seq<Name>, tool: Option<Name>, digest: Catalog -> H)
    requires Kept(s) && Coherent(s.configuration, small) && Lists(s.configuration, tools) && Freeze(v, s, role, q, tools).Ok?
    requires tool.Some? ==> tool.value in Freeze(v, s, role, q, tools).value.allowed
    ensures Validate(v, s, role, Freeze(v, s, role, q, tools).value, tool, digest) == Ok(Freeze(v, s, role, q, tools).value)
  {
    FrozenIsWellFormed(v, s, small, role, q, tools);
    FrozenIsAuthorized(v, s, role, q, tools, tool);
  }

  /** Later, whatever was updated meanwhile and however the role and the settings changed, it passes
      exactly when what is in force then still authorizes it: its revision is never lost. */
  lemma FrozenValidatesLaterExactly<H>(v: Server, s: State, small: Catalog -> bool, role: Role, q: Request, tools: seq<Name>,
                                       updates: seq<(Update, nat)>, w: Server, thenRole: Role, tool: Option<Name>, digest: Catalog -> H)
    requires Kept(s) && Coherent(s.configuration, small) && Lists(s.configuration, tools) && Freeze(v, s, role, q, tools).Ok?
    ensures var x := Freeze(v, s, role, q, tools).value; var later := After(s, small, updates);
            Validate(w, later, thenRole, x, tool, digest) ==
              if Authorized(w, later.configuration, thenRole, x, tool) then Ok(x) else Raised(CapabilityScopeChanged)
  {
    FrozenIsWellFormed(v, s, small, role, q, tools);
    AfterKeeps(s, small, updates);
  }

  // ---------------------------------------------------------------- as a loop

  /** The body of the loop: what becomes of one candidate. */
  method Judge(v: Server, c: Catalog, role: Role, q: Request, n: Name) returns (fate: Fate)
    ensures fate == FateOf(v, c, role, q, n)
  {
    var named := q.skill.Some?;
    if !InMode(c, q.mode, n) {
      if named { return Blocked(SkillModeConflict); }
      return Skipped;
    }
    if ToolReason(v, c, role, n).Some? { return Skipped; }
    if NeedsApproval(c, n) && n !in q.approved {
      if named { return Blocked(ToolApprovalRequired); }
      return Skipped;
    }
    if n in c.tools && !q.publicQuery {
      if named { return Blocked(HttpToolPublicQueryRequired); }
      return Skipped;
    }
    return Allowed;
  }

  lemma FilteredStep(v: Server, c: Catalog, role: Role, q: Request, candidates: seq<Name>, i: nat)
    requires i < |candidates|
    ensures Filtered(v, c, role, q, candidates[..i + 1]) ==
              (var front := Filtered(v, c, role, q, candidates[..i]);
               if front.Raised? then front
               else match FateOf(v, c, role, q, candidates[i])
                    case Blocked(code) => Raised(code)
                    case Skipped => front
                    case Allowed => Ok(front.value + [candidates[i]]))
  {
    assert candidates[..i + 1][..i] == candidates[..i];
  }

  /** The accumulating loop of `freeze`. */
  method Filter(v: Server, c: Catalog, role: Role, q: Request, candidates: seq<Name>) returns (allowed: Outcome<seq<Name>>)
    ensures allowed == Filtered(v, c, role, q, candidates)
  {
    var chosen: seq<Name> := [];
    for i := 0 to |candidates|
      invariant Filtered(v, c, role, q, candidates[..i]) == Ok(chosen)
    {
      FilteredStep(v, c, role, q, candidates, i);
      var fate := Judge(v, c, role, q, candidates[i]);
      if fate.Blocked? {
        BlockedStays(v, c, role, q, candidates, i + 1, fate.code);
        return Raised(fate.code);
      }
      if fate.Allowed? { chosen := chosen + [candidates[i]]; }
    }
    assert candidates[..|candidates|] == candidates;
    return Ok(chosen);
  }

  lemma {:induction false} BlockedStays(v: Server, c: Catalog, role: Role, q: Request, candidates: seq<Name>, i: nat, code: ErrorCode)
    requires i <= |candidates| && Filtered(v, c, role, q, candidates[..i]) == Raised(code)
    ensures Filtered(v, c, role, q, candidates) == Raised(code)
    decreases |candidates|
  {
    if i == |candidates| {
      assert candidates[..i] == candidates;
    } else {
      var front := candidates[..|candidates| - 1];
      assert front[..i] == candidates[..i];
      BlockedStays(v, c, role, q, front, i, code);
    }
  }
}
