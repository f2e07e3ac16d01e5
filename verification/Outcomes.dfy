/** Result types shared by the models: an optional value, and the value of a
    call that may raise an application error instead. */
module Outcomes {
  datatype Option<+T> = None | Some(value: T)

  /** The application errors the modelled code raises. */
  datatype ErrorCode =
    | RunLeaseLost | RunCancelRequested | AgentTimeout | RunEventLimit | RunEventInvalid
    | RunCheckpointDiverged | RunCheckpointLimit | RunRecoveryLimit
    | OperationAlreadyRunning | ToolOutcomeUncertain
    | InvalidClarification | InvalidResumeInput | InvalidPublicInput | PublicInputNotAllowed
    | ResumeConflict | CapabilityScopeChanged | HitlExpired
    | IdempotencyConflict | ResourceBusy | RunCapacityExceeded | Forbidden | NotFound
    | HierarchyScopeMismatch | VectorScopeMismatch | HierarchyUnavailable | HierarchyTimeout
    | MilvusUnavailable | ParentContextTimeout | HierarchyStale | ParentContextBudgetExceeded
    | InvalidCapability | CapabilityRevisionConflict | SandboxIdentityConflict | BuiltinToolProtected
    | CapabilityExists | CapabilityInUse | CapabilityRetired | CapabilitySecretNotAllowed
    | InvalidCapabilityDependencies | InvalidToolApproval | CapabilityDurableRunRequired | ToolApprovalsDisabled
    | SkillUnavailable | SkillModeConflict | ToolApprovalRequired | HttpToolPublicQueryRequired | SqlConfigurationError
    | ValueError | TypeError | KeyError

  datatype Outcome<+T> = Ok(value: T) | Raised(code: ErrorCode)

  function Min(a: real, b: real): real { if a < b then a else b }
  function Max(a: real, b: real): real { if a < b then b else a }
}
