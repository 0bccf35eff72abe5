/** Operation and step statuses, and the table of allowed changes between them. */
module ActionStatuses {
  datatype ActionStatus =
    | Pending
    | Authorized
    | Validated
    | Executing
    | Verifying
    | Succeeded
    | Rejected
    | Failed
    | TimedOut
    | Cancelled
    | Indeterminate

  datatype VerificationState =
    VerificationNotStarted | VerificationPending | Verified | VerificationFailed | VerificationUnknown

  datatype RecoveryState = RecoveryNone | RecoveredPreExecution | OutcomeUnknown

  datatype ExternalEffect = EffectNotStarted | EffectCompleted | EffectPossiblyActive

  predicate IsTerminal(s: ActionStatus) {
    s in {Succeeded, Rejected, Failed, TimedOut, Cancelled, Indeterminate}
  }

  /** Work may be under way: the operation is between its first dispatch and its verdict. */
  predicate IsActive(s: ActionStatus) {
    s == Executing || s == Verifying
  }

  function AllowedTransitions(s: ActionStatus): set<ActionStatus> {
    match s
    case Pending => {Authorized, Rejected, Cancelled}
    case Authorized => {Validated, Rejected, Cancelled}
    case Validated => {Executing, Rejected, Cancelled}
    case Executing => {Verifying, Failed, TimedOut, Cancelled, Indeterminate}
    case Verifying => {Succeeded, Failed, TimedOut, Cancelled, Indeterminate}
    case _ => {}
  }

  predicate TransitionAllowed(from: ActionStatus, to: ActionStatus) {
    to in AllowedTransitions(from)
  }

  /** Recovery has its own, wider table: it may also reject a step that was executing. */
  predicate RecoveryAllowed(from: ActionStatus, to: ActionStatus) {
    if to == Indeterminate then IsActive(from) else from in {Pending, Authorized, Validated, Executing}
  }

  /** An external effect is classified once, and only after dispatch was authorised. */
  predicate EffectChangeAllowed(from: ExternalEffect, to: ExternalEffect, dispatched: bool) {
    from == to || (from == EffectNotStarted && to != EffectNotStarted && dispatched)
  }

  /** A finished step may only leave its effect open when it is quarantined. */
  predicate TerminalEffectAllowed(s: ActionStatus, effect: ExternalEffect) {
    effect == EffectPossiblyActive ==> s == Indeterminate
  }
}
