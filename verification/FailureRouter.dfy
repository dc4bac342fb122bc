/** Routing of a failed execution (agent_kernel/failure_router.py). The keyword searches in the error
    text are represented by their outcomes; the fingerprint is an arbitrary string. */
module FailureRouter {
  import opened CompileCheck

  datatype FailureCategory =
    | MissingInput | TransientToolError | AuthError | PermissionDenied | EnvironmentMissing
    | GoalNotExecutable | CapabilityGap | LogicConflict | RepeatedSameError | Unknown

  datatype RouteAction = AskUser | Retry | RepairAuth | LocalReplanWithConstraints | LocalReplan | CircuitBreak

  datatype Decision = Decision(category: FailureCategory, action: RouteAction, fingerprint: string)

  /** Which of the keyword lists match the normalised error text. */
  datatype KeywordHits = KeywordHits(
    missingInput: bool, auth: bool, permission: bool, environment: bool,
    retryable: bool, notExecutable: bool, capability: bool, logic: bool)

  function CountOf(xs: seq<string>, x: string): nat {
    if xs == [] then 0
    else CountOf(xs[..|xs| - 1], x) + (if xs[|xs| - 1] == x then 1 else 0)
  }

  /** `ownCodes`: the compile issues reported for the failing subgoal itself. */
  function Classify(fingerprint: string, ownCodes: set<Code>, prior: seq<string>, hits: KeywordHits): Decision {
    if CountOf(prior, fingerprint) >= 2 then Decision(RepeatedSameError, CircuitBreak, fingerprint)
    else if InputSchemaIncomplete in ownCodes || PreconditionNotEvaluable in ownCodes then
      Decision(MissingInput, AskUser, fingerprint)
    else if hits.missingInput then Decision(MissingInput, AskUser, fingerprint)
    else if hits.auth then Decision(AuthError, RepairAuth, fingerprint)
    else if hits.permission then Decision(PermissionDenied, AskUser, fingerprint)
    else if hits.environment then Decision(EnvironmentMissing, AskUser, fingerprint)
    else if hits.retryable then Decision(TransientToolError, Retry, fingerprint)
    else if hits.notExecutable then Decision(GoalNotExecutable, AskUser, fingerprint)
    else if hits.capability then Decision(CapabilityGap, LocalReplanWithConstraints, fingerprint)
    else if hits.logic then Decision(LogicConflict, LocalReplan, fingerprint)
    else Decision(Unknown, LocalReplan, fingerprint)
  }

  predicate IsRetryable(d: Decision) {
    d.action == Retry && d.category == TransientToolError
  }

  /** The error text asks for something only the user can give. */
  predicate NeedsUser(hits: KeywordHits) {
    hits.missingInput || hits.auth || hits.permission || hits.environment
  }

  /** The circuit breaks exactly on the third occurrence of a fingerprint, whatever the text says; a
      retry happens exactly for transient errors, and never for an error that needs the user. */
  lemma {:induction false} RoutingDiscipline(fp: string, ownCodes: set<Code>, prior: seq<string>, hits: KeywordHits)
    ensures var d := Classify(fp, ownCodes, prior, hits);
            && d.fingerprint == fp
            && (d.action == CircuitBreak <==> CountOf(prior + [fp], fp) >= 3)
            && (d.action == Retry <==> IsRetryable(d))
            && (IsRetryable(d) ==>
                hits.retryable && !hits.missingInput && !hits.auth && !hits.permission && !hits.environment)
            && (d.category == RepeatedSameError <==> d.action == CircuitBreak)
  {
    assert (prior + [fp])[..|prior|] == prior;
  }
}
