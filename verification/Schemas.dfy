/** The plan's records (agent_kernel/schemas.py) and the conversions between a legacy task and
    an executable subgoal. */
module Schemas {
  import opened PyText

  /** The status strings of a task; any other string is `Unlisted`. */
  datatype Status =
    | Pending | Draft | Ready | Running | Done | FailedRetryable | Blocked | WaitingUser
    | Failed | FailedFatal | Skipped | Unlisted(text: string)

  datatype SubgoalState = DRAFT | READY | RUNNING | DONE | FAILED_RETRYABLE | BLOCKED | FAILED_FATAL | SKIPPED

  /** A policy record; as a stored dict, 0 and "" stand for a missing key. */
  datatype RetryPolicy = RetryPolicy(maxAttempts: int, backoff: string, baseDelayMs: int)

  /** A precondition or success criterion: an operator and its (opaque) arguments. */
  datatype Check = Check(op: string, args: string)

  datatype Fallback = FallbackMap(entries: map<string, string>) | FallbackText(text: string)

  /** A task's `input_payload`: the keys the kernel interprets, and every other key. */
  datatype Payload = Payload(
    dependencies: Option<seq<string>>,
    preconditions: Option<seq<Check>>,
    successCriteria: Option<seq<Check>>,
    fallback: Option<Fallback>,
    retryPolicy: Option<RetryPolicy>,
    supervisorSource: Option<string>,
    extras: map<string, string>)

  /** `obj` is the identity of the Task object; ids may be reused, objects may not. */
  datatype Task = Task(
    obj: nat, id: string, kind: string, description: string, payload: Payload,
    priority: int, status: Status, retries: nat)

  datatype Subgoal = Subgoal(
    id: string, intent: string, executorType: string, toolName: string, inputs: Payload,
    dependencies: seq<string>, preconditions: seq<Check>, successCriteria: seq<Check>,
    fallback: map<string, string>, retryPolicy: Option<RetryPolicy>,
    state: SubgoalState, attemptCount: nat)

  const EMPTY_PAYLOAD := Payload(None, None, None, None, None, None, map[])

  predicate HasInput(p: Payload, key: string) {
    match key
    case "dependencies" => p.dependencies.Some?
    case "preconditions" => p.preconditions.Some?
    case "success_criteria" => p.successCriteria.Some?
    case "fallback" => p.fallback.Some?
    case "retry_policy" => p.retryPolicy.Some?
    case "supervisor_context" => p.supervisorSource.Some?
    case _ => key in p.extras
  }

  /* ---- parsing ---- */

  function NonBlank(xs: seq<string>): (r: seq<string>)
    ensures forall x :: x in r <==> x in xs && !Blank(x)
  {
    if xs == [] then []
    else if Blank(xs[0]) then NonBlank(xs[1..])
    else [xs[0]] + NonBlank(xs[1..])
  }

  function ParseDependencies(raw: Option<seq<string>>): seq<string> {
    if raw.Some? then NonBlank(raw.value) else []
  }

  function KeepChecks(raw: seq<Check>): seq<Check> {
    if raw == [] then []
    else if Blank(raw[0].op) then KeepChecks(raw[1..])
    else [raw[0].(op := Strip(raw[0].op))] + KeepChecks(raw[1..])
  }

  function ParseChecks(raw: Option<seq<Check>>): seq<Check> {
    if raw.Some? then KeepChecks(raw.value) else []
  }

  function ParseFallback(raw: Option<Fallback>): map<string, string> {
    match raw
    case None => map[]
    case Some(FallbackMap(m)) => m
    case Some(FallbackText(s)) => if Blank(s) then map[] else map["on_failure" := Strip(s)]
  }

  function Max(a: int, b: int): int {
    if a >= b then a else b
  }

  function OrInt(x: int, default: int): int {
    if x == 0 then default else x
  }

  function NormalPolicy(p: RetryPolicy): (r: RetryPolicy)
    ensures r.maxAttempts >= 1 && r.baseDelayMs >= 1 && r.backoff != ""
  {
    RetryPolicy(Max(1, OrInt(p.maxAttempts, 2)), OrText(p.backoff, "exponential"), Max(1, OrInt(p.baseDelayMs, 300)))
  }

  function ParseRetryPolicy(raw: Option<RetryPolicy>, retries: nat): (r: RetryPolicy)
    ensures r.maxAttempts >= 1 && r.baseDelayMs >= 1 && r.backoff != ""
  {
    match raw
    case Some(p) => NormalPolicy(p)
    case None => RetryPolicy(Max(2, retries + 1), "exponential", 300)
  }

  function ToSubgoalState(s: Status): SubgoalState {
    match s
    case Ready => READY
    case Running => RUNNING
    case Done => DONE
    case FailedRetryable => FAILED_RETRYABLE
    case Blocked => BLOCKED
    case WaitingUser => BLOCKED
    case Failed => FAILED_FATAL
    case FailedFatal => FAILED_FATAL
    case Skipped => SKIPPED
    case _ => DRAFT
  }

  function ToTaskStatus(s: SubgoalState): Status {
    match s
    case DRAFT => Draft
    case READY => Ready
    case RUNNING => Running
    case DONE => Done
    case FAILED_RETRYABLE => FailedRetryable
    case BLOCKED => Blocked
    case FAILED_FATAL => Failed
    case SKIPPED => Skipped
  }

  /* ---- conversions ---- */

  function FromTask(t: Task): Subgoal {
    Subgoal(t.id, Strip(t.description), t.kind, t.kind, t.payload,
            ParseDependencies(t.payload.dependencies),
            ParseChecks(t.payload.preconditions),
            ParseChecks(t.payload.successCriteria),
            ParseFallback(t.payload.fallback),
            Some(ParseRetryPolicy(t.payload.retryPolicy, t.retries)),
            ToSubgoalState(t.status), t.retries)
  }

  /** A parsed list replaces the stored one unless it is empty. */
  function Rewritten<T>(parsed: seq<T>, stored: Option<seq<T>>): Option<seq<T>> {
    if parsed != [] then Some(parsed) else stored
  }

  function RewrittenFallback(parsed: map<string, string>, stored: Option<Fallback>): Option<Fallback> {
    if parsed != map[] then Some(FallbackMap(parsed)) else stored
  }

  function PayloadOf(sg: Subgoal): Payload {
    sg.inputs.(
      dependencies := Rewritten(sg.dependencies, sg.inputs.dependencies),
      preconditions := Rewritten(sg.preconditions, sg.inputs.preconditions),
      successCriteria := Rewritten(sg.successCriteria, sg.inputs.successCriteria),
      fallback := RewrittenFallback(sg.fallback, sg.inputs.fallback),
      retryPolicy := if sg.retryPolicy.Some? then sg.retryPolicy else sg.inputs.retryPolicy)
  }

  function ToTask(sg: Subgoal, priority: int, obj: nat): Task {
    Task(obj, sg.id, OrText(sg.executorType, sg.toolName), sg.intent, PayloadOf(sg), priority,
         ToTaskStatus(sg.state), sg.attemptCount)
  }

  /** The round trip task -> subgoal -> task. */
  function Normalised(t: Task): Task {
    ToTask(FromTask(t), t.priority, t.obj)
  }

  /** The dependency list and retry policy the scheduler acts on. */
  function Deps(t: Task): seq<string> {
    ParseDependencies(t.payload.dependencies)
  }

  function Policy(t: Task): (r: RetryPolicy)
    ensures r.maxAttempts >= 1 && r.baseDelayMs >= 1
  {
    ParseRetryPolicy(t.payload.retryPolicy, t.retries)
  }

  predicate Canonical(s: Status) {
    s in {Draft, Ready, Running, Done, FailedRetryable, Blocked, Failed, Skipped}
  }

  /* ---- the round trip is an idempotent normalisation ---- */

  lemma {:induction false} NonBlankIdempotent(xs: seq<string>)
    ensures NonBlank(NonBlank(xs)) == NonBlank(xs)
  {
    if xs != [] {
      NonBlankIdempotent(xs[1..]);
      if !Blank(xs[0]) {
        assert NonBlank(xs)[1..] == NonBlank(xs[1..]);
      }
    }
  }

  lemma {:induction false} KeepChecksIdempotent(cs: seq<Check>)
    ensures KeepChecks(KeepChecks(cs)) == KeepChecks(cs)
  {
    if cs != [] {
      KeepChecksIdempotent(cs[1..]);
      if !Blank(cs[0].op) {
        StripIdempotent(cs[0].op);
        assert KeepChecks(cs)[1..] == KeepChecks(cs[1..]);
      }
    }
  }

  lemma {:induction false} ParseDependenciesStable(raw: Option<seq<string>>)
    ensures ParseDependencies(Rewritten(ParseDependencies(raw), raw)) == ParseDependencies(raw)
  {
    if raw.Some? { NonBlankIdempotent(raw.value); }
  }

  lemma {:induction false} ParseChecksStable(raw: Option<seq<Check>>)
    ensures ParseChecks(Rewritten(ParseChecks(raw), raw)) == ParseChecks(raw)
  {
    if raw.Some? { KeepChecksIdempotent(raw.value); }
  }

  lemma {:induction false} ParsePolicyStable(raw: Option<RetryPolicy>, retries: nat)
    ensures ParseRetryPolicy(Some(ParseRetryPolicy(raw, retries)), retries) == ParseRetryPolicy(raw, retries)
  {}

  lemma {:induction false} RoundTripKeepsParsed(t: Task)
    ensures var n := Normalised(t); Deps(n) == Deps(t) && Policy(n) == Policy(t)
  {
    ParseDependenciesStable(t.payload.dependencies);
    ParsePolicyStable(t.payload.retryPolicy, t.retries);
  }

  lemma {:induction false} SameSubgoal(a: Task, b: Task)
    requires a.id == b.id && a.kind == b.kind && a.retries == b.retries && Strip(a.description) == Strip(b.description)
    requires Deps(a) == Deps(b) && Policy(a) == Policy(b) && ToSubgoalState(a.status) == ToSubgoalState(b.status)
    requires ParseChecks(a.payload.preconditions) == ParseChecks(b.payload.preconditions)
    requires ParseChecks(a.payload.successCriteria) == ParseChecks(b.payload.successCriteria)
    requires ParseFallback(a.payload.fallback) == ParseFallback(b.payload.fallback)
    ensures FromTask(a) == FromTask(b).(inputs := a.payload)
  {}

  /** The round trip keeps everything the scheduler looks at. */
  lemma {:induction false} RoundTripKeepsSchedulingView(t: Task)
    ensures var n := Normalised(t);
            && n.obj == t.obj && n.id == t.id && n.priority == t.priority && n.retries == t.retries
            && n.kind == t.kind
            && Deps(n) == Deps(t) && Policy(n) == Policy(t)
            && ToSubgoalState(n.status) == ToSubgoalState(t.status)
            && FromTask(n) == FromTask(t).(inputs := n.payload)
  {
    RoundTripKeepsParsed(t);
    RoundTripKeepsChecks(t);
    StripIdempotent(t.description);
    SameSubgoal(Normalised(t), t);
  }

  lemma {:induction false} RoundTripKeepsChecks(t: Task)
    ensures var p := Normalised(t).payload;
            && ParseChecks(p.preconditions) == ParseChecks(t.payload.preconditions)
            && ParseChecks(p.successCriteria) == ParseChecks(t.payload.successCriteria)
            && ParseFallback(p.fallback) == ParseFallback(t.payload.fallback)
  {
    ParseChecksStable(t.payload.preconditions);
    ParseChecksStable(t.payload.successCriteria);
  }

  /** Converting twice is converting once. */
  lemma {:induction false} RoundTripIdempotent(t: Task)
    ensures Normalised(Normalised(t)) == Normalised(t)
  {
    RoundTripKeepsSchedulingView(t);
  }

  /** The status maps are inverse to each other on the canonical statuses, and only there. */
  lemma {:induction false} StatusMapsInverse(s: Status, st: SubgoalState)
    ensures ToSubgoalState(ToTaskStatus(st)) == st
    ensures ToTaskStatus(ToSubgoalState(s)) == s <==> Canonical(s)
  {}
}
