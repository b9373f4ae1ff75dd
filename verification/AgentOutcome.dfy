/** One agent run: from the backend's result, or whatever threw, to the outcome that callers see. */
module AgentOutcome {
  import opened Collections
  import opened AgentHook

  datatype Code = Ok | Error | Cancelled | Timeout | BudgetExhausted | Rejection | Suspended | Skipped
  datatype Kind = Provider | Callback | Validation | TimeoutKind | Cancellation | Budget | Unknown

  /** What `classifyRunFailure` can tell about an error. */
  datatype Class = TokenBudget | CostBudget | CallTimeout | RoutingTimeout | Abort | DurableApproval | Plain
  datatype Failure = Failure(errorClass: Class, hasHttpStatus: bool, message: string)

  datatype Attempt<+T> = Threw(failure: Failure) | Returned(value: T)

  datatype Usage = Usage(input: nat, output: nat)
  const ZERO: Usage := Usage(0, 0)

  function Add(a: Usage, b: Usage): Usage { Usage(a.input + b.input, a.output + b.output) }

  /** What a backend hands back. */
  datatype RunResult = RunResult(
    output: string, messages: seq<Message>, usage: Usage,
    suspended: bool, budgetExceeded: bool, aborted: bool, loopDetected: bool, pendingApprovals: bool)

  datatype AgentResult = AgentResult(
    success: bool, identity: nat, status: Option<Code>, errorInfo: Option<Kind>,
    output: string, messages: seq<Message>, usage: Usage, structured: Option<nat>,
    loopDetected: bool, budgetExceeded: bool, pendingApprovals: bool, error: Option<Failure>)

  // ---- classification (observability/status.ts) -------------------------------------------

  datatype Classified = Classified(code: Code, kind: Kind)

  function Classify(f: Failure, kind: Option<Kind>, code: Code, provider: bool): Classified {
    match f.errorClass
    case TokenBudget | CostBudget => Classified(BudgetExhausted, Budget)
    case CallTimeout | RoutingTimeout => Classified(Timeout, TimeoutKind)
    case Abort => Classified(Cancelled, Cancellation)
    case _ =>
      Classified(code, if kind.Some? then kind.value else if f.hasHttpStatus || provider then Provider else Unknown)
  }

  const BUDGET_FAILURE: Failure := Failure(TokenBudget, false, "budget")
  const TIMEOUT_FAILURE: Failure := Failure(Plain, false, "timeout")
  const ABORT_FAILURE: Failure := Failure(Abort, false, "Run cancelled by caller.")
  const SCHEMA_FAILURE: Failure := Failure(Plain, false, "Structured output validation failed after retry.")

  // ---- result mapping ---------------------------------------------------------------------

  function ToAgentResult(r: RunResult, success: bool, structured: Option<nat>, id: nat, code: Code,
                         errorInfo: Option<Kind>): AgentResult {
    AgentResult(success, id, Some(code), errorInfo, r.output, r.messages, r.usage, structured,
                r.loopDetected, r.budgetExceeded, r.pendingApprovals, None)
  }

  /** Runtime-required fields restored after a hook ran. */
  function Ensure(r: AgentResult, id: nat): AgentResult {
    var budget := Classify(BUDGET_FAILURE, None, Error, false);
    var status :=
      if r.budgetExceeded then Some(budget.code)
      else if r.success && r.status != Some(Ok) then Some(Ok)
      else if !r.success && (r.status.None? || r.status == Some(Ok)) then Some(Error)
      else r.status;
    var errorInfo :=
      if r.budgetExceeded then (if r.errorInfo.Some? then r.errorInfo else Some(budget.kind))
      else if r.success && r.status != Some(Ok) then None
      else r.errorInfo;
    var code := if status.Some? then status.value else if r.success then Ok else Error;
    r.(success := code == Ok, identity := id, status := Some(code),
       errorInfo := if errorInfo.Some? then errorInfo else r.errorInfo)
  }

  // ---- one run ------------------------------------------------------------------------------

  /** `extractJSON` and `validateOutput` together: the parsed value, or the error text. */
  datatype Verdict = Valid(value: nat) | Invalid(message: string)

  /** The whole-run timeout and the caller's abort, as they stand when they are looked at. */
  datatype Signals = Signals(timedOut: bool, cancelled: bool)

  /** Everything a run depends on that is not the agent's own code. The signals are looked at
      when a result is judged (each `done` event of a stream brings its own) and again when an
      error is. */
  datatype Env = Env(
    identity: nat,
    resumed: bool,
    external: bool,
    beforeRun: Option<(string, seq<Message>) -> Attempt<HookResult>>,
    connect: Option<Failure>,
    backend: (nat, seq<Message>) -> Attempt<RunResult>,
    schema: Option<string -> Verdict>,
    afterRun: Option<AgentResult -> Attempt<AgentResult>>,
    signals: Signals,
    signalsLater: Signals,
    provider: bool)

  /** What a run did: its result, what each backend call returned, what each was sent, and
      whether it ended in the catch block. */
  datatype Execution = Execution(result: AgentResult, replies: seq<RunResult>, sent: seq<seq<Message>>, threw: bool)

  const REJECTED_HOOK: Failure := Failure(Plain, false, "beforeRun")

  function BeforeRun(env: Env, ms: seq<Message>): Attempt<seq<Message>> {
    if env.beforeRun.None? || env.resumed then Returned(ms)
    else match env.beforeRun.value(Read(ms), ms)
      case Threw(f) => Threw(f)
      case Returned(answer) =>
        match ApplyHook(ms, answer, env.external)
        case Rejected => Threw(REJECTED_HOOK)
        case Accepted(rewritten) => Returned(rewritten)
  }

  function AfterRun(env: Env, r: AgentResult): Attempt<AgentResult> {
    if env.afterRun.None? then Returned(r) else env.afterRun.value(r)
  }

  /** How the catch block classifies an error; the signals exist once the backend is there. */
  function Caught(env: Env, f: Failure, kind: Option<Kind>, connected: bool): Classified {
    if connected && env.signalsLater.timedOut then Classify(f, Some(TimeoutKind), Timeout, false)
    else if connected && env.signalsLater.cancelled then Classify(f, Some(Cancellation), Cancelled, false)
    else if f.errorClass == DurableApproval then Classify(f, Some(Validation), Error, false)
    else Classify(f, kind, Error, env.provider)
  }

  function Failed(env: Env, f: Failure, kind: Option<Kind>, connected: bool): AgentResult {
    var c := Caught(env, f, kind, connected);
    AgentResult(false, env.identity, Some(c.code), Some(c.kind), f.message, [], ZERO, None, false, false, false,
        Some(f))
  }

  function Feedback(message: string): Message {
    Message(User, [TextBlock(
      "Your previous response did not produce valid JSON matching the required schema.\n\nError: "
      + message + "\n\nPlease try again. Respond with ONLY valid JSON, no other text.")])
  }

  /** The result of the schema path before `afterRun`, with the retry if there was one. */
  datatype Validated = Validated(outcome: Attempt<AgentResult>, retry: seq<RunResult>, resent: seq<seq<Message>>)

  function Validate(env: Env, check: string -> Verdict, ms: seq<Message>, r: RunResult): Validated {
    match check(r.output)
    case Valid(v) => Validated(Returned(ToAgentResult(r, true, Some(v), env.identity, Ok, None)), [], [])
    case Invalid(message) =>
      var again := ms + r.messages + [Feedback(message)];
      match env.backend(1, again)
      case Threw(f) => Validated(Threw(f), [], [again])
      case Returned(r2) =>
        var merged := r.messages + [Feedback(message)] + r2.messages;
        var usage := Add(r.usage, r2.usage);
        var outcome := match check(r2.output)
          case Valid(v) =>
            AgentResult(true, env.identity, Some(Ok), None, r2.output, merged, usage, Some(v), false,
                r2.budgetExceeded, false, None)
          case Invalid(_) =>
            var c := Classify(SCHEMA_FAILURE, Some(Validation), Error, false);
            AgentResult(false, env.identity, Some(c.code), Some(c.kind), r2.output, merged, usage, None, false,
                r2.budgetExceeded, false, None);
        Validated(Returned(outcome), [r2], [again])
  }

  /** The result a run without a schema hands to `afterRun`. */
  function Judge(env: Env, r: RunResult): AgentResult {
    if env.signals.timedOut then
      var c := Classify(TIMEOUT_FAILURE, Some(TimeoutKind), Timeout, false);
      ToAgentResult(r, false, None, env.identity, c.code, Some(c.kind))
    else if env.signals.cancelled && r.aborted then
      var c := Classify(ABORT_FAILURE, None, Error, false);
      ToAgentResult(r, false, None, env.identity, c.code, Some(c.kind))
    else ToAgentResult(r, true, None, env.identity, Ok, None)
  }

  function OverBudget(env: Env, r: RunResult): AgentResult {
    var c := Classify(BUDGET_FAILURE, None, Error, false);
    ToAgentResult(r, false, None, env.identity, c.code, Some(c.kind))
  }

  function Conclude(env: Env, before: AgentResult, replies: seq<RunResult>, sent: seq<seq<Message>>): Execution {
    match AfterRun(env, before)
    case Threw(f) => Execution(Failed(env, f, Some(Callback), true), replies, sent, true)
    case Returned(r) => Execution(Ensure(r, env.identity), replies, sent, false)
  }

  /** A run from its first backend call on. */
  function AfterHook(env: Env, ms: seq<Message>): Execution {
    match env.backend(0, ms)
    case Threw(f) => Execution(Failed(env, f, None, true), [], [ms], true)
    case Returned(r) =>
      if r.suspended then
        Execution(ToAgentResult(r, false, None, env.identity, Suspended, None), [r], [ms], false)
      else if r.budgetExceeded then Conclude(env, OverBudget(env, r), [r], [ms])
      else if env.schema.None? then Conclude(env, Judge(env, r), [r], [ms])
      else
        var v := Validate(env, env.schema.value, ms, r);
        match v.outcome
        case Threw(f) => Execution(Failed(env, f, None, true), [r] + v.retry, [ms] + v.resent, true)
        case Returned(before) => Conclude(env, before, [r] + v.retry, [ms] + v.resent)
  }

  function ExecuteRun(env: Env, messages: seq<Message>): Execution {
    match BeforeRun(env, messages)
    case Threw(f) => Execution(Failed(env, f, Some(Callback), false), [], [], true)
    case Returned(ms) =>
      if env.connect.Some? then Execution(Failed(env, env.connect.value, None, false), [], [], true)
      else AfterHook(env, ms)
  }

  // ---- one stream -----------------------------------------------------------------------------

  datatype BackendEvent =
    | BackendDone(result: RunResult, signals: Signals) | BackendError(failure: Failure) | Chunk(text: string)

  datatype AgentEvent = AgentDone(result: AgentResult) | AgentError(failure: Failure, kind: Kind) | Passed(text: string)

  function StreamCode(r: RunResult, signals: Signals): Code {
    if r.budgetExceeded then BudgetExhausted
    else if r.suspended then Suspended
    else if signals.timedOut then Timeout
    else if signals.cancelled && r.aborted then Cancelled
    else Ok
  }

  function StreamBefore(env: Env, r: RunResult, signals: Signals): AgentResult {
    ToAgentResult(r, !r.budgetExceeded && !r.suspended, None, env.identity, StreamCode(r, signals), None)
  }

  function StreamDone(env: Env, r: RunResult, signals: Signals): Attempt<AgentResult> {
    match if r.suspended then Returned(StreamBefore(env, r, signals)) else AfterRun(env, StreamBefore(env, r, signals))
    case Threw(f) => Threw(f)
    case Returned(result) => Returned(Ensure(result, env.identity))
  }

  /** The events of a backend stream up to its end or the error it ends with. */
  datatype BackendStream = BackendStream(events: seq<BackendEvent>, end: Option<Failure>)

  /** What one backend event becomes, and whether the stream stops there because a hook threw. */
  datatype Forwarded = Forwarded(event: AgentEvent, stops: bool)

  function Forward(env: Env, e: BackendEvent): Forwarded {
    match e
    case Chunk(t) => Forwarded(Passed(t), false)
    case BackendError(f) =>
      var c := if f.errorClass == DurableApproval then Classify(f, Some(Validation), Error, false)
               else Classify(f, None, Error, env.provider);
      Forwarded(AgentError(f, c.kind), false)
    case BackendDone(r, signals) =>
      match StreamDone(env, r, signals)
      case Threw(f) => Forwarded(AgentError(f, Caught(env, f, Some(Callback), true).kind), true)
      case Returned(result) => Forwarded(AgentDone(result), false)
  }

  function Stream(env: Env, events: seq<BackendEvent>, end: Option<Failure>): seq<AgentEvent>
    decreases |events|
  {
    if events == [] then
      if end.None? then [] else [AgentError(end.value, Caught(env, end.value, None, true).kind)]
    else
      var first := Forward(env, events[0]);
      [first.event] + if first.stops then [] else Stream(env, events[1..], end)
  }

  function ExecuteStream(env: Env, messages: seq<Message>, stream: seq<Message> -> BackendStream): seq<AgentEvent> {
    match BeforeRun(env, messages)
    case Threw(f) => [AgentError(f, Caught(env, f, Some(Callback), false).kind)]
    case Returned(ms) =>
      if env.connect.Some? then [AgentError(env.connect.value, Caught(env, env.connect.value, None, false).kind)]
      else Stream(env, stream(ms).events, stream(ms).end)
  }

  // ---- every outcome is consistent ---------------------------------------------------------------

  /** What the documentation of the result type promises. */
  predicate Consistent(r: AgentResult, id: nat) {
    && r.identity == id
    && r.status.Some?
    && (r.success <==> r.status == Some(Ok))
    && (r.budgetExceeded ==> !r.success)
  }

  /** Whatever a hook returns, the restored result is consistent, and it is a success exactly
      when the hook said so and the budget holds. */
  lemma EnsureRestores(r: AgentResult, id: nat)
    ensures Consistent(Ensure(r, id), id)
    ensures Ensure(r, id).success <==> r.success && !r.budgetExceeded
    ensures Ensure(r, id).status == Some(if r.budgetExceeded then BudgetExhausted
                                         else if r.success then Ok
                                         else if r.status.None? || r.status == Some(Ok) then Error
                                         else r.status.value)
    ensures Ensure(r, id).errorInfo == if r.budgetExceeded && r.errorInfo.None? then Some(Budget) else r.errorInfo
    ensures Ensure(Ensure(r, id), id) == Ensure(r, id)
    ensures Consistent(r, id) && !r.budgetExceeded ==> Ensure(r, id) == r
  {
  }

  /** A success keeps a left-over error description exactly when the hook's result had one:
      clearing it is undone by the copy of the result that follows. */
  lemma StaleErrorInfo(r: AgentResult, id: nat)
    ensures Ensure(r, id).success && Ensure(r, id).errorInfo.Some? <==>
            r.success && !r.budgetExceeded && r.errorInfo.Some?
  {
  }

  /** Every run, whatever the hooks, the backend and the validator do or throw. */
  lemma {:induction false} RunIsConsistent(env: Env, messages: seq<Message>)
    ensures Consistent(ExecuteRun(env, messages).result, env.identity)
    ensures ExecuteRun(env, messages).threw ==> !ExecuteRun(env, messages).result.success
  {
    hide Validate, Judge, OverBudget, BeforeRun, Conclude, Failed, Consistent;
    forall before, replies, sent ensures ConcludedWell(env, Conclude(env, before, replies, sent)) {
      ConcludeIsConsistent(env, before, replies, sent);
    }
    forall f, kind, connected ensures FailedWell(env, Failed(env, f, kind, connected)) {
      FailureIsConsistent(env, f, kind, connected);
    }
    SuspensionIsConsistent(env);
  }

  predicate ConcludedWell(env: Env, run: Execution) {
    Consistent(run.result, env.identity) && (run.threw ==> !run.result.success)
  }

  predicate FailedWell(env: Env, r: AgentResult) {
    Consistent(r, env.identity) && !r.success
  }

  lemma ConcludeIsConsistent(env: Env, before: AgentResult, replies: seq<RunResult>, sent: seq<seq<Message>>)
    ensures ConcludedWell(env, Conclude(env, before, replies, sent))
  {
  }

  lemma FailureIsConsistent(env: Env, f: Failure, kind: Option<Kind>, connected: bool)
    ensures FailedWell(env, Failed(env, f, kind, connected))
  {
  }

  lemma SuspensionIsConsistent(env: Env)
    ensures forall r :: Consistent(ToAgentResult(r, false, None, env.identity, Suspended, None), env.identity)
  {
  }

  /** What the schema path accepts: the first output, or that of the retry if it is in budget. */
  predicate SchemaHolds(env: Env, check: string -> Verdict, ms: seq<Message>, r: RunResult) {
    match check(r.output)
    case Valid(_) => true
    case Invalid(message) =>
      var again := env.backend(1, ms + r.messages + [Feedback(message)]);
      again.Returned? && !again.value.budgetExceeded && check(again.value.output).Valid?
  }

  /** When a run without hooks succeeds. A schema makes the difference: its path looks neither
      at the signals nor at whether the retry was suspended. */
  lemma RunSucceeds(env: Env, messages: seq<Message>)
    requires env.beforeRun.None? && env.afterRun.None?
    ensures ExecuteRun(env, messages).result.success <==>
            env.connect.None? &&
            match env.backend(0, messages)
            case Threw(_) => false
            case Returned(r) =>
              !r.suspended && !r.budgetExceeded &&
              if env.schema.None? then !SignalCounts(env.signals, r)
              else SchemaHolds(env, env.schema.value, messages, r)
  {
    hide Feedback;
  }

  /** Every `done` event of every stream. */
  lemma {:induction false} StreamIsConsistent(env: Env, messages: seq<Message>, stream: seq<Message> -> BackendStream)
    ensures forall e :: e in ExecuteStream(env, messages, stream) && e.AgentDone? ==> Consistent(e.result, env.identity)
  {
    var ms := BeforeRun(env, messages);
    if ms.Returned? { EventsAreConsistent(env, stream(ms.value).events, stream(ms.value).end); }
  }

  lemma {:induction false} EventsAreConsistent(env: Env, events: seq<BackendEvent>, end: Option<Failure>)
    ensures forall e :: e in Stream(env, events, end) && e.AgentDone? ==> Consistent(e.result, env.identity)
    decreases |events|
  {
    hide Ensure, AfterRun, StreamBefore, Classify, Caught, Consistent;
    if events != [] {
      EventsAreConsistent(env, events[1..], end);
      if events[0].BackendDone? { DoneIsConsistent(env, events[0].result, events[0].signals); }
    }
  }

  lemma DoneIsConsistent(env: Env, r: RunResult, signals: Signals)
    ensures StreamDone(env, r, signals).Returned? ==> Consistent(StreamDone(env, r, signals).value, env.identity)
  {
  }

  // ---- one stream, one terminal event -----------------------------------------------------------

  predicate Terminal(e: AgentEvent) { !e.Passed? }

  /** A backend that keeps the contract: chunks, then one `done` or `error` event, or a throw. */
  predicate KeepsContract(s: BackendStream) {
    if s.end.Some? then forall i :: 0 <= i < |s.events| ==> s.events[i].Chunk?
    else && s.events != [] && !s.events[|s.events| - 1].Chunk?
         && forall i :: 0 <= i < |s.events| - 1 ==> s.events[i].Chunk?
  }

  /** The agent then keeps it too: its one terminal event comes last, even when a hook throws. */
  lemma {:induction false} OneTerminalEvent(env: Env, messages: seq<Message>, stream: seq<Message> -> BackendStream)
    requires forall ms :: KeepsContract(stream(ms))
    ensures var out := ExecuteStream(env, messages, stream);
            && out != [] && Terminal(out[|out| - 1])
            && forall i :: 0 <= i < |out| - 1 ==> !Terminal(out[i])
  {
    var ms := BeforeRun(env, messages);
    if ms.Returned? && env.connect.None? {
      assert KeepsContract(stream(ms.value));
      EventsEndOnce(env, stream(ms.value).events, stream(ms.value).end);
    }
  }

  lemma {:induction false} EventsEndOnce(env: Env, events: seq<BackendEvent>, end: Option<Failure>)
    requires KeepsContract(BackendStream(events, end))
    ensures var out := Stream(env, events, end);
            && out != [] && Terminal(out[|out| - 1])
            && forall i :: 0 <= i < |out| - 1 ==> !Terminal(out[i])
    decreases |events|
  {
    hide Classify, Caught, StreamDone;
    if events != [] && events[0].Chunk? {
      EventsEndOnce(env, events[1..], end);
    } else if events != [] {
      assert events[1..] == [];
    }
  }

  // ---- run and stream on the same backend result -------------------------------------------------

  /** What `run` makes of a backend result when there is no schema. */
  function RunDone(env: Env, r: RunResult): Attempt<AgentResult> {
    if r.suspended then Returned(ToAgentResult(r, false, None, env.identity, Suspended, None))
    else
      var done := Conclude(env, if r.budgetExceeded then OverBudget(env, r) else Judge(env, r), [r], []);
      if done.threw then Threw(done.result.error.value) else Returned(done.result)
  }

  /** The two paths show a hook the same result, but for success under a signal and for the
      error details of a failure. */
  lemma HooksSeeTheSame(env: Env, r: RunResult)
    requires !r.suspended
    ensures var shown := if r.budgetExceeded then OverBudget(env, r) else Judge(env, r);
            && StreamBefore(env, r, env.signals) == shown.(success := !r.budgetExceeded, errorInfo := None)
            && (shown.success <==> !r.budgetExceeded && !SignalCounts(env.signals, r))
            && (shown.errorInfo.Some? <==> !shown.success)
  {
  }

  /** Without a schema, `RunDone` is what the whole run makes of its backend's result. */
  lemma RunDoneIsRun(env: Env, messages: seq<Message>)
    requires BeforeRun(env, messages).Returned? && env.connect.None? && env.schema.None?
    requires env.backend(0, BeforeRun(env, messages).value).Returned?
    ensures var run, r := ExecuteRun(env, messages), env.backend(0, BeforeRun(env, messages).value).value;
            && run.threw == RunDone(env, r).Threw?
            && (if run.threw then run.result.error == Some(RunDone(env, r).failure)
                else run.result == RunDone(env, r).value)
  {
  }

  /** A signal that the `run` path turns into a failure. */
  predicate SignalCounts(signals: Signals, r: RunResult) { signals.timedOut || (signals.cancelled && r.aborted) }

  /** Without a hook both paths give the same result, except for a suspended run over budget
      and for a signal that only the `run` path reports as a failure. */
  lemma ParityWithoutHook(env: Env, r: RunResult)
    requires env.afterRun.None?
    ensures StreamDone(env, r, env.signals) == RunDone(env, r) <==>
            !(r.suspended && r.budgetExceeded) && (r.suspended || r.budgetExceeded || !SignalCounts(env.signals, r))
    ensures !r.suspended && !r.budgetExceeded && SignalCounts(env.signals, r) ==>
            StreamDone(env, r, env.signals).value.success && !RunDone(env, r).value.success
  {
  }

  /** The same of a whole run and a whole stream whose backends give the same result. */
  lemma ParityOfRuns(env: Env, messages: seq<Message>, stream: seq<Message> -> BackendStream)
    requires env.afterRun.None? && env.schema.None? && env.connect.None? && BeforeRun(env, messages).Returned?
    requires var ms := BeforeRun(env, messages).value;
             && env.backend(0, ms).Returned?
             && stream(ms) == BackendStream([BackendDone(env.backend(0, ms).value, env.signals)], None)
    ensures var r := env.backend(0, BeforeRun(env, messages).value).value;
            ExecuteStream(env, messages, stream) == [AgentDone(ExecuteRun(env, messages).result)] <==>
            !(r.suspended && r.budgetExceeded) && (r.suspended || r.budgetExceeded || !SignalCounts(env.signals, r))
  {
    hide StreamDone, RunDone, ExecuteRun;
    var ms := BeforeRun(env, messages).value;
    var r := env.backend(0, ms).value;
    RunDoneIsRun(env, messages);
    ParityWithoutHook(env, r);
    HooklessReturns(env, r);
    OneDone(env, r);
    var done, result := StreamDone(env, r, env.signals).value, ExecuteRun(env, messages).result;
    assert ExecuteStream(env, messages, stream) == [AgentDone(done)];
    assert [AgentDone(done)] == [AgentDone(result)] ==> [AgentDone(done)][0] == [AgentDone(result)][0];
  }

  lemma OneDone(env: Env, r: RunResult)
    requires StreamDone(env, r, env.signals).Returned?
    ensures Stream(env, [BackendDone(r, env.signals)], None) == [AgentDone(StreamDone(env, r, env.signals).value)]
  {
    hide StreamDone;
    assert [BackendDone(r, env.signals)][1..] == [];
    assert Stream(env, [], None) == [];
  }

  lemma HooklessReturns(env: Env, r: RunResult)
    requires env.afterRun.None?
    ensures StreamDone(env, r, env.signals).Returned? && RunDone(env, r).Returned?
  {
  }

  /** With every hook both paths give the same result exactly when the run is within budget and,
      unless it is suspended, no signal counts: over budget, hooks see different error details. */
  lemma ParityForEveryHook(env: Env, r: RunResult)
    ensures (forall after ::
               StreamDone(env.(afterRun := after), r, env.signals) == RunDone(env.(afterRun := after), r)) <==>
            !r.budgetExceeded && (r.suspended || !SignalCounts(env.signals, r))
  {
    hide StreamDone, RunDone;
    var none := env.(afterRun := None);
    ParityWithoutHook(none, r);
    if r.budgetExceeded && !r.suspended {
      ForgivingHook(env, r);
    } else if !r.budgetExceeded && (r.suspended || !SignalCounts(env.signals, r)) {
      forall after ensures StreamDone(env.(afterRun := after), r, env.signals) == RunDone(env.(afterRun := after), r) {
        SameHookSameResult(env.(afterRun := after), r);
      }
    }
  }

  /** A hook that pardons a run over budget when it is given no error details. */
  function Forgive(a: AgentResult): Attempt<AgentResult> {
    Returned(if a.errorInfo.None? then a.(budgetExceeded := false, success := true) else a)
  }

  lemma ForgivingHook(env: Env, r: RunResult)
    requires r.budgetExceeded && !r.suspended
    ensures var hooked := env.(afterRun := Some(Forgive)); StreamDone(hooked, r, env.signals) != RunDone(hooked, r)
  {
  }

  lemma SameHookSameResult(env: Env, r: RunResult)
    requires !r.budgetExceeded && (r.suspended || !SignalCounts(env.signals, r))
    ensures StreamDone(env, r, env.signals) == RunDone(env, r)
  {
  }
}
