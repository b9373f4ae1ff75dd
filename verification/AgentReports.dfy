/** What callers and backends get to see of a run: which calls are made with what, what a result
    carries over from the backend's replies, and how a failure is reported. */
module AgentReports {
  import opened Collections
  import opened AgentHook
  import opened AgentOutcome

  // ---- the calls of a run -----------------------------------------------------------------

  /** What a retry adds to the conversation: the validator's error and nothing else. */
  function RetryMessage(error: string): Message {
    Message(User, [TextBlock(
      "Your previous response did not produce valid JSON matching the required schema.\n\nError: " + error
      + "\n\nPlease try again. Respond with ONLY valid JSON, no other text.")])
  }

  lemma FeedbackIsRetryMessage(error: string)
    ensures Feedback(error) == RetryMessage(error)
  {
  }

  /** The first reply is neither suspended nor over budget, and the validator refuses it. */
  predicate Refused(env: Env, r: RunResult) {
    !r.suspended && !r.budgetExceeded && env.schema.Some? && env.schema.value(r.output).Invalid?
  }

  /** What the second attempt is sent. */
  function Again(env: Env, ms: seq<Message>, r: RunResult): seq<Message>
    requires Refused(env, r)
  {
    ms + r.messages + [RetryMessage(env.schema.value(r.output).message)]
  }

  /** What the second attempt returned, if there was one. */
  function Second(env: Env, ms: seq<Message>, r: RunResult): Option<Attempt<RunResult>> {
    if Refused(env, r) then Some(env.backend(1, Again(env, ms, r))) else None
  }

  function SecondReply(env: Env, ms: seq<Message>, r: RunResult): Option<RunResult> {
    var second := Second(env, ms, r);
    if second.Some? && second.value.Returned? then Some(second.value.value) else None
  }

  /** The hook is shown the prompt and the messages unless there is none or the run resumes; it may
      throw, or have its answer rejected or applied. */
  lemma HookIsShown(env: Env, messages: seq<Message>)
    ensures if env.beforeRun.None? || env.resumed then BeforeRun(env, messages) == Returned(messages)
            else
              var answer := env.beforeRun.value(Read(messages), messages);
              if answer.Threw? then BeforeRun(env, messages) == Threw(answer.failure)
              else
                var applied := ApplyHook(messages, answer.value, env.external);
                if applied.Rejected? then BeforeRun(env, messages).Threw?
                else BeforeRun(env, messages) == Returned(applied.messages)
  {
  }

  /** The calls of a run whose conversation is `ms` when the backend is reached. */
  predicate CallsMade(env: Env, run: Execution, ms: seq<Message>) {
    var first := env.backend(0, ms);
    if first.Threw? then run.threw && run.sent == [ms] && run.replies == []
    else
      var r := first.value;
      var second := SecondReply(env, ms, r);
      && run.sent == [ms] + (if Refused(env, r) then [Again(env, ms, r)] else [])
      && run.replies == [r] + (if second.Some? then [second.value] else [])
      && (Refused(env, r) && second.None? ==> run.threw)
      && (run.threw ==> !r.suspended && ((Refused(env, r) && second.None?) || env.afterRun.Some?))
  }

  /** The backend is called once with what the hook left, and once more, with the whole conversation
      and the error, exactly when the validator refuses the first output. The replies are what these
      calls returned, even when the run throws later. */
  lemma RunCalls(env: Env, messages: seq<Message>)
    ensures var run := ExecuteRun(env, messages);
            if BeforeRun(env, messages).Threw? || env.connect.Some? then
              run.threw && run.sent == [] && run.replies == []
            else CallsMade(env, run, BeforeRun(env, messages).value)
  {
    hide Feedback, RetryMessage, Judge, OverBudget, Ensure, Failed, ToAgentResult, BeforeRun, Classify;
    var ms := BeforeRun(env, messages);
    if ms.Returned? && env.connect.None? && env.backend(0, ms.value).Returned? {
      var r := env.backend(0, ms.value).value;
      if Refused(env, r) { FeedbackIsRetryMessage(env.schema.value(r.output).message); }
      assert [ms.value] + [] == [ms.value] && [r] + [] == [r];
    }
  }

  // ---- what a result carries over ------------------------------------------------------------

  /** The hook rewrites neither what the backend said nor its flags. */
  ghost predicate KeepsReport(env: Env) {
    forall r :: AfterRun(env, r).Returned? ==> SameReport(r, AfterRun(env, r).value)
  }

  predicate SameReport(r: AgentResult, r': AgentResult) {
    && r'.output == r.output && r'.messages == r.messages && r'.usage == r.usage && r'.structured == r.structured
    && r'.loopDetected == r.loopDetected && r'.budgetExceeded == r.budgetExceeded
    && r'.pendingApprovals == r.pendingApprovals && r'.error == r.error
  }

  /** A result over one reply. */
  predicate ReportsOne(a: AgentResult, r: RunResult) {
    && a.output == r.output && a.messages == r.messages && a.usage == r.usage && a.error == None
    && a.budgetExceeded == r.budgetExceeded && a.loopDetected == r.loopDetected
    && a.pendingApprovals == r.pendingApprovals
  }

  /** A result over a refused reply and its retry, whose loop and approval flags get lost. */
  predicate ReportsTwo(a: AgentResult, r: RunResult, error: string, r2: RunResult) {
    && a.output == r2.output && a.messages == r.messages + [RetryMessage(error)] + r2.messages && a.error == None
    && a.usage == Usage(r.usage.input + r2.usage.input, r.usage.output + r2.usage.output)
    && a.budgetExceeded == r2.budgetExceeded && !a.loopDetected && !a.pendingApprovals
  }

  /** What the validator makes of an output; nothing when it was not asked. */
  function Parsed(env: Env, r: RunResult, last: RunResult): Option<nat> {
    if env.schema.None? || r.suspended || r.budgetExceeded then None
    else match env.schema.value(last.output)
      case Valid(v) => Some(v)
      case Invalid(_) => None
  }

  lemma ConcludeReports(env: Env, before: AgentResult, replies: seq<RunResult>, sent: seq<seq<Message>>)
    requires KeepsReport(env)
    ensures var run := Conclude(env, before, replies, sent);
            run.replies == replies && (!run.threw ==> SameReport(before, run.result))
  {
  }

  lemma ToAgentResultReports(r: RunResult, success: bool, structured: Option<nat>, id: nat, code: Code,
      info: Option<Kind>)
    ensures var a := ToAgentResult(r, success, structured, id, code, info);
            ReportsOne(a, r) && a.structured == structured
  {
  }

  /** A run that returns reports its last reply, the messages of all its replies with exactly the
      feedback between them, and what the validator made of the output. */
  lemma RunReports(env: Env, messages: seq<Message>)
    requires KeepsReport(env) && !ExecuteRun(env, messages).threw
    ensures var run := ExecuteRun(env, messages);
            var a, rs := run.result, run.replies;
            && (|rs| == 1 || |rs| == 2)
            && a.structured == Parsed(env, rs[0], rs[|rs| - 1])
            && if |rs| == 1 then ReportsOne(a, rs[0])
               else Refused(env, rs[0]) && ReportsTwo(a, rs[0], env.schema.value(rs[0].output).message, rs[1])
  {
    hide KeepsReport, Conclude, ToAgentResult, SameReport, ReportsOne, ReportsTwo, RetryMessage, Feedback, Classify;
    RunCalls(env, messages);
    var ms := BeforeRun(env, messages).value;
    var r := env.backend(0, ms).value;
    if r.suspended {
      ToAgentResultReports(r, false, None, env.identity, Suspended, None);
    } else if r.budgetExceeded || env.schema.None? {
      var before := if r.budgetExceeded then OverBudget(env, r) else Judge(env, r);
      PlainReports(env, r);
      ConcludeReports(env, before, [r], [ms]);
      Kept(before, ExecuteRun(env, messages).result, r, r, "");
    } else {
      var v := Validate(env, env.schema.value, ms, r);
      ValidateReports(env, ms, r);
      ConcludeReports(env, v.outcome.value, [r] + v.retry, [ms] + v.resent);
      var last := if v.retry == [] then r else v.retry[0];
      Kept(v.outcome.value, ExecuteRun(env, messages).result, r, last,
           if Refused(env, r) then env.schema.value(r.output).message else "");
    }
  }

  lemma PlainReports(env: Env, r: RunResult)
    ensures ReportsOne(OverBudget(env, r), r) && OverBudget(env, r).structured == None
    ensures ReportsOne(Judge(env, r), r) && Judge(env, r).structured == None
  {
  }

  lemma Kept(a: AgentResult, b: AgentResult, r: RunResult, r2: RunResult, error: string)
    requires SameReport(a, b)
    ensures b.structured == a.structured
    ensures ReportsOne(a, r) ==> ReportsOne(b, r)
    ensures ReportsTwo(a, r, error, r2) ==> ReportsTwo(b, r, error, r2)
  {
    hide RetryMessage;
  }

  lemma ValidateReports(env: Env, ms: seq<Message>, r: RunResult)
    requires env.schema.Some? && !r.suspended && !r.budgetExceeded
    ensures var v := Validate(env, env.schema.value, ms, r);
            v.outcome.Returned? ==>
              if Refused(env, r) then
                && |v.retry| == 1 && v.outcome.value.structured == Parsed(env, r, v.retry[0])
                && ReportsTwo(v.outcome.value, r, env.schema.value(r.output).message, v.retry[0])
              else
                v.retry == [] && ReportsOne(v.outcome.value, r) && v.outcome.value.structured == Parsed(env, r, r)
  {
    hide Feedback, RetryMessage;
    if Refused(env, r) { FeedbackIsRetryMessage(env.schema.value(r.output).message); }
  }

  /** Without a hook a run with a schema succeeds exactly when it delivers a value within budget: a
      retry over budget delivers its value with a failure. */
  lemma StructuredSuccess(env: Env, messages: seq<Message>)
    requires env.afterRun.None? && env.schema.Some? && !ExecuteRun(env, messages).threw
    ensures var a := ExecuteRun(env, messages).result;
            a.success <==> a.structured.Some? && !a.budgetExceeded
  {
    hide Feedback, Judge, BeforeRun, Failed;
  }

  // ---- how a failure is reported ---------------------------------------------------------------

  /** The code and kind of an error: what kind of error it is decides first, then the whole-run
      timeout, then the caller's abort, both of which exist once the backend is there. */
  predicate ClassifiedAs(env: Env, f: Failure, hook: bool, connected: bool, code: Code, kind: Kind) {
    match f.errorClass
    case TokenBudget | CostBudget => code == BudgetExhausted && kind == Budget
    case CallTimeout | RoutingTimeout => code == Timeout && kind == TimeoutKind
    case Abort => code == Cancelled && kind == Cancellation
    case DurableApproval | Plain =>
      if connected && env.signalsLater.timedOut then code == Timeout && kind == TimeoutKind
      else if connected && env.signalsLater.cancelled then code == Cancelled && kind == Cancellation
      else
        && code == Error
        && kind == if f.errorClass == DurableApproval then Validation
                   else if hook then Callback
                   else if f.hasHttpStatus || env.provider then Provider
                   else Unknown
  }

  /** The result of a run that threw `f`. */
  predicate ReportsFailure(env: Env, a: AgentResult, f: Failure, hook: bool, connected: bool) {
    && a.success == false && a.identity == env.identity && a.output == f.message && a.error == Some(f)
    && a.messages == [] && a.usage == Usage(0, 0) && a.structured == None
    && !a.loopDetected && !a.budgetExceeded && !a.pendingApprovals
    && a.status.Some? && a.errorInfo.Some?
    && ClassifiedAs(env, f, hook, connected, a.status.value, a.errorInfo.value)
  }

  lemma FailedReports(env: Env, f: Failure, hook: bool, connected: bool)
    ensures ReportsFailure(env, Failed(env, f, if hook then Some(Callback) else None, connected), f, hook, connected)
  {
  }

  ghost predicate HookFailed(env: Env, a: AgentResult, shown: AgentResult) {
    AfterRun(env, shown).Threw? && ReportsFailure(env, a, AfterRun(env, shown).failure, true, true)
  }

  /** Once the backend is there, one of its calls or the last hook threw. */
  ghost predicate FailedWithBackend(env: Env, a: AgentResult, ms: seq<Message>) {
    var first := env.backend(0, ms);
    if first.Threw? then ReportsFailure(env, a, first.failure, false, true)
    else
      var second := Second(env, ms, first.value);
      if second.Some? && second.value.Threw? then ReportsFailure(env, a, second.value.failure, false, true)
      else exists shown :: HookFailed(env, a, shown)
  }

  /** A run that throws reports the error that was thrown: by the first hook, by connecting, by
      either backend call, or by the last hook. */
  lemma FailuresAreReported(env: Env, messages: seq<Message>)
    requires ExecuteRun(env, messages).threw
    ensures var a := ExecuteRun(env, messages).result;
            var input := BeforeRun(env, messages);
            if input.Threw? then ReportsFailure(env, a, input.failure, true, false)
            else if env.connect.Some? then ReportsFailure(env, a, env.connect.value, false, false)
            else FailedWithBackend(env, a, input.value)
  {
    hide Feedback, RetryMessage, Judge, OverBudget, Failed, ToAgentResult, BeforeRun, Conclude, HookFailed,
        ReportsFailure;
    var ms := BeforeRun(env, messages);
    if ms.Threw? {
      FailedReports(env, ms.failure, true, false);
    } else if env.connect.Some? {
      FailedReports(env, env.connect.value, false, false);
    } else if env.backend(0, ms.value).Threw? {
      FailedReports(env, env.backend(0, ms.value).failure, false, true);
    } else {
      var r := env.backend(0, ms.value).value;
      if Refused(env, r) { FeedbackIsRetryMessage(env.schema.value(r.output).message); }
      forall before, replies, sent
        ensures var c := Conclude(env, before, replies, sent); c.threw ==> HookFailed(env, c.result, before)
      {
        ConcludeFails(env, before, replies, sent);
      }
      forall f ensures ReportsFailure(env, Failed(env, f, None, true), f, false, true) {
        FailedReports(env, f, false, true);
      }
    }
  }

  lemma ConcludeFails(env: Env, before: AgentResult, replies: seq<RunResult>, sent: seq<seq<Message>>)
    ensures var c := Conclude(env, before, replies, sent); c.threw ==> HookFailed(env, c.result, before)
  {
    hide Failed, Ensure, ReportsFailure;
    if AfterRun(env, before).Threw? { FailedReports(env, AfterRun(env, before).failure, true, true); }
  }

  // ---- streams --------------------------------------------------------------------------------------

  /** What one backend event becomes. */
  ghost predicate Becomes(env: Env, e: BackendEvent, a: AgentEvent) {
    match e
    case Chunk(t) => a == Passed(t)
    case BackendError(f) =>
      a.AgentError? && a.failure == f && exists code :: ClassifiedAs(env, f, false, false, code, a.kind)
    case BackendDone(r, signals) =>
      if a.AgentDone? then ReportsOne(a.result, r) && a.result.structured == None
      else
        && a.AgentError? && (exists code :: ClassifiedAs(env, a.failure, true, true, code, a.kind))
        && exists shown :: AfterRun(env, shown) == Threw(a.failure)
  }

  lemma ForwardReports(env: Env, e: BackendEvent)
    requires KeepsReport(env)
    ensures var f := Forward(env, e);
            Becomes(env, e, f.event) && (f.stops <==> e.BackendDone? && f.event.AgentError?)
  {
    hide KeepsReport, Ensure, ToAgentResult, SameReport, ReportsOne;
    match e
    case Chunk(_) =>
    case BackendError(f) =>
      var c := if f.errorClass == DurableApproval then Classify(f, Some(Validation), Error, false)
               else Classify(f, None, Error, env.provider);
      assert ClassifiedAs(env, f, false, false, c.code, c.kind);
    case BackendDone(r, signals) =>
      var shown := StreamBefore(env, r, signals);
      ToAgentResultReports(r, !r.budgetExceeded && !r.suspended, None, env.identity, StreamCode(r, signals), None);
      if !r.suspended && AfterRun(env, shown).Threw? {
        var f := AfterRun(env, shown).failure;
        FailedReports(env, f, true, true);
        var c := Caught(env, f, Some(Callback), true);
        assert ClassifiedAs(env, f, true, true, c.code, c.kind);
      } else {
        var kept := if r.suspended then shown else AfterRun(env, shown).value;
        SameAsShown(env, shown, r);
        EnsureKeepsReport(kept, env.identity);
        Kept(kept, Ensure(kept, env.identity), r, r, "");
        Kept(shown, kept, r, r, "");
      }
  }

  lemma SameAsShown(env: Env, shown: AgentResult, r: RunResult)
    requires KeepsReport(env)
    ensures SameReport(shown, shown)
    ensures AfterRun(env, shown).Returned? ==> SameReport(shown, AfterRun(env, shown).value)
  {
  }

  /** Restoring the outcome changes nothing but success, identity, status and error description. */
  lemma EnsureKeepsReport(r: AgentResult, id: nat)
    ensures SameReport(r, Ensure(r, id))
  {
  }

  /** Events are forwarded one for one, in order, until the backend's end or a hook that throws; an
      error that ends the backend's stream is reported last. */
  lemma {:induction false} StreamReports(env: Env, events: seq<BackendEvent>, end: Option<Failure>)
    requires KeepsReport(env)
    ensures var out := Stream(env, events, end);
            && (forall i :: 0 <= i < |out| && i < |events| ==> Becomes(env, events[i], out[i]))
            && (|out| < |events| || end.None? ==> |out| <= |events|)
            && (|out| < |events| ==> out != [] && events[|out| - 1].BackendDone? && out[|out| - 1].AgentError?)
            && (|out| > |events| ==>
                  && end.Some? && |out| == |events| + 1 && out[|events|].AgentError?
                  && out[|events|].failure == end.value
                  && exists code :: ClassifiedAs(env, end.value, false, true, code, out[|events|].kind))
            && (end.Some? && |out| == |events| ==>
                  events != [] && events[|events| - 1].BackendDone? && out[|events| - 1].AgentError?)
    decreases |events|
  {
    hide KeepsReport, Becomes, Forward, Caught, ClassifiedAs;
    if events == [] {
      if end.Some? { CaughtAs(env, end.value); }
    } else {
      ForwardReports(env, events[0]);
      StreamReports(env, events[1..], end);
      var out, rest := Stream(env, events, end), Stream(env, events[1..], end);
      if Forward(env, events[0]).stops {
        assert out == [Forward(env, events[0]).event];
        StopsAtDone(env, events[0]);
      } else {
        assert out == [Forward(env, events[0]).event] + rest;
        forall i | 0 < i < |out| && i < |events| ensures Becomes(env, events[i], out[i]) {
          assert events[1..][i - 1] == events[i] && rest[i - 1] == out[i];
        }
      }
    }
  }

  /** A stream that does not get to its backend reports why, and nothing else. */
  lemma StreamStarts(env: Env, messages: seq<Message>, stream: seq<Message> -> BackendStream)
    ensures var out := ExecuteStream(env, messages, stream);
            var ms := BeforeRun(env, messages);
            if ms.Threw? then OnlyError(env, out, ms.failure, true)
            else if env.connect.Some? then OnlyError(env, out, env.connect.value, false)
            else out == Stream(env, stream(ms.value).events, stream(ms.value).end)
  {
    hide BeforeRun;
    var ms := BeforeRun(env, messages);
    if ms.Threw? {
      var c := Caught(env, ms.failure, Some(Callback), false);
      assert ClassifiedAs(env, ms.failure, true, false, c.code, c.kind);
    } else if env.connect.Some? {
      var c := Caught(env, env.connect.value, None, false);
      assert ClassifiedAs(env, env.connect.value, false, false, c.code, c.kind);
    }
  }

  ghost predicate OnlyError(env: Env, out: seq<AgentEvent>, f: Failure, hook: bool) {
    && |out| == 1 && out[0].AgentError? && out[0].failure == f
    && exists code :: ClassifiedAs(env, f, hook, false, code, out[0].kind)
  }

  lemma StopsAtDone(env: Env, e: BackendEvent)
    requires Forward(env, e).stops
    ensures e.BackendDone? && Forward(env, e).event.AgentError?
  {
  }

  lemma CaughtAs(env: Env, f: Failure)
    ensures exists code :: ClassifiedAs(env, f, false, true, code, Caught(env, f, None, true).kind)
  {
    var c := Caught(env, f, None, true);
    assert ClassifiedAs(env, f, false, true, c.code, c.kind);
  }
}
