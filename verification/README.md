# Verified model of the agent runtime and its OpenTelemetry exporter

This project models five stateful components of the repository and proves what they promise over
whole runs: the OpenTelemetry trace exporter, the process backend's stream, the loop detector, the
agent wrapper (hooks, outcomes, token accounting, history) and the ACP backend. `dafny verify
dfyconfig.toml` checks everything.

Code that updates fields in place is a class whose methods are proved equal to pure functions
(`OtelExporter` to `OtelSpec`, `ProcessBackend` to `ProcessProtocol`, `LoopDetector` to its
history functions, `AgentSession.Agent` to `AgentOutcome` and `AgentSession.Step`, `AcpBackend` to
`AcpSpec`). The whole-run theorems are about those functions.

How the outside world appears:

- A **tracer** says which of its calls throw, by the number of the call; every theorem without a
  `NeverThrows` condition holds for every such tracer. `span.spanContext()` is taken not to throw.
  The log of calls is the evidence: `OtelLedger.Replay` computes from the calls alone what the
  tracer knows of each span, and `OtelLedger.Lawful` says no call ever broke its rules.
- Hooks, backends and validators are arbitrary functions that may throw. Clocks and abort signals
  are inputs.
- Strings that matter character by character (`Loop*`) are sequences of UTF-16 code units.

What the proofs turned up:

- A run end whose root span was already ended under another kind is dropped as a duplicate, so its
  trace stays indexed. With a tracer that never throws, and every trace closed by its run end, the
  indexes are empty exactly when every run end is the first end of its span
  (`OtelTraces.FinishedRunsLeaveNothing`); with any tracer, exactly when the run end of every trace
  that got a span went through (`OtelTraces.AllClearedExactly`).
- A record that arrives after its trace's run end gets a new span and keeps the trace indexed until
  it is closed again (`OtelHistory.KnownExactly`, `EmptyExactly`), unless it is that of a root among
  the last 256 finished (`RedeliveryExactly`).
- A parent edge exists exactly when the first record of a key comes after a mention of the parent it
  names; what later records of the key name is ignored (`OtelTraces.ParentEdgesExactly`).
- `sortKeys` loses own `__proto__` keys, and nothing else (`ProtoKeysAreLost`). So "equal signatures
  mean equal calls" and "a reported tool loop is a loop" hold for turns without such keys, and a turn
  is told from all other such turns exactly when it has none itself (`SignatureTells`,
  `FalseLoopsExactly`).
- `localeCompare` can tie different strings; a turn is recognised in every order exactly when no two
  different calls of it tie (`SignatureComplete`).
- With both loop settings negative, recording a turn never returns (`TrimmingEnds`).
- Restoring the original prompt with a second `beforeRun` rewrite restores the message only when its
  text was a single block (`PutPut`). A hook that writes the prompt into its context object and
  returns that object changes nothing (`EditedContextIsIgnored`).
- `run` and `stream` disagree on a suspended run over budget, and a timeout or cancellation that
  `run` reports as a failure is reported by `stream` as a success (`ParityWithoutHook`). The schema
  path looks neither at the signals nor at a suspended retry (`RunSucceeds`).
- Clearing `errorInfo` when a hook turns a failure into a success has no effect (`StaleErrorInfo`).
- A retry that runs over budget but satisfies the schema is a failure that carries the value
  (`StructuredSuccess`); a retry loses the loop and approval flags (`RunReports`).
- A failed `prompt` leaves its user message in the history, so roles alternate exactly when at most
  the last prompt failed (`HistoryAlternates`).
- The ACP role prompt is spent on the first prompt sent even when that turn fails
  (`RoleGoesFirst`). A session start that fails after connecting leaves its connection open, and the
  next start replaces it without closing it (`LeakExactly`).

## Model

| member | source | states |
|---|---|---|
| OtelRecords.SpanKeyTextInjective | packages/otel/src/exporter.ts:101-103 | Without `/` in trace ids, the text of a span key determines trace and span id; keys may be pairs. |
| OtelRecords.SlashedTraceIdsCollide | packages/otel/src/exporter.ts:101-103 | Two different trace ids can share a key text exactly when one is the other up to a slash. |
| OtelRecords.LinkKeyTextInjective | packages/otel/src/exporter.ts:105-107 | The same for link keys. |
| OtelExporter.OTelTraceExporter.Export | packages/otel/src/exporter.ts:176-189 | Accepts records in order up to the first that throws, whose index it reports; the four indexes stay sound. |
| OtelExporter.OTelTraceExporter.Start | packages/otel/src/exporter.ts:220-233 | A start already open, known or recently finished is dropped; otherwise one span is created and registered, or nothing changes when `startSpan` throws. |
| OtelExporter.OTelTraceExporter.AddEndLinks | packages/otel/src/exporter.ts:328-335 | Sends only links the span does not have, remembering each that went through, up to the first that throws. |
| OtelExporter.OTelTraceExporter.End | packages/otel/src/exporter.ts:255-301 | Describes and ends the span, creating it first if need be; a throw keeps it open; a run end remembers the root and finalises the trace. |
| OtelExporter.OTelTraceExporter.FinalizeTrace | packages/otel/src/exporter.ts:362-371 | Ends what is open in the trace as incomplete and forgets its keys. |
| OtelExporter.OTelTraceExporter.RememberRootContext | packages/otel/src/exporter.ts:352-360 | Puts the root last and evicts from the front down to 256. |
| OtelExporter.OTelTraceExporter.Shutdown | packages/otel/src/exporter.ts:196-206 | Ends every open span as incomplete and empties the four indexes. |
| OtelInvariants.AcceptKeeps | packages/otel/src/exporter.ts:208-301 | Every record, accepted or thrown out half-way, keeps the indexes in agreement, contexts anchored in issued spans, and the open index equal to the spans alive. |
| OtelInvariants.ShutdownEndsAll | packages/otel/src/exporter.ts:196-206 | After shutdown all indexes are empty and every span ever created is closed. |
| OtelInvariants.RememberNew | packages/otel/src/exporter.ts:352-360 | For a root not remembered yet the delete before the write removes nothing, and the result is the last 256. |
| OtelHistory.RunEndIsNew | packages/otel/src/exporter.ts:352-360 | In every run, a run end that goes through is that of a root not remembered, so that delete never removes anything. |
| OtelEffects.AcceptEffect | packages/otel/src/exporter.ts:208-301 | A completed run end removes exactly its trace's keys, closes exactly its open spans marked incomplete, and changes no closed span and nothing of other traces; any other record touches only its own key. |
| OtelTrail.AcceptTraced | packages/otel/src/exporter.ts:208-391 | A record's calls concern its own trace; it starts at most its own span, first, if that is not known; every span it ends, cleanup included, it ends at its own end time. |
| OtelCalls.EventSends | packages/otel/src/exporter.ts:235-253 | In any run with any tracer: an event for an open span sends exactly `addEvent` with its payload and time and, for `first_chunk`, the two attributes with the time since the span's start record, up to the first call that throws. |
| OtelCalls.StrayEvent | packages/otel/src/exporter.ts:235-237 | An event for a key with no open span does nothing. |
| OtelCalls.EndSends | packages/otel/src/exporter.ts:278-295 | An end for an open span sends exactly its attributes, each link the span lacks once, status, for a failure the error attributes and event, and the end at its time, up to the first call that throws; only a run end's cleanup can follow. |
| OtelCalls.StartSends | packages/otel/src/exporter.ts:226-233 | The start of an unknown key sends exactly one `startSpan`, with the record's links and parent. |
| OtelCalls.LateEndSends | packages/otel/src/exporter.ts:262-277 | The end of an unknown key starts an incomplete span with all its links and then describes and ends it, sending no link again. |
| OtelCalls.LinkContextExactly | packages/otel/src/exporter.ts:337-340 | A link carries a context exactly when its target got a span since its trace was last closed, which is then meant, or is among the last 256 finished roots. |
| OtelCalls.EndsAreExplained | packages/otel/src/exporter.ts:278-391 | In every log: each end of a span is cleanup's, right after marking it incomplete and unsetting its status, or follows directly on the attributes, links, status and, exactly for a failure, error of a record offered for that span, every call having returned. |
| OtelRuns.IndexAgreement | packages/otel/src/exporter.ts:142-145 | In every run with every tracer: open keys are known keys; known keys are exactly the disjoint per-trace sets; recent roots are at most 256 and disjoint from known keys. |
| OtelRuns.ExportCounts | packages/otel/src/exporter.ts:176-189 | The reported count is the number of records accepted before the first that throws; nothing after it was offered; the code names its record type. |
| OtelRuns.CallsAreLawful | packages/otel/src/exporter.ts:208-391 | Every tracer call of every run obeys the laws the next four rows draw on. |
| OtelRuns.NoCallAfterEnd | packages/otel/src/exporter.ts:278-301 | After `end` returned for a span no later call concerns it, so it is ended at most once. |
| OtelRuns.NoLinkTwice | packages/otel/src/exporter.ts:328-335 | A link delivered with a span's start or later is never sent to it again, retried ends included. |
| OtelRuns.ParentForest | packages/otel/src/exporter.ts:303-322 | Every parent edge points to an earlier span of the same trace, for any record order. |
| OtelRuns.EdgesAreNamed | packages/otel/src/exporter.ts:303-340 | A parent or link context given to the tracer is that of a span created before, under the key the record or the link names. |
| OtelHistory.SpanConservation | packages/otel/src/exporter.ts:235-391 | Spans created = closed + open, never both; closed means ended, or lost to a cleanup that threw; a tracer that never throws loses none. |
| OtelHistory.ShutdownEndsEverySpan | packages/otel/src/exporter.ts:196-206 | With a tracer that never throws every span of the run has been ended after shutdown. |
| OtelHistory.DuplicateSuppressed | packages/otel/src/exporter.ts:220-225 | A redelivered start, or end of an ended span, makes no call and changes nothing while its trace is unfinalised: no shutdown and no completed run end came between, though run ends that threw or were dropped may have. |
| OtelHistory.RedeliveryExactly | packages/otel/src/exporter.ts:255-261 | For any tracer and run: a start or end does nothing exactly when its root is among the last 256 finished runs, or its key got a span since its trace was last closed, which for an end must be closed. |
| OtelHistory.DroppedExactly | packages/otel/src/exporter.ts:220-225 | In any sound state a start does nothing exactly when its key is known, an end when it is known and not open. |
| OtelHistory.KnownExactly | packages/otel/src/exporter.ts:342-391 | For any tracer and run, late records and shutdowns included: the known keys are those that got a span since their trace was last closed, the open ones those whose span is not closed. |
| OtelHistory.EmptyExactly | packages/otel/src/exporter.ts:294-301 | For any tracer and run: the open, context and trace indexes are all empty exactly when every span is older than the last closing of its trace. |
| OtelHistory.RecentsAreLastRunEnds | packages/otel/src/exporter.ts:296-300 | The recent roots are the last 256 completed run ends since shutdown, in order. |
| OtelHistory.RecentRootSuppressed | packages/otel/src/exporter.ts:255-261 | A start or end of a root among them is dropped without a call. |
| OtelTraces.OneSpanPerKey | packages/otel/src/exporter.ts:220-301 | For any tracer: a trace nothing of which follows its completed run end knows exactly its spans until then and is out of all indexes after; no key of it gets two spans. |
| OtelTraces.ClearedExactly | packages/otel/src/exporter.ts:294-301 | For any tracer: such a trace is out of the indexes exactly when its run end went through or it never got a span. |
| OtelTraces.AllClearedExactly | packages/otel/src/exporter.ts:294-301 | For any tracer: the open, context and trace indexes are all empty exactly when every trace that got a span had its run end go through. |
| OtelTraces.FinishedRunsLeaveNothing | packages/otel/src/exporter.ts:294-301 | With a tracer that never throws, when every trace seen has had its run end, and nothing of it after, the three indexes are empty exactly when every run end is the first end of its span. |
| OtelTraces.RepeatedRootEndLeaves | packages/otel/src/exporter.ts:255-261 | With a tracer that never throws, every run end that repeats the end of its span leaves its trace indexed. |
| OtelTraces.StartsAreRecords | packages/otel/src/exporter.ts:303-322 | For any tracer: a span is started from a record of its key, and gets a parent exactly when the record names one that has a span by then. |
| OtelTraces.SpansAreRecords | packages/otel/src/exporter.ts:220-272 | With a tracer that never throws and the run end last: a key has a span exactly when a start or end record mentions it, one only, started from the first such record. |
| OtelTraces.ParentEdgesExactly | packages/otel/src/exporter.ts:303-322 | Under the same conditions, whatever the order of the other records: the parent edges are exactly those the first records name, where the parent was mentioned before. |
| OtelTraces.ParentEdgesFaithful | packages/otel/src/exporter.ts:303-322 | Under the same conditions the parent edges are exactly those the first records name if and only if parents come first. |
| OtelIsolation.TraceIsolation | packages/otel/src/exporter.ts:176-371 | With a tracer that never throws, the calls made for a self-contained trace are those made when its records are exported alone, for any interleaving. |
| OtelIsolation.BatchingIsIrrelevant | packages/otel/src/exporter.ts:176-189 | Any batching is the same run. |
| OtelRetry.AcceptRefines | packages/otel/src/exporter.ts:255-295 | An accepted record acts like a machine without tracer and exceptions; one that threw leaves a state from which that machine still reaches the same result. |
| OtelRetry.RetriesConverge | packages/otel/src/exporter.ts:176-189 | Re-exporting from the reported count until all is accepted leaves the indexes and every span's links as if nothing had failed. |
| OtelRetry.ResumeAfterFailure | packages/otel/src/exporter.ts:176-189 | The same for one failed export resumed once. |
| ProcessProtocol.NoLostWakeup | packages/core/src/agent/process-backend.ts:81-118 | In every interleaving a reader that cannot move is armed, has no chunk queued and the process has not exited. |
| ProcessProtocol.ExitIsReported | packages/core/src/agent/process-backend.ts:102-145 | After the exit the terminal event comes within twice the queued chunks plus four reader steps, and two more for each chunk that still arrives after an error event. |
| ProcessProtocol.LosslessStream | packages/core/src/agent/process-backend.ts:79-159 | Emitted text is always a prefix of stdout; a finished stream has exactly one terminal event, its last; a successful `done` carries all of stdout after exit code 0, and the text events add up to it. |
| ProcessProtocol.TerminalExactly | packages/core/src/agent/process-backend.ts:53-145 | From what the stream was called with and what had happened by the step that finished it: for `done`, the aborted `done` and each kind of error, exactly when it is the terminal event, and with what content. |
| ProcessProtocol.RunReportsTerminal | packages/core/src/agent/process-backend.ts:35-51 | `run` returns or throws what the terminal event carries. |
| ProcessBackend.ProcessStream.OnStdout | packages/core/src/agent/process-backend.ts:90-94 | The data callback is the protocol's data step and keeps its invariant. |
| ProcessBackend.ProcessStream.OnChildExit | packages/core/src/agent/process-backend-io.ts:48-55 | So is the settling of the exit promise, by the first close or error event. |
| ProcessBackend.ProcessStream.Advance | packages/core/src/agent/process-backend.ts:102-159 | So is each step of the generator body. |
| ProcessBackend.ProcessStream.Collect | packages/core/src/agent/process-backend.ts:35-51 | The consuming loop of `run` computes what the protocol's result function says. |
| LoopText.SameTextSameWords | packages/core/src/agent/loop-detector.ts:75-79 | Two texts normalise alike exactly when their white-space separated words are the same; an output without words is ignored. |
| LoopText.SpacesAre | packages/core/src/agent/loop-detector.ts:76 | Which code units `trim` and `\s` take for white space. |
| LoopJson.StringifyInjective | packages/core/src/agent/loop-detector.ts:112 | `JSON.stringify` gives different texts for different values. |
| LoopSort.OrderIrrelevant | packages/core/src/agent/loop-detector.ts:107-111 | A stable sort ignores the order of its input exactly when no two different elements tie. |
| LoopSignature.SortKeysMeaning | packages/core/src/agent/loop-detector.ts:19-27 | Sorting keys at every depth keeps what the value means, `__proto__` keys aside. |
| LoopSignature.SortKeysCanonical | packages/core/src/agent/loop-detector.ts:15-27 | Two values have one sorted form exactly when they mean the same up to key order at every depth, `__proto__` keys aside. |
| LoopSignature.ProtoKeysAreLost | packages/core/src/agent/loop-detector.ts:22-26 | Meaning is lost exactly when some object has a `__proto__` key. |
| LoopSignature.ProtoCollision | packages/core/src/agent/loop-detector.ts:22-26 | A concrete pair of different calls with one signature. |
| LoopSignature.SignatureSound | packages/core/src/agent/loop-detector.ts:102-113 | Equal signatures of turns without `__proto__` keys come from turns that ask for the same multiset of calls, whatever the collation. |
| LoopSignature.SignatureComplete | packages/core/src/agent/loop-detector.ts:102-113 | A turn is recognised in every arrangement of its calls and keys exactly when its comparator ties no two different items. |
| LoopSignature.SignatureVisibleExact | packages/core/src/agent/loop-detector.ts:102-113 | With a collation that ties only equal strings, signatures are equal exactly when the multisets of calls are, `__proto__` keys aside. |
| LoopSignature.SignatureExact | packages/core/src/agent/loop-detector.ts:102-113 | With a collation that ties only equal strings, equal multisets of calls have equal signatures; without `__proto__` keys, exactly they do. |
| LoopSignature.SignatureTells | packages/core/src/agent/loop-detector.ts:102-113 | A turn is told from every different turn without `__proto__` keys exactly when it has none itself. |
| LoopSignature.TiedNamesSplit | packages/core/src/agent/loop-detector.ts:107-111 | Two names the collation ties give a turn two signatures. |
| LoopDetector.LoopDetector.constructor | packages/core/src/agent/loop-detector.ts:40-45 | Defaults three and four; the window is at least the threshold. |
| LoopDetector.LoopDetector.RecordToolCalls | packages/core/src/agent/loop-detector.ts:50-70 | Reports exactly when the run at the end of the unbounded history reaches the threshold, with the run length capped at the window; an empty turn is not recorded; the text buffer stays. |
| LoopDetector.LoopDetector.RecordText | packages/core/src/agent/loop-detector.ts:75-92 | The same for texts; a blank text is not recorded; the tool buffer stays. |
| LoopDetector.Push | packages/core/src/agent/loop-detector.ts:116-121 | The buffer becomes the last `windowSize` entries. |
| LoopDetector.TrimmingEnds | packages/core/src/agent/loop-detector.ts:118-120 | The trimming loop ends exactly when the window is not negative. |
| LoopDetector.ConsecutiveRepeats | packages/core/src/agent/loop-detector.ts:127-136 | Counts the run of equal entries at the end. |
| LoopDetector.WindowRun | packages/core/src/agent/loop-detector.ts:116-136 | A window shows the run of the whole history, capped at its size. |
| LoopDetector.ToolLoopMeaning | packages/core/src/agent/loop-detector.ts:50-70 | With a collation that ties only equal strings: `m` last turns with calls that asked for the same calls are seen as a loop; if they have no `__proto__` keys, exactly then. |
| LoopDetector.ToolLoopIsReal | packages/core/src/agent/loop-detector.ts:50-70 | Whatever the collation ties, a reported loop of turns without `__proto__` keys is one. |
| LoopDetector.FalseLoopsExactly | packages/core/src/agent/loop-detector.ts:50-70 | A turn can pass for the repetition of a different one without `__proto__` keys exactly when it has such a key. |
| LoopDetector.TextLoopMeaning | packages/core/src/agent/loop-detector.ts:75-92 | A text loop of `m` is seen exactly when the last `m` texts with words have the same words. |
| AgentHook.RewriteCharacterised | packages/core/src/agent/agent.ts:963-981 | The rewritten message is the only one with the other blocks in order and one text block where the first one was, or at the head. |
| AgentHook.PutGet | packages/core/src/agent/agent.ts:919-982 | The next reading is the hook's prompt exactly when it differs from the context's and a user message can carry it, or the list the hook leaves already reads so. |
| AgentHook.GetPut | packages/core/src/agent/agent.ts:961 | Writing back the prompt just read changes nothing. |
| AgentHook.PutPut | packages/core/src/agent/agent.ts:947-982 | Two rewrites equal the second alone exactly unless it restores a changed prompt that was not one text block. |
| AgentHook.WriteFrame | packages/core/src/agent/agent.ts:963-981 | Only the last user message changes, and of it only text; roles and other blocks stay. |
| AgentHook.ApplyExactly | packages/core/src/agent/agent.ts:896-982 | Exactly when a hook's answer is accepted, and what it leaves of every message of the list. |
| AgentHook.MessageList.BuildPrompt | packages/core/src/agent/agent.ts:919-929 | The backward search and join compute the prompt of the last user message. |
| AgentHook.MessageList.ApplyHookContext | packages/core/src/agent/agent.ts:947-982 | Applies the hook's answer in place, or throws and leaves the list alone. |
| AgentOutcome.EnsureRestores | packages/core/src/agent/agent.ts:1025-1051 | Whatever a hook returns: identity restored, success exactly with code `ok`, exactly when the hook said so within budget; which code and error description result; restoring twice or a consistent result changes nothing. |
| AgentOutcome.StaleErrorInfo | packages/core/src/agent/agent.ts:1037-1050 | A success still carries an error description exactly when the hook's result did. |
| AgentOutcome.RunIsConsistent | packages/core/src/agent/agent.ts:391-597 | Every result of every run has success exactly with code `ok`, never over budget, under the run's identity; a run that threw is no success. |
| AgentOutcome.StreamIsConsistent | packages/core/src/agent/agent.ts:803-830 | The same for every `done` event of every stream. |
| AgentReports.HookIsShown | packages/core/src/agent/agent.ts:896-916 | What the first hook is shown, and what its answer makes of the input. |
| AgentReports.RunCalls | packages/core/src/agent/agent.ts:465-466 | The backend is called once with what the hook left, and once more with the conversation and the validator's error exactly when that refuses the first output; the replies are what the calls returned. |
| AgentReports.RunReports | packages/core/src/agent/agent.ts:1000-1022 | A run that returns reports its last reply's output and budget flag, all replies' messages with exactly the feedback between, their usage, the validator's value, and of a single reply the loop and approval flags, which a retry loses. |
| AgentReports.StructuredSuccess | packages/core/src/agent/agent.ts:701-731 | Without hooks a schema run succeeds exactly when it delivers a value within budget; a retry over budget delivers its value with a failure. |
| AgentReports.FailuresAreReported | packages/core/src/agent/agent.ts:564-595 | A run that throws reports the error of the hook, connection or backend call that threw, with code and kind decided by the error's class, then the timeout, then the abort. |
| AgentReports.StreamReports | packages/core/src/agent/agent.ts:803-889 | Backend events are forwarded one for one: chunks as they are, errors with their kind, each `done` with its reply's output, messages, usage and flags, until a hook throws or the backend ends. |
| AgentReports.StreamStarts | packages/core/src/agent/agent.ts:741-803 | A stream that does not reach its backend reports why, and nothing else. |
| AgentOutcome.RunSucceeds | packages/core/src/agent/agent.ts:465-560 | Exactly when a run without hooks succeeds, with and without a schema. |
| AgentOutcome.OneTerminalEvent | packages/core/src/agent/agent.ts:803-889 | A backend that ends its stream once makes the agent's stream end once, even when a hook throws. |
| AgentOutcome.HooksSeeTheSame | packages/core/src/agent/agent.ts:808-819 | `run` and `stream` show a hook the same result but for success under a signal and error details. |
| AgentOutcome.ParityWithoutHook | packages/core/src/agent/agent.ts:803-830 | Without a hook `run` and `stream` give the same result exactly when the backend's is not both suspended and over budget, and no signal counts that only `run` reports. |
| AgentOutcome.RunDoneIsRun | packages/core/src/agent/agent.ts:465-562 | The `run` side compared here is what the whole run makes of its backend's result. |
| AgentOutcome.ParityOfRuns | packages/core/src/agent/agent.ts:391-597 | The same condition for a whole run and a whole stream over one backend result. |
| AgentOutcome.ParityForEveryHook | packages/core/src/agent/agent.ts:481-505 | They agree for every hook exactly when the result is within budget and is suspended or meets no such signal. |
| AgentTokens.RunBalances | packages/core/src/agent/agent.ts:693-716 | A run that returns reports the sum of its backend calls, the retry included; one that threw reports zero. |
| AgentTokens.StreamBalances | packages/core/src/agent/agent.ts:803-830 | A stream that ends with `done` reports what its backend returned. |
| AgentTokens.ChargesExactly | packages/core/src/agent/agent.ts:804-806 | A stream charges its backend's `done` and nothing else, also when a hook throws after it. |
| AgentTokens.TotalIsCharged | packages/core/src/agent/agent.ts:465-466 | However runs overlap, the total is what all backend calls since the last reset returned. |
| AgentTokens.TokenConservation | packages/core/src/agent/agent.ts:564-595 | At every moment of any interleaving, resets included: the total plus what results delivered since the last reset report from before it equals their usage plus that of runs that threw or are under way. |
| AgentTokens.AgentConservation | packages/core/src/agent/agent.ts:465-466 | The same for any runs and streams of the agent whose `afterRun` keeps usage. |
| AgentTokens.NothingOvertaken | packages/core/src/agent/agent.ts:348-355 | Nothing is reported from before the reset when every run that delivered since then began since then. |
| AgentSession.Agent.Prompt | packages/core/src/agent/agent.ts:305-317 | Refuses bad input unchanged; otherwise appends the user message and copies of the result's messages, which stay the caller's. |
| AgentSession.Agent.Execute | packages/core/src/agent/agent.ts:391-597 | The shared path computes the specified result, adds each returned usage and sets the phase, on every exit. |
| AgentSession.Agent.ValidateStructuredOutput | packages/core/src/agent/agent.ts:648-735 | One retry with feedback; merged messages and usage. |
| AgentSession.Agent.StreamEvents | packages/core/src/agent/agent.ts:741-889 | Forwards the backend's events as specified, with usage and phase. |
| AgentSession.Agent.GetHistory | packages/core/src/agent/agent.ts:340-342 | Returns fresh copies equal to the history. |
| AgentSession.Agent.Reset | packages/core/src/agent/agent.ts:348-355 | Empties history and usage. |
| AgentSession.Agent.CallerWrites | packages/core/src/agent/input.ts:80-83 | Writing to any message object a caller holds leaves history and state as they are. |
| AgentSession.HistoryIsTranscript | packages/core/src/agent/agent.ts:305-317 | Over any calls the history is its opening, empty after a reset, followed by each accepted prompt and its result's messages. |
| AgentSession.PromptExactly | packages/core/src/agent/agent.ts:305-317 | What input a prompt takes as which user message, and what an accepted one does to history, usage and phase; a refused one does nothing. |
| AgentSession.RunExactly | packages/core/src/agent/agent.ts:290-293 | The same for a run, which leaves the history alone. |
| AgentSession.StreamExactly | packages/core/src/agent/agent.ts:325-328 | The same for a stream, which completes exactly when it ends with `done`. |
| AgentSession.RunReplies | packages/core/src/agent/agent.ts:673-716 | With backends that reply assistant to assistant, a result does too, across the retry; a thrown run contributes nothing. |
| AgentSession.BackendIsAsked | packages/core/src/agent/agent.ts:687-699 | What a backend is sent alternates and ends with the user, the retry included. |
| AgentSession.HistoryAlternates | packages/core/src/agent/agent.ts:305-317 | Roles alternate throughout the history exactly when of the prompts since the last reset at most the last failed. |
| AcpSpec.UsageTelescopes | packages/core/src/agent/acp-backend.ts:111-116 | Per session, the input tokens of finished turns sum to the last committed reading plus all downward jumps; refused, failed and abandoned turns commit nothing; a disposal restarts the sum. |
| AcpSpec.NoFallsNoSurplus | packages/core/src/agent/acp-backend.ts:275-283 | That sum is the final reading exactly when readings never fell. |
| AcpSpec.TurnCharges | packages/core/src/agent/acp-backend.ts:279-283 | A turn commits its last reading, charging the rise, exactly when it ends well. |
| AcpSpec.RoleGoesFirst | packages/core/src/agent/acp-backend.ts:194-200 | The first prompt sent in a session is the role, a blank line and the prompt; every other goes out as it is. |
| AcpSpec.TurnEvents | packages/core/src/agent/acp-backend.ts:145-302 | One terminal event, at the end, unless the consumer leaves mid-turn or before it starts; a `done` carries the text that was streamed. |
| AcpSpec.TurnEndsExactly | packages/core/src/agent/acp-backend.ts:145-302 | When a turn sends its prompt, when it ends with `done`, a refusal or a failure, and with which records, turn count and budget flag. |
| AcpSpec.TextsExactly | packages/core/src/agent/acp-backend.ts:214-220 | The streamed texts are those of the text updates, in order. |
| AcpSpec.ReadingExactly | packages/core/src/agent/acp-backend.ts:243-249 | The turn's reading is that of its last usage update. |
| AcpSpec.ToolRecordsExactly | packages/core/src/agent/acp-backend.ts:223-242 | One record for each finishing update, in order, with its own title and input, else those of the call's last announcement, its output, and the time since. |
| AcpSpec.OpenConnections | packages/core/src/agent/acp-backend.ts:328-361 | The open connections are the current one and those replaced unclosed. |
| AcpSpec.LeakExactly | packages/core/src/agent/acp-backend.ts:346-361 | None is left behind exactly when no turn starts a session over a half-started connection. |
| AcpBackend.AcpBackend.Stream | packages/core/src/agent/acp-backend.ts:145-302 | The turn as the object runs it, up to its end or the event at which its consumer leaves, equals its specification. |
| AcpBackend.AcpBackend.Dispose | packages/core/src/agent/acp-backend.ts:305-322 | Resets the session, unless closing the connection throws, which resets nothing. |
| AcpBackend.Drain | packages/core/src/agent/acp-backend.ts:206-254 | One pass with a map of announced calls yields the texts in order, the last reading, and for each finished call its output, its duration since the latest announcement, and that announcement's title and input as fallback. |

## Left out

- OpenTelemetry attribute contents, status mapping and link mapping (`packages/otel/src/mapping.ts`): opaque values; which attributes are set, and when, is modelled.
- Exporter diagnostics, `forceFlush` and the timed delegation of shutdown to the provider: I/O and clocks; the end time of a cleanup is an input.
- OtelIsolation.TraceIsolation: spans are compared by their key instead of by span context, which `OneSpanPerKey` justifies.
- OtelRetry.RetriesConverge: is about callers that export again from the reported count; `BatchingTraceSink` does not do so for the status `failure` this exporter returns.
- OtelExporter.OTelTraceExporter.FinalizeTrace: what a cleanup call that threw did inside the OpenTelemetry SDK is unknown; such spans are counted as lost.
- ProcessProtocol.Next: Node is taken to deliver `close` after all stdout; no data follows it.
- Spawning, killing and waiting for processes; `finally` cleanup is modelled only in what the stream observes.
- LoopSignature.Signature: numbers are their printed form, so `-0` and `0` are one; the collation of `localeCompare` is any total preorder.
- LoopDetector.LoopDetector.constructor: settings are integers; that recording with a negative window never returns is `TrimmingEnds`, and the recording methods exclude it.
- The English detail texts of loop reports, errors and statuses, and the redaction of messages.
- Tracing inside the agent (`emitAgentTrace`, span identity), tool registry, adapters and `AgentRunner`: other components.
- AgentOutcome.AgentResult: tool call records and `state.messages` are not modelled; output, messages, usage, flags and status are.
- AgentSession.Agent.Prompt: message blocks are values, so sharing below a message object is not modelled; prompt input is passed as a value.
- `extractJSON` and `validateOutput` are one function from the output to a verdict; `assertValidMessages` is a flag on the input.
- AcpSpec.Stream: a turn's updates are what it reads; that a turn may read what an abandoned one left queued in the session, its stop included, is not modelled.
- ACP transport, permission prompts, the text form of tool outputs; overlapping turns on one ACP session and the sharing of one pending start between them.
- Task queue, scheduler, checkpoints, approval ledger, pools, the CLI and the examples.
