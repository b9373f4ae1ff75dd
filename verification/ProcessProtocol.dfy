/** The process backend's stream as a protocol: stdout callbacks, process exit, abort and the
    consumer of the generator interleave freely. */
module ProcessProtocol {
  import opened Collections

  /** The child's exit promise, when a child was started: unsettled, resolved by `close` (no
      code when a signal ended the process), or rejected by `error`. */
  datatype Exit = NotSpawned | Pending | Closed(code: Option<int>) | Failed(error: string)

  /** Which promise settled the race the reader waits on. */
  datatype Race = Unsettled | ByChunk | ByExit

  /** Where the generator stands between two steps. `AtYield` is suspended in a text event
      until the consumer asks for more; `final` tells the drain loop after exit. */
  datatype Phase =
    | Drain | AtYield(final: bool) | Parked(race: Race) | FinalDrain | Finished | Abandoned

  datatype Failure =
    | EmptyPrompt | SpawnError(error: string) | ProcessError(error: string)
    | ExitError(code: Option<int>, stderr: string) | CallbackError

  datatype StreamEvent =
    | Text(data: string)
    | Done(output: string, messages: seq<string>, aborted: bool)
    | Error(failure: Failure)

  /** What the call to `stream` brings along. */
  datatype Config = Config(agentName: string, promptRequired: bool, prompt: string, abortedAtStart: bool,
                           spawnError: Option<string>, onMessageThrows: bool)

  datatype State = State(
    stdout: string,
    stderr: string,
    chunks: seq<string>,
    wake: bool,
    exit: Exit,
    aborted: bool,
    completed: bool,
    phase: Phase,
    emitted: seq<StreamEvent>)

  datatype Step =
    | Data(chunk: string) | Stderr(chunk: string)
    | Close(code: Option<int>) | Fail(error: string)
    | Abort | Resume | Abandon

  function Cancelled(agentName: string, stdout: string): StreamEvent {
    Done(if stdout != "" then stdout else "Process backend \"" + agentName + "\" cancelled.", [], true)
  }

  /** The state once the guards before the process is running have been passed, or the
      finished stream of the guard that did not let it. */
  function Begin(c: Config): State {
    var live := State("", "", [], false, Pending, c.abortedAtStart, false, Drain, []);
    var refused := live.(exit := NotSpawned, phase := Finished);
    if c.promptRequired && c.prompt == "" then refused.(emitted := [Error(EmptyPrompt)])
    else if c.abortedAtStart then refused.(emitted := [Cancelled(c.agentName, "")])
    else if c.spawnError.Some? then refused.(emitted := [Error(SpawnError(c.spawnError.value))])
    else live
  }

  function Settle(phase: Phase, race: Race): Phase {
    if phase == Parked(Unsettled) then Parked(race) else phase
  }

  function OnData(st: State, chunk: string): State {
    st.(stdout := st.stdout + chunk,
        chunks := st.chunks + [chunk],
        phase := if st.wake then Settle(st.phase, ByChunk) else st.phase,
        wake := false)
  }

  function OnExit(st: State, exit: Exit): State {
    st.(exit := exit, phase := Settle(st.phase, ByExit))
  }

  function Finish(st: State, e: StreamEvent): State {
    st.(emitted := st.emitted + [e], phase := Finished, wake := false)
  }

  /** The event that ends a stream whose process closed with `code`. */
  function Terminal(c: Config, st: State, code: Option<int>): StreamEvent {
    if st.aborted then Cancelled(c.agentName, st.stdout)
    else if code != Some(0) then Error(ExitError(code, st.stderr))
    else if st.stdout != "" && c.onMessageThrows then Error(CallbackError)
    else Done(st.stdout, if st.stdout != "" then [st.stdout] else [], false)
  }

  function EmitChunk(st: State, final: bool): State
    requires st.chunks != []
  {
    st.(emitted := st.emitted + [Text(st.chunks[0])], chunks := st.chunks[1..], phase := AtYield(final))
  }

  /** One step of the generator; waiting on an unsettled race is no step. */
  function OnResume(c: Config, st: State): State {
    match st.phase
    case Drain =>
      if st.chunks != [] then EmitChunk(st, false)
      else st.(wake := true, phase := Parked(if st.exit == Pending then Unsettled else ByExit))
    case AtYield(final) => st.(phase := if final then FinalDrain else Drain)
    case Parked(Unsettled) => st
    case Parked(ByChunk) => st.(phase := Drain)
    case Parked(ByExit) =>
      (match st.exit
       case Failed(error) => Finish(st, Error(ProcessError(error)))
       case Closed(_) => st.(phase := FinalDrain)
       case _ => st)
    case FinalDrain =>
      if st.chunks != [] then EmitChunk(st, true)
      else if st.exit.Closed? then Finish(st.(completed := true), Terminal(c, st, st.exit.code))
      else st
    case Finished => st
    case Abandoned => st
  }

  /** Node delivers `close` after the last chunk; an `error` event may be followed by more. */
  predicate Open(exit: Exit) { exit.Pending? || exit.Failed? }

  /** The exit promise settles once: a close or error event after that changes nothing. */
  function Next(c: Config, st: State, s: Step): State {
    match s
    case Data(chunk) => if Open(st.exit) then OnData(st, chunk) else st
    case Stderr(chunk) => if Open(st.exit) then st.(stderr := st.stderr + chunk) else st
    case Close(code) => if st.exit == Pending then OnExit(st, Closed(code)) else st
    case Fail(error) => if st.exit == Pending then OnExit(st, Failed(error)) else st
    case Abort => st.(aborted := true)
    case Resume => OnResume(c, st)
    case Abandon => if st.phase.AtYield? then st.(phase := Abandoned, wake := false) else st
  }

  function Run(c: Config, steps: seq<Step>): State {
    if steps == [] then Begin(c) else Next(c, Run(c, steps[..|steps| - 1]), steps[|steps| - 1])
  }

  // ---- the invariant ------------------------------------------------------------------

  function Texts(es: seq<StreamEvent>): string {
    if es == [] then ""
    else Texts(es[..|es| - 1]) + if es[|es| - 1].Text? then es[|es| - 1].data else ""
  }

  lemma {:induction false} JoinHead(ss: seq<string>)
    requires ss != []
    ensures Join(ss) == ss[0] + Join(ss[1..])
  {
    if |ss| > 1 {
      JoinHead(ss[..|ss| - 1]);
      assert ss[..|ss| - 1][1..] == ss[1..][..|ss| - 2];
    }
  }

  lemma TextsAppend(es: seq<StreamEvent>, e: StreamEvent)
    ensures Texts(es + [e]) == Texts(es) + if e.Text? then e.data else ""
  {
  }

  ghost predicate AllTexts(es: seq<StreamEvent>) {
    forall i :: 0 <= i < |es| ==> es[i].Text?
  }

  /** What the terminal event of a stream that has its process says about stdout. */
  predicate Truthful(e: StreamEvent, st: State) {
    match e
    case Text(_) => false
    case Error(f) => !(f.ExitError? && f.code == Some(0))
    case Done(output, messages, aborted) =>
      if aborted then (st.exit.Closed? || st.exit == NotSpawned) && (st.stdout != "" ==> output == st.stdout)
      else
        && st.exit == Closed(Some(0)) && output == st.stdout
        && messages == if output != "" then [output] else []
  }

  ghost predicate Inv(st: State) {
    && Texts(st.emitted) + Join(st.chunks) == st.stdout
    && (st.phase == Parked(Unsettled) ==> st.chunks == [] && st.exit == Pending && st.wake)
    && (st.phase == Parked(ByExit) ==> st.exit.Closed? || st.exit.Failed?)
    && (st.exit == NotSpawned ==> st.phase == Finished)
    && (st.phase == FinalDrain || st.phase == AtYield(true) ==> st.exit.Closed?)
    && (if st.phase == Finished then
          && st.exit != Pending && st.emitted != [] && AllTexts(st.emitted[..|st.emitted| - 1])
          && Truthful(st.emitted[|st.emitted| - 1], st)
          && (st.completed ==> st.exit.Closed? && st.chunks == [])
          && (st.emitted[|st.emitted| - 1].Done? && !st.emitted[|st.emitted| - 1].aborted ==> st.completed)
        else AllTexts(st.emitted) && !st.completed)
  }

  lemma BeginInv(c: Config)
    ensures Inv(Begin(c))
  {
  }

  lemma EmitInv(st: State, final: bool)
    requires Inv(st) && st.chunks != [] && (st.phase == Drain || st.phase == FinalDrain)
    requires final == (st.phase == FinalDrain)
    ensures Inv(EmitChunk(st, final))
  {
    JoinHead(st.chunks);
    TextsAppend(st.emitted, Text(st.chunks[0]));
    assert Texts(st.emitted) + (st.chunks[0] + Join(st.chunks[1..]))
        == Texts(st.emitted) + st.chunks[0] + Join(st.chunks[1..]);
  }

  lemma FinishInv(st: State, e: StreamEvent, completed: bool)
    requires Inv(st) && st.phase != Finished && st.exit != Pending && Truthful(e, st)
    requires completed ==> st.exit.Closed? && st.chunks == []
    requires e.Done? && !e.aborted ==> completed
    ensures Inv(Finish(st.(completed := completed), e))
  {
  }

  lemma DataInv(st: State, chunk: string)
    requires Inv(st) && Open(st.exit)
    ensures Inv(OnData(st, chunk))
  {
  }

  lemma {:induction false} ResumeInv(c: Config, st: State)
    requires Inv(st)
    ensures Inv(OnResume(c, st))
  {
    hide Texts, Join, AllTexts;
    if (st.phase == Drain || st.phase == FinalDrain) && st.chunks != [] {
      EmitInv(st, st.phase == FinalDrain);
    } else if st.phase == FinalDrain {
      FinishInv(st, Terminal(c, st, st.exit.code), true);
    } else if st.phase == Parked(ByExit) && st.exit.Failed? {
      FinishInv(st, Error(ProcessError(st.exit.error)), false);
    }
  }

  lemma {:induction false} NextInv(c: Config, st: State, s: Step)
    requires Inv(st)
    ensures Inv(Next(c, st, s))
  {
    hide Texts, Join, AllTexts, OnResume, OnData;
    match s
    case Data(chunk) => if Open(st.exit) { DataInv(st, chunk); }
    case Resume => ResumeInv(c, st);
    case _ =>
  }

  lemma {:induction false} RunInv(c: Config, steps: seq<Step>)
    ensures Inv(Run(c, steps))
  {
    if steps == [] { BeginInv(c); }
    else {
      RunInv(c, steps[..|steps| - 1]);
      NextInv(c, Run(c, steps[..|steps| - 1]), steps[|steps| - 1]);
    }
  }

  // ---- no lost wake-up, bounded completion ----------------------------------------------

  /** The generator is still alive but its next step would do nothing. */
  predicate Waiting(c: Config, st: State) {
    st.phase != Finished && st.phase != Abandoned && OnResume(c, st) == st
  }

  /** In no interleaving does the reader wait with a chunk queued or with the exit known: a
      reader that cannot move is armed to be woken, and there is nothing to deliver. */
  lemma {:induction false} NoLostWakeup(c: Config, steps: seq<Step>)
    ensures var st := Run(c, steps);
            Waiting(c, st) <==> st.phase == Parked(Unsettled)
    ensures var st := Run(c, steps);
            Waiting(c, st) ==> st.chunks == [] && st.exit == Pending && st.wake
  {
    hide Inv, Run, OnResume;
    RunInv(c, steps);
    ResumeMoves(c, Run(c, steps));
  }

  lemma ResumeMoves(c: Config, st: State)
    requires Inv(st)
    ensures OnResume(c, st) == st ==> st.phase == Finished || st.phase == Abandoned || st.phase == Parked(Unsettled)
    ensures st.phase == Parked(Unsettled) ==> OnResume(c, st) == st && st.chunks == [] && st.exit == Pending && st.wake
  {
  }

  /** Generator steps left before the end once the exit is known. */
  function StepsLeft(st: State): nat {
    match st.phase
    case Drain => 2 * |st.chunks| + 3
    case AtYield(final) => 2 * |st.chunks| + if final then 2 else 4
    case Parked(race) => 2 * |st.chunks| + if race == ByExit then 2 else 4
    case FinalDrain => 2 * |st.chunks| + 1
    case Finished => 0
    case Abandoned => 0
  }

  function Resumes(steps: seq<Step>): nat {
    if steps == [] then 0
    else Resumes(steps[..|steps| - 1]) + if steps[|steps| - 1] == Resume then 1 else 0
  }

  function RunFrom(c: Config, st: State, steps: seq<Step>): State {
    if steps == [] then st else Next(c, RunFrom(c, st, steps[..|steps| - 1]), steps[|steps| - 1])
  }

  /** Chunks that arrive although the exit is known: only an `error` event lets any through. */
  function Arrivals(exit: Exit, steps: seq<Step>): nat {
    if steps == [] || !exit.Failed? then 0
    else Arrivals(exit, steps[..|steps| - 1]) + if steps[|steps| - 1].Data? then 1 else 0
  }

  lemma StepsLeftDecrease(c: Config, st: State, s: Step)
    requires Inv(st) && st.exit != Pending
    ensures var st' := Next(c, st, s);
            && st'.exit == st.exit
            && (StepsLeft(st) == 0 ==> StepsLeft(st') == 0)
            && (StepsLeft(st) > 0 ==>
                  StepsLeft(st') + (if s == Resume then 1 else 0)
                  <= StepsLeft(st) + if s.Data? && st.exit.Failed? then 2 else 0)
  {
  }

  /** After the exit, the terminal event comes within `StepsLeft` generator steps (at most
      twice the queued chunks plus four), and two more for each chunk that still arrives. */
  lemma {:induction false} ExitIsReported(c: Config, st: State, steps: seq<Step>)
    requires Inv(st) && st.exit != Pending
    ensures var st' := RunFrom(c, st, steps);
            && Inv(st') && st'.exit == st.exit
            && (StepsLeft(st') == 0 || StepsLeft(st') + Resumes(steps) <= StepsLeft(st) + 2 * Arrivals(st.exit, steps))
            && (Resumes(steps) >= StepsLeft(st) + 2 * Arrivals(st.exit, steps) ==>
                  st'.phase == Finished || st'.phase == Abandoned)
    ensures StepsLeft(st) <= 2 * |st.chunks| + 4
  {
    hide Inv, Next;
    if steps != [] {
      var mid := RunFrom(c, st, steps[..|steps| - 1]);
      ExitIsReported(c, st, steps[..|steps| - 1]);
      NextInv(c, mid, steps[|steps| - 1]);
      StepsLeftDecrease(c, mid, steps[|steps| - 1]);
    }
  }

  // ---- what the consumer receives -------------------------------------------------------

  function Terminals(es: seq<StreamEvent>): nat {
    if es == [] then 0 else Terminals(es[..|es| - 1]) + if es[|es| - 1].Text? then 0 else 1
  }

  lemma {:induction false} TextsHaveNoTerminal(es: seq<StreamEvent>)
    requires AllTexts(es)
    ensures Terminals(es) == 0
  {
    if es != [] { TextsHaveNoTerminal(es[..|es| - 1]); }
  }

  lemma PrefixOf(a: string, b: string, whole: string)
    requires a + b == whole
    ensures a <= whole
  {
  }

  /** Every interleaving: text events are a prefix of stdout, in order and without loss; a
      finished stream has exactly one terminal event, its last; a successful `done` carries
      exactly the concatenated text, which is all of stdout, after a zero exit code. */
  lemma {:induction false} LosslessStream(c: Config, steps: seq<Step>)
    ensures var st := Run(c, steps);
            && Texts(st.emitted) <= st.stdout
            && Terminals(st.emitted) == (if st.phase == Finished then 1 else 0)
            && (st.phase == Finished ==>
                  var last := st.emitted[|st.emitted| - 1];
                  && !last.Text?
                  && (last.Done? && !last.aborted ==>
                        && st.exit == Closed(Some(0))
                        && last.output == Texts(st.emitted) == st.stdout
                        && last.messages == if last.output != "" then [last.output] else [])
                  && (st.completed ==> Texts(st.emitted) == st.stdout))
  {
    RunInv(c, steps);
    var st := Run(c, steps);
    PrefixOf(Texts(st.emitted), Join(st.chunks), st.stdout);
    if st.phase == Finished { TextsHaveNoTerminal(st.emitted[..|st.emitted| - 1]); }
    else { TextsHaveNoTerminal(st.emitted); }
  }

  // ---- which terminal event, and when ------------------------------------------------------

  /** The guards before the process let the call through. */
  predicate Started(c: Config) {
    !(c.promptRequired && c.prompt == "") && !c.abortedAtStart && c.spawnError.None?
  }

  /** The first close or error event. */
  function ExitOf(steps: seq<Step>): Exit {
    if steps == [] then Pending
    else
      var before := ExitOf(steps[..|steps| - 1]);
      if before != Pending then before
      else match steps[|steps| - 1]
        case Close(code) => Closed(code)
        case Fail(error) => Failed(error)
        case _ => Pending
  }

  /** What the process wrote before it closed. */
  function Stdout(steps: seq<Step>): string {
    if steps == [] then ""
    else
      var init, s := steps[..|steps| - 1], steps[|steps| - 1];
      Stdout(init) + if s.Data? && !ExitOf(init).Closed? then s.chunk else ""
  }

  function StderrOf(steps: seq<Step>): string {
    if steps == [] then ""
    else
      var init, s := steps[..|steps| - 1], steps[|steps| - 1];
      StderrOf(init) + if s.Stderr? && !ExitOf(init).Closed? then s.chunk else ""
  }

  /** What the callbacks leave in the fields depends on the steps alone. */
  lemma {:induction false} RunFields(c: Config, steps: seq<Step>)
    requires Started(c)
    ensures var st := Run(c, steps);
            && st.exit == ExitOf(steps) && st.exit != NotSpawned
            && st.stdout == Stdout(steps) && st.stderr == StderrOf(steps)
            && (st.aborted <==> Abort in steps)
  {
    hide Next;
    if steps != [] {
      var init, s := steps[..|steps| - 1], steps[|steps| - 1];
      RunFields(c, init);
      NextFields(c, Run(c, init), s);
      assert steps == init + [s];
    }
  }

  lemma NextFields(c: Config, st: State, s: Step)
    requires st.exit != NotSpawned
    ensures var st' := Next(c, st, s);
            && st'.exit == (if st.exit != Pending then st.exit
                            else match s
                              case Close(code) => Closed(code)
                              case Fail(error) => Failed(error)
                              case _ => Pending)
            && st'.stdout == st.stdout + (if s.Data? && !st.exit.Closed? then s.chunk else "")
            && st'.stderr == st.stderr + (if s.Stderr? && !st.exit.Closed? then s.chunk else "")
            && st'.aborted == (st.aborted || s == Abort)
  {
    hide OnResume, Settle;
    ResumeKeepsFields(c, st);
  }

  lemma ResumeKeepsFields(c: Config, st: State)
    ensures var st' := OnResume(c, st);
            st'.exit == st.exit && st'.stdout == st.stdout && st'.stderr == st.stderr && st'.aborted == st.aborted
  {
    hide Terminal;
  }

  lemma {:induction false} FinishedStays(c: Config, steps: seq<Step>, m: nat)
    requires m <= |steps| && Run(c, steps[..m]).phase == Finished
    ensures Run(c, steps).phase == Finished && Run(c, steps).emitted == Run(c, steps[..m]).emitted
  {
    if m == |steps| {
      assert steps[..m] == steps;
    } else {
      assert steps[..|steps| - 1][..m] == steps[..m];
      FinishedStays(c, steps[..|steps| - 1], m);
    }
  }

  /** The stream finishes with step `m`, or, for 0, before any. */
  ghost predicate FinishesAt(c: Config, steps: seq<Step>, m: nat) {
    && m <= |steps| && Run(c, steps[..m]).phase == Finished
    && (m > 0 ==> Run(c, steps[..m - 1]).phase != Finished)
  }

  /** The step that finishes a stream with a process: the reader learns of the error, or has drained
      everything after the close. */
  lemma LastStep(c: Config, st: State, s: Step)
    requires Inv(st) && st.phase != Finished && Next(c, st, s).phase == Finished
    ensures s == Resume && (st.exit.Failed? || st.exit.Closed?)
    ensures Next(c, st, s).emitted == st.emitted + [match st.exit
                                                    case Failed(error) => Error(ProcessError(error))
                                                    case Closed(code) => Terminal(c, st, code)
                                                    case _ => Error(EmptyPrompt)]
  {
  }

  /** Which terminal event a stream ends with, from what it was called with and what had happened by
      the step that finished it; each kind exactly when. */
  lemma {:induction false} TerminalExactly(c: Config, steps: seq<Step>, m: nat)
    requires FinishesAt(c, steps, m)
    ensures Run(c, steps).phase == Finished && Run(c, steps).emitted != []
    ensures var es := Run(c, steps).emitted;
            var last, past := es[|es| - 1], steps[..m];
            var exit, out, aborted := ExitOf(past), Stdout(past), Abort in past;
            && (last.Done? && !last.aborted <==>
                  Started(c) && exit == Closed(Some(0)) && !aborted && !(out != "" && c.onMessageThrows))
            && (last.Done? && !last.aborted ==> last.output == out && last.messages == if out != "" then [out] else [])
            && (last.Done? && last.aborted <==>
                  if Started(c) then exit.Closed? && aborted
                  else !(c.promptRequired && c.prompt == "") && c.abortedAtStart)
            && (last.Done? && last.aborted ==>
                  && last.messages == []
                  && last.output == if Started(c) && out != "" then out
                                    else "Process backend \"" + c.agentName + "\" cancelled.")
            && (last == Error(EmptyPrompt) <==> c.promptRequired && c.prompt == "")
            && (forall e :: last == Error(SpawnError(e)) <==>
                  !(c.promptRequired && c.prompt == "") && !c.abortedAtStart && c.spawnError == Some(e))
            && (forall e :: last == Error(ProcessError(e)) <==> Started(c) && exit == Failed(e))
            && (forall code, err :: last == Error(ExitError(code, err)) <==>
                  Started(c) && exit == Closed(code) && code != Some(0) && !aborted && err == StderrOf(past))
            && (last == Error(CallbackError) <==>
                  Started(c) && exit == Closed(Some(0)) && !aborted && out != "" && c.onMessageThrows)
  {
    hide Inv, OnResume, Next;
    FinishedStays(c, steps, m);
    var past := steps[..m];
    if m == 0 {
      assert past == [];
    } else {
      var init, s := past[..m - 1], past[m - 1];
      assert init == steps[..m - 1];
      var st := Run(c, init);
      RunInv(c, init);
      LastStep(c, st, s);
      if Started(c) {
        RunFields(c, init);
        RunFields(c, past);
        ResumeChangesNothing(init);
        assert past == init + [Resume];
      } else {
        RefusedIsFinished(c, init);
      }
    }
  }

  lemma ResumeChangesNothing(init: seq<Step>)
    ensures var past := init + [Resume];
            && ExitOf(past) == ExitOf(init) && Stdout(past) == Stdout(init) && StderrOf(past) == StderrOf(init)
            && (Abort in past <==> Abort in init)
  {
    assert (init + [Resume])[..|init|] == init;
  }

  lemma RefusedIsFinished(c: Config, steps: seq<Step>)
    requires !Started(c)
    ensures Run(c, steps).phase == Finished
  {
    assert steps[..0] == [];
    FinishedStays(c, steps, 0);
  }

  // ---- run ------------------------------------------------------------------------------

  datatype RunOutcome = Returned(output: string, messages: seq<string>, aborted: bool) | Threw(failure: Failure)

  /** `run` folds the stream: the last `done` is the result, the first error is thrown. */
  function RunResult(es: seq<StreamEvent>, result: RunOutcome): RunOutcome
    decreases |es|
  {
    if es == [] then result
    else
      match es[0]
      case Text(_) => RunResult(es[1..], result)
      case Done(o, m, a) => RunResult(es[1..], Returned(o, m, a))
      case Error(f) => Threw(f)
  }

  lemma {:induction false} RunSkipsTexts(es: seq<StreamEvent>, e: StreamEvent, result: RunOutcome)
    requires AllTexts(es)
    ensures RunResult(es + [e], result) == RunResult([e], result)
    decreases |es|
  {
    if es == [] {
      assert es + [e] == [e];
    } else {
      assert (es + [e])[1..] == es[1..] + [e];
      RunSkipsTexts(es[1..], e, result);
    }
  }

  /** `run` returns what the terminal `done` carries and throws what the terminal error
      carries; on success its output is all of stdout. */
  lemma RunReportsTerminal(c: Config, steps: seq<Step>)
    requires Run(c, steps).phase == Finished
    ensures Run(c, steps).emitted != []
    ensures var st, out := Run(c, steps), RunResult(Run(c, steps).emitted, Returned("", [], false));
            match st.emitted[|st.emitted| - 1]
            case Text(_) => false
            case Done(o, m, a) => out == Returned(o, m, a) && (!a ==> o == st.stdout && st.exit == Closed(Some(0)))
            case Error(f) => out == Threw(f)
  {
    RunInv(c, steps);
    var es := Run(c, steps).emitted;
    RunSkipsTexts(es[..|es| - 1], es[|es| - 1], Returned("", [], false));
    assert es == es[..|es| - 1] + [es[|es| - 1]];
  }
}
