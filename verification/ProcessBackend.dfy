/** The running stream as an object: the callbacks and the generator update the same fields. */
module ProcessBackend {
  import opened ProcessProtocol

  class ProcessStream {
    const config: Config
    var stdout: string
    var stderr: string
    var chunks: seq<string>
    var wake: bool
    var exit: Exit
    var aborted: bool
    var completed: bool
    var phase: Phase
    var emitted: seq<StreamEvent>

    function Abs(): State
      reads this
    {
      State(stdout, stderr, chunks, wake, exit, aborted, completed, phase, emitted)
    }

    constructor (config: Config)
      ensures this.config == config && Abs() == Begin(config) && Inv(Abs())
    {
      this.config := config;
      stdout, stderr, chunks, wake, exit := "", "", [], false, Pending;
      aborted, completed := config.abortedAtStart, false;
      phase, emitted := Drain, [];
      new;
      if config.promptRequired && config.prompt == "" {
        exit, phase, emitted := NotSpawned, Finished, [Error(EmptyPrompt)];
      } else if aborted {
        exit, phase, emitted := NotSpawned, Finished, [Cancelled(config.agentName, "")];
      } else if config.spawnError.Some? {
        exit, phase, emitted := NotSpawned, Finished, [Error(SpawnError(config.spawnError.value))];
      }
      BeginInv(config);
    }

    method WakeReader()
      modifies this
      ensures Abs()
          == old(Abs()).(wake := false, phase := if old(wake) then Settle(old(phase), ByChunk) else old(phase))
    {
      if wake && phase == Parked(Unsettled) { phase := Parked(ByChunk); }
      wake := false;
    }

    /** The stdout `data` callback. */
    method OnStdout(chunk: string)
      requires Open(exit)
      modifies this
      ensures Abs() == Next(config, old(Abs()), Data(chunk))
      ensures old(Inv(Abs())) ==> Inv(Abs())
    {
      ghost var before := Abs();
      stdout := stdout + chunk;
      chunks := chunks + [chunk];
      WakeReader();
      if Inv(before) { NextInv(config, before, Data(chunk)); }
    }

    /** The stderr `data` callback. */
    method OnStderr(chunk: string)
      requires Open(exit)
      modifies this`stderr
      ensures Abs() == Next(config, old(Abs()), Stderr(chunk))
    {
      stderr := stderr + chunk;
    }

    /** The first of the child's `close` and `error` events settles the exit promise. */
    method OnChildExit(outcome: Exit)
      requires outcome.Closed? || outcome.Failed?
      modifies this
      ensures Abs() == Next(config, old(Abs()), if outcome.Closed? then Close(outcome.code) else Fail(outcome.error))
      ensures old(Inv(Abs())) ==> Inv(Abs())
    {
      if exit == Pending {
        exit := outcome;
        if phase == Parked(Unsettled) { phase := Parked(ByExit); }
      }
    }

    method OnAbort()
      modifies this`aborted
      ensures Abs() == Next(config, old(Abs()), Abort)
    {
      aborted := true;
    }

    /** One step of the generator body. */
    method Advance()
      modifies this
      ensures Abs() == Next(config, old(Abs()), Resume)
      ensures old(Inv(Abs())) ==> Inv(Abs())
    {
      hide Inv, Terminal;
      ghost var before := Abs();
      match phase {
        case Drain =>
          if |chunks| > 0 { YieldChunk(false); }
          else {
            wake := true;
            phase := Parked(if exit == Pending then Unsettled else ByExit);
          }
        case AtYield(final) => phase := if final then FinalDrain else Drain;
        case Parked(race) =>
          if race == ByChunk { phase := Drain; }
          else if race == ByExit {
            if exit.Failed? { YieldLast(Error(ProcessError(exit.error))); }
            else if exit.Closed? { phase := FinalDrain; }
          }
        case FinalDrain =>
          if |chunks| > 0 { YieldChunk(true); }
          else if exit.Closed? {
            var last := Terminal(config, Abs(), exit.code);
            completed := true;
            YieldLast(last);
          }
        case Finished =>
        case Abandoned =>
      }
      if Inv(before) { NextInv(config, before, Resume); }
    }

    method YieldChunk(final: bool)
      requires chunks != []
      modifies this
      ensures Abs() == EmitChunk(old(Abs()), final)
    {
      emitted := emitted + [Text(chunks[0])];
      chunks := chunks[1..];
      phase := AtYield(final);
    }

    method YieldLast(e: StreamEvent)
      modifies this
      ensures Abs() == Finish(old(Abs()), e)
    {
      emitted := emitted + [e];
      phase := Finished;
      wake := false;
    }

    /** Consume the emitted events the way `run` does. */
    method Collect() returns (out: RunOutcome)
      ensures out == RunResult(emitted, Returned("", [], false))
    {
      out := Returned("", [], false);
      var i := 0;
      while i < |emitted|
        invariant 0 <= i <= |emitted|
        invariant RunResult(emitted[i..], out) == RunResult(emitted, Returned("", [], false))
      {
        match emitted[i] {
          case Text(_) =>
          case Done(o, m, a) => out := Returned(o, m, a);
          case Error(f) => return Threw(f);
        }
        i := i + 1;
      }
    }
  }
}
