/** Token accounting when runs of one agent overlap. */
module AgentTokens {
  import opened Collections
  import opened AgentHook
  import opened AgentOutcome

  function Sum(us: seq<Usage>): Usage {
    if us == [] then ZERO else Add(Sum(us[..|us| - 1]), us[|us| - 1])
  }

  // ---- what one run charges and reports ---------------------------------------------------

  /** What a run adds to the agent's total, call by call, and what its result reports in the
      end; nothing when it threw. */
  datatype Script = Script(charges: seq<Usage>, reported: Usage, kept: bool)

  ghost predicate Balanced(s: Script) {
    s.reported == if s.kept then Sum(s.charges) else ZERO
  }

  function Usages(replies: seq<RunResult>): seq<Usage> {
    if replies == [] then [] else Usages(replies[..|replies| - 1]) + [replies[|replies| - 1].usage]
  }

  function RunScript(env: Env, messages: seq<Message>): Script {
    var run := ExecuteRun(env, messages);
    Script(Usages(run.replies), run.result.usage, !run.threw)
  }

  function StreamCharges(env: Env, events: seq<BackendEvent>): seq<Usage>
    decreases |events|
  {
    if events == [] then []
    else
      (if events[0].BackendDone? then [events[0].result.usage] else [])
      + if Forward(env, events[0]).stops then [] else StreamCharges(env, events[1..])
  }

  function StreamScript(env: Env, messages: seq<Message>, stream: seq<Message> -> BackendStream): Script {
    var out := ExecuteStream(env, messages, stream);
    var started := BeforeRun(env, messages).Returned? && env.connect.None?;
    var charges := if started then StreamCharges(env, stream(BeforeRun(env, messages).value).events) else [];
    if out != [] && out[|out| - 1].AgentDone? then Script(charges, out[|out| - 1].result.usage, true)
    else Script(charges, ZERO, false)
  }

  /** `afterRun` does not rewrite the usage. */
  ghost predicate KeepsUsage(env: Env) {
    forall r :: AfterRun(env, r).Returned? ==> AfterRun(env, r).value.usage == r.usage
  }

  lemma UsagesOfTwo(a: RunResult, b: RunResult)
    ensures Usages([a]) == [a.usage] && Usages([a] + [b]) == [a.usage, b.usage]
    ensures Sum(Usages([a])) == a.usage && Sum(Usages([a] + [b])) == Add(a.usage, b.usage)
  {
  }

  lemma ConcludeUsage(env: Env, before: AgentResult, replies: seq<RunResult>, sent: seq<seq<Message>>)
    requires KeepsUsage(env)
    ensures var run := Conclude(env, before, replies, sent);
            && run.replies == replies
            && run.result.usage == if run.threw then ZERO else before.usage
  {
  }

  /** A run that returns reports what its backend calls returned, the retry included. */
  lemma {:induction false} RunBalances(env: Env, messages: seq<Message>)
    requires KeepsUsage(env)
    ensures Balanced(RunScript(env, messages))
  {
    hide KeepsUsage, Conclude, BeforeRun, Sum, Usages;
    var ms := BeforeRun(env, messages);
    if ms.Returned? && env.connect.None? && env.backend(0, ms.value).Returned? {
      var r := env.backend(0, ms.value).value;
      UsagesOfTwo(r, r);
      if r.suspended {
      } else if r.budgetExceeded {
        ConcludeUsage(env, OverBudget(env, r), [r], [ms.value]);
      } else if env.schema.None? {
        ConcludeUsage(env, Judge(env, r), [r], [ms.value]);
      } else {
        SchemaBalances(env, ms.value, r);
      }
    }
  }

  lemma SchemaBalances(env: Env, ms: seq<Message>, r: RunResult)
    requires KeepsUsage(env) && env.schema.Some?
    ensures var v := Validate(env, env.schema.value, ms, r);
            v.outcome.Returned? ==>
              var run := Conclude(env, v.outcome.value, [r] + v.retry, [ms] + v.resent);
              && run.replies == [r] + v.retry
              && run.result.usage == if run.threw then ZERO else Sum(Usages([r] + v.retry))
  {
    hide KeepsUsage, Conclude, Sum, Usages, Validate;
    var v := Validate(env, env.schema.value, ms, r);
    ValidatedUsage(env, env.schema.value, ms, r);
    if v.outcome.Returned? { ConcludeUsage(env, v.outcome.value, [r] + v.retry, [ms] + v.resent); }
  }

  lemma ValidatedUsage(env: Env, check: string -> Verdict, ms: seq<Message>, r: RunResult)
    ensures var v := Validate(env, check, ms, r);
            v.outcome.Returned? ==> v.outcome.value.usage == Sum(Usages([r] + v.retry))
  {
    hide Sum, Usages, Feedback, Add;
    UsagesOfTwo(r, r);
    assert [r] + [] == [r];
    if check(r.output).Invalid? {
      var again := env.backend(1, ms + r.messages + [Feedback(check(r.output).message)]);
      if again.Returned? { UsagesOfTwo(r, again.value); }
    }
  }

  /** A stream that ends with `done` reports what its backend returned. */
  lemma StreamBalances(env: Env, messages: seq<Message>, stream: seq<Message> -> BackendStream)
    requires KeepsUsage(env) && forall ms :: KeepsContract(stream(ms))
    ensures Balanced(StreamScript(env, messages, stream))
  {
    hide KeepsUsage, BeforeRun, Caught, Sum, AgentOutcome.Stream, StreamCharges;
    var ms := BeforeRun(env, messages);
    if ms.Returned? && env.connect.None? {
      var s := stream(ms.value);
      assert KeepsContract(s);
      EventsBalance(env, s.events, s.end);
    }
  }

  lemma {:induction false} EventsBalance(env: Env, events: seq<BackendEvent>, end: Option<Failure>)
    requires KeepsUsage(env) && KeepsContract(BackendStream(events, end))
    ensures var out, charges := Stream(env, events, end), StreamCharges(env, events);
            out != [] && out[|out| - 1].AgentDone? ==> out[|out| - 1].result.usage == Sum(charges)
    decreases |events|
  {
    hide KeepsUsage, Forward, Sum, Stream, StreamCharges, KeepsContract;
    ContractUnfolds(env, events, end);
    if events != [] {
      ForwardKeepsUsage(env, events[0]);
      if events[0].Chunk? { EventsBalance(env, events[1..], end); }
      else if events[0].BackendDone? { SumOne(events[0].result.usage); }
    }
  }

  /** A stream that keeps the contract goes on after a chunk and is over with any other event. */
  lemma ContractUnfolds(env: Env, events: seq<BackendEvent>, end: Option<Failure>)
    requires KeepsContract(BackendStream(events, end))
    ensures var out, charges := Stream(env, events, end), StreamCharges(env, events);
            if events == [] then out != [] && !out[|out| - 1].AgentDone? && charges == []
            else if events[0].Chunk? then
              && KeepsContract(BackendStream(events[1..], end))
              && out == [Passed(events[0].text)] + Stream(env, events[1..], end)
              && charges == StreamCharges(env, events[1..])
            else
              && out == [Forward(env, events[0]).event]
              && charges == if events[0].BackendDone? then [events[0].result.usage] else []
  {
    hide StreamDone, Caught, Classify;
    if events != [] {
      if events[0].Chunk? {
        assert [] + StreamCharges(env, events[1..]) == StreamCharges(env, events[1..]);
      } else {
        assert events[1..] == [] && StreamCharges(env, []) == [];
      }
    }
  }

  lemma SumOne(u: Usage)
    ensures Sum([u]) == u
  {
  }

  lemma ForwardKeepsUsage(env: Env, e: BackendEvent)
    requires KeepsUsage(env)
    ensures var f := Forward(env, e);
            && (f.event.AgentDone? ==> e.BackendDone? && f.event.result.usage == e.result.usage)
            && (e.Chunk? ==> !f.stops)
  {
  }

  /** A run charges every reply, a stream every `done` of its backend up to the event it stops at. */
  lemma {:induction false} ChargesExactly(env: Env, events: seq<BackendEvent>, end: Option<Failure>)
    requires KeepsContract(BackendStream(events, end))
    ensures StreamCharges(env, events) ==
            if end.None? && events[|events| - 1].BackendDone? then [events[|events| - 1].result.usage] else []
    decreases |events|
  {
    hide Stream, StreamCharges;
    ContractUnfolds(env, events, end);
    if events != [] && events[0].Chunk? { ChargesExactly(env, events[1..], end); }
  }

  // ---- overlapping runs -----------------------------------------------------------------------

  /** What happens to the agent's total, in the order it happens. */
  datatype Event = Charge(run: nat, usage: Usage) | Settle(run: nat, reported: Usage, kept: bool) | Reset

  /** `state.tokenUsage`: each returning backend call adds to the total found at that moment. */
  function Total(events: seq<Event>): Usage {
    if events == [] then ZERO
    else
      var before := Total(events[..|events| - 1]);
      match events[|events| - 1]
      case Charge(_, u) => Add(before, u)
      case Settle(_, _, _) => before
      case Reset => ZERO
  }

  /** The events of one run. */
  function Of(events: seq<Event>, run: nat): seq<Event> {
    if events == [] then []
    else
      var e := events[|events| - 1];
      Of(events[..|events| - 1], run) + if !e.Reset? && e.run == run then [e] else []
  }

  function EventsOf(s: Script, run: nat): (es: seq<Event>)
    ensures |es| == |s.charges| + 1
    ensures forall i :: 0 <= i < |s.charges| ==> es[i] == Charge(run, s.charges[i])
    ensures es[|s.charges|] == Settle(run, s.reported, s.kept)
  {
    seq(|s.charges|, i requires 0 <= i < |s.charges| => Charge(run, s.charges[i])) + [Settle(run, s.reported, s.kept)]
  }

  /** An interleaving of runs, each of which got as far as it got. */
  ghost predicate Interleaves(events: seq<Event>, scripts: seq<Script>) {
    && (forall i :: 0 <= i < |events| && !events[i].Reset? ==> events[i].run < |scripts|)
    && (forall run :: 0 <= run < |scripts| ==> Of(events, run) <= EventsOf(scripts[run], run))
  }

  function Charged(events: seq<Event>): Usage {
    if events == [] then ZERO
    else
      var e := events[|events| - 1];
      Add(Charged(events[..|events| - 1]), if e.Charge? then e.usage else ZERO)
  }

  function Reported(events: seq<Event>): Usage {
    if events == [] then ZERO
    else
      var e := events[|events| - 1];
      Add(Reported(events[..|events| - 1]), if e.Settle? then e.reported else ZERO)
  }

  predicate Delivered(events: seq<Event>) {
    events != [] && events[|events| - 1].Settle? && events[|events| - 1].kept
  }

  /** The usage of the first `n` runs that delivered no result: they threw or are under way. */
  function Undelivered(events: seq<Event>, n: nat): Usage {
    if n == 0 then ZERO
    else
      var own := Of(events, n - 1);
      Add(Undelivered(events, n - 1), if Delivered(own) then ZERO else Charged(own))
  }

  function SinceReset(events: seq<Event>): seq<Event> {
    if events == [] then []
    else if events[|events| - 1].Reset? then []
    else SinceReset(events[..|events| - 1]) + [events[|events| - 1]]
  }

  lemma ChargedAppend(events: seq<Event>, e: Event)
    ensures Charged(events + [e]) == Add(Charged(events), if e.Charge? then e.usage else ZERO)
    ensures Reported(events + [e]) == Add(Reported(events), if e.Settle? then e.reported else ZERO)
  {
  }

  lemma SumAppend(us: seq<Usage>, u: Usage)
    ensures Sum(us + [u]) == Add(Sum(us), u)
  {
  }

  lemma AddZero(a: Usage)
    ensures Add(a, ZERO) == a && Add(ZERO, a) == a
  {
  }

  lemma AddSwap(a: Usage, b: Usage, c: Usage)
    ensures Add(Add(a, b), c) == Add(Add(a, c), b)
  {
  }

  lemma AddPairs(a: Usage, b: Usage, c: Usage, d: Usage)
    ensures Add(Add(a, b), Add(c, d)) == Add(Add(a, c), Add(b, d))
  {
  }

  /** The total is what all backend calls since the last reset returned, however runs overlap. */
  lemma {:induction false} TotalIsCharged(events: seq<Event>)
    ensures Total(events) == Charged(SinceReset(events))
  {
    hide Charged, Add;
    ChargedNothing();
    if events != [] {
      var init := events[..|events| - 1];
      TotalIsCharged(init);
      ChargedAppend(SinceReset(init), events[|events| - 1]);
      AddZero(Total(init));
    }
  }

  lemma ChargedNothing()
    ensures Charged([]) == ZERO && Reported([]) == ZERO && Sum([]) == ZERO
  {
  }

  function SumCharged(events: seq<Event>, n: nat): Usage {
    if n == 0 then ZERO else Add(SumCharged(events, n - 1), Charged(Of(events, n - 1)))
  }

  function SumReported(events: seq<Event>, n: nat): Usage {
    if n == 0 then ZERO else Add(SumReported(events, n - 1), Reported(Of(events, n - 1)))
  }

  lemma {:induction false} OneMore(events: seq<Event>, n: nat)
    requires events != []
    ensures var e, init := events[|events| - 1], events[..|events| - 1];
            && SumCharged(events, n) == Add(SumCharged(init, n), if e.Charge? && e.run < n then e.usage else ZERO)
            && SumReported(events, n) == Add(SumReported(init, n), if e.Settle? && e.run < n then e.reported else ZERO)
  {
    hide Charged, Reported, Add;
    var e, init := events[|events| - 1], events[..|events| - 1];
    AddZero(SumCharged(init, n));
    AddZero(SumReported(init, n));
    if n > 0 {
      OneMore(events, n - 1);
      var charge, report := if e.Charge? then e.usage else ZERO, if e.Settle? then e.reported else ZERO;
      var own := Of(init, n - 1);
      ChargedAppend(own, e);
      AddZero(SumCharged(init, n - 1));
      AddZero(SumReported(init, n - 1));
      AddZero(charge);
      AddZero(report);
      AddSwap(SumCharged(init, n - 1), charge, Charged(own));
      AddSwap(SumReported(init, n - 1), report, Reported(own));
      AddPairs(SumCharged(init, n - 1), ZERO, Charged(own), charge);
      AddPairs(SumReported(init, n - 1), ZERO, Reported(own), report);
      assert Of(init, n - 1) + [] == Of(init, n - 1);
    }
  }

  /** Sums over all events are sums over the runs. */
  lemma {:induction false} Regroup(events: seq<Event>, n: nat)
    requires forall i :: 0 <= i < |events| && !events[i].Reset? ==> events[i].run < n
    ensures Charged(events) == SumCharged(events, n) && Reported(events) == SumReported(events, n)
  {
    if events == [] {
      NoEvents(n);
    } else {
      Regroup(events[..|events| - 1], n);
      OneMore(events, n);
    }
  }

  lemma {:induction false} NoEvents(n: nat)
    ensures SumCharged([], n) == ZERO && SumReported([], n) == ZERO
  {
    if n > 0 { NoEvents(n - 1); }
  }

  lemma {:induction false} ChargesOnly(s: Script, run: nat, k: nat)
    requires k <= |s.charges|
    ensures var own := EventsOf(s, run)[..k];
            Charged(own) == Sum(s.charges[..k]) && Reported(own) == ZERO && !Delivered(own)
  {
    hide Charged, Reported, Sum, Add;
    ChargedNothing();
    AddZero(ZERO);
    if k == 0 {
      assert EventsOf(s, run)[..0] == [] && s.charges[..0] == [];
    } else {
      ChargesOnly(s, run, k - 1);
      AddZero(Sum(s.charges[..k]));
      ChargedAppend(EventsOf(s, run)[..k - 1], EventsOf(s, run)[k - 1]);
      SumAppend(s.charges[..k - 1], s.charges[k - 1]);
      assert EventsOf(s, run)[..k] == EventsOf(s, run)[..k - 1] + [EventsOf(s, run)[k - 1]];
      assert s.charges[..k] == s.charges[..k - 1] + [s.charges[k - 1]];
    }
  }

  /** A run reports what it charged once it delivered a result, and nothing before or otherwise. */
  lemma {:induction false} OneRun(own: seq<Event>, s: Script, run: nat)
    requires Balanced(s) && own <= EventsOf(s, run)
    ensures Reported(own) == if Delivered(own) then Charged(own) else ZERO
  {
    hide Charged, Reported, Sum, Add;
    AddZero(ZERO);
    AddZero(s.reported);
    AddZero(Sum(s.charges));
    var all := EventsOf(s, run);
    assert own == all[..|own|];
    if |own| <= |s.charges| {
      ChargesOnly(s, run, |own|);
    } else {
      ChargesOnly(s, run, |s.charges|);
      assert own == all[..|s.charges|] + [all[|s.charges|]] && s.charges[..|s.charges|] == s.charges;
      ChargedAppend(all[..|s.charges|], all[|s.charges|]);
    }
  }

  // ---- runs that a reset overtakes ------------------------------------------------------------

  /** The events up to and with the last reset. */
  function Earlier(events: seq<Event>): seq<Event> {
    if events == [] || events[|events| - 1].Reset? then events else Earlier(events[..|events| - 1])
  }

  /** What those of the first `n` runs that delivered a result since the last reset had charged
      before it: their results report it, the total no longer holds it. */
  function Overtaken(events: seq<Event>, n: nat): Usage {
    if n == 0 then ZERO
    else
      Add(Overtaken(events, n - 1),
          if Delivered(Of(SinceReset(events), n - 1)) then Charged(Of(Earlier(events), n - 1)) else ZERO)
  }

  lemma {:induction false} SplitAtReset(events: seq<Event>)
    ensures events == Earlier(events) + SinceReset(events)
  {
    if events != [] && !events[|events| - 1].Reset? { SplitAtReset(events[..|events| - 1]); }
  }

  lemma {:induction false} OfConcat(a: seq<Event>, b: seq<Event>, run: nat)
    ensures Of(a + b, run) == Of(a, run) + Of(b, run)
  {
    if b == [] {
      assert a + b == a;
    } else {
      OfConcat(a, b[..|b| - 1], run);
      assert (a + b)[..|a + b| - 1] == a + b[..|b| - 1];
    }
  }

  lemma {:induction false} ChargedConcat(a: seq<Event>, b: seq<Event>)
    ensures Charged(a + b) == Add(Charged(a), Charged(b)) && Reported(a + b) == Add(Reported(a), Reported(b))
  {
    hide Charged, Reported, Add;
    ChargedNothing();
    AddZero(Charged(a));
    AddZero(Reported(a));
    if b == [] {
      assert a + b == a;
    } else {
      var init, e := b[..|b| - 1], b[|b| - 1];
      ChargedConcat(a, init);
      assert a + b == (a + init) + [e] && b == init + [e];
      ChargedAppend(a + init, e);
      ChargedAppend(init, e);
      AddAssoc(Charged(a), Charged(init), if e.Charge? then e.usage else ZERO);
      AddAssoc(Reported(a), Reported(init), if e.Settle? then e.reported else ZERO);
    }
  }

  lemma AddAssoc(a: Usage, b: Usage, c: Usage)
    ensures Add(Add(a, b), c) == Add(a, Add(b, c))
  {
  }

  lemma AddIsZero(a: Usage, b: Usage)
    requires Add(a, b) == ZERO
    ensures a == ZERO && b == ZERO
  {
  }

  lemma AddBoth(a: Usage, b: Usage)
    ensures Add(a, b) == Add(b, a)
  {
  }

  /** A run whose events are cut in two: what the second part charges and reports. */
  lemma OneRunCut(a: seq<Event>, b: seq<Event>, s: Script, run: nat)
    requires Balanced(s) && a + b <= EventsOf(s, run)
    ensures Add(Charged(b), if Delivered(b) then Charged(a) else ZERO)
         == Add(Reported(b), if Delivered(b) then ZERO else Charged(b))
  {
    hide Charged, Reported, Balanced, Add;
    OneRun(a + b, s, run);
    ChargedConcat(a, b);
    ChargedNothing();
    AddZero(Charged(b));
    AddZero(Reported(b));
    AddBoth(Charged(a), Charged(b));
    if Delivered(b) {
      assert (a + b)[|a + b| - 1] == b[|b| - 1];
      assert a == EventsOf(s, run)[..|a|];
      ChargesOnly(s, run, |a|);
    } else if b != [] {
      assert (a + b)[|a + b| - 1] == b[|b| - 1];
      AddIsZero(Reported(a), Reported(b));
    }
  }

  lemma {:induction false} SplitByDelivery(events: seq<Event>, scripts: seq<Script>, n: nat)
    requires n <= |scripts| && Interleaves(events, scripts)
    requires forall i :: 0 <= i < |scripts| ==> Balanced(scripts[i])
    ensures var since := SinceReset(events);
            Add(SumCharged(since, n), Overtaken(events, n)) == Add(SumReported(since, n), Undelivered(since, n))
  {
    hide Charged, Reported, Balanced, Of, Add, SinceReset, Earlier;
    if n > 0 {
      var since, before := SinceReset(events), Earlier(events);
      var a, b := Of(before, n - 1), Of(since, n - 1);
      SplitByDelivery(events, scripts, n - 1);
      SplitAtReset(events);
      OfConcat(before, since, n - 1);
      OneRunCut(a, b, scripts[n - 1], n - 1);
      AddPairs(SumCharged(since, n - 1), Charged(b), Overtaken(events, n - 1),
               if Delivered(b) then Charged(a) else ZERO);
      AddPairs(SumReported(since, n - 1), Reported(b), Undelivered(since, n - 1),
               if Delivered(b) then ZERO else Charged(b));
    }
  }

  /** At every moment of any interleaving, resets included: the total, and what results delivered
      since the last reset report from before it, is the usage these results report and what runs
      that threw, or are still under way, got from their backends since. */
  lemma {:induction false} TokenConservation(events: seq<Event>, scripts: seq<Script>)
    requires Interleaves(events, scripts)
    requires forall i :: 0 <= i < |scripts| ==> Balanced(scripts[i])
    ensures var since := SinceReset(events);
            Add(Total(events), Overtaken(events, |scripts|)) == Add(Reported(since), Undelivered(since, |scripts|))
  {
    hide Balanced, Charged, Reported, Total, Add, Of, Overtaken, Undelivered;
    var since := SinceReset(events);
    TotalIsCharged(events);
    SplitAtReset(events);
    forall i | 0 <= i < |since| && !since[i].Reset? ensures since[i].run < |scripts| {
      assert since[i] == events[|Earlier(events)| + i];
    }
    Regroup(since, |scripts|);
    SplitByDelivery(events, scripts, |scripts|);
  }

  /** Nothing is overtaken when every run that delivered since the last reset began since. */
  lemma {:induction false} NothingOvertaken(events: seq<Event>, n: nat)
    requires forall run :: 0 <= run < n && Delivered(Of(SinceReset(events), run)) ==> Of(Earlier(events), run) == []
    ensures Overtaken(events, n) == ZERO
  {
    hide Add, Charged, Of, SinceReset, Earlier, Delivered;
    AddZero(ZERO);
    ChargedNothing();
    if n > 0 { NothingOvertaken(events, n - 1); }
  }

  // ---- the agent's runs -------------------------------------------------------------------------

  datatype Job =
    | RunJob(env: Env, messages: seq<Message>)
    | StreamJob(env: Env, messages: seq<Message>, stream: seq<Message> -> BackendStream)

  function ScriptOf(job: Job): Script {
    match job
    case RunJob(env, messages) => RunScript(env, messages)
    case StreamJob(env, messages, stream) => StreamScript(env, messages, stream)
  }

  function ScriptsOf(jobs: seq<Job>): seq<Script> {
    if jobs == [] then [] else ScriptsOf(jobs[..|jobs| - 1]) + [ScriptOf(jobs[|jobs| - 1])]
  }

  /** `afterRun` keeps the usage, and a streaming backend ends its stream once. */
  ghost predicate Accountable(job: Job) {
    KeepsUsage(job.env) && (job.StreamJob? ==> forall ms :: KeepsContract(job.stream(ms)))
  }

  lemma {:induction false} JobsBalance(jobs: seq<Job>)
    requires forall i :: 0 <= i < |jobs| ==> Accountable(jobs[i])
    ensures |ScriptsOf(jobs)| == |jobs|
    ensures forall i :: 0 <= i < |jobs| ==> Balanced(ScriptsOf(jobs)[i])
  {
    hide KeepsUsage, Balanced, RunScript, StreamScript, KeepsContract;
    if jobs != [] {
      JobsBalance(jobs[..|jobs| - 1]);
      var job := jobs[|jobs| - 1];
      assert Accountable(job);
      match job
      case RunJob(env, messages) => RunBalances(env, messages);
      case StreamJob(env, messages, stream) => StreamBalances(env, messages, stream);
    }
  }

  /** `TokenConservation` for any runs and streams of the agent. */
  lemma AgentConservation(events: seq<Event>, jobs: seq<Job>)
    requires forall i :: 0 <= i < |jobs| ==> Accountable(jobs[i])
    requires Interleaves(events, ScriptsOf(jobs))
    ensures var since := SinceReset(events);
            Add(Total(events), Overtaken(events, |jobs|)) == Add(Reported(since), Undelivered(since, |jobs|))
  {
    JobsBalance(jobs);
    TokenConservation(events, ScriptsOf(jobs));
  }
}
