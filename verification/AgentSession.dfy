/** The agent across calls: conversation history, state, and copies that callers may write to. */
module AgentSession {
  import opened Collections
  import opened AgentHook
  import opened AgentOutcome
  import opened AgentTokens

  datatype Phase = Idle | Running | Completed | Errored

  datatype Session = Session(history: seq<Message>, usage: Usage, phase: Phase)

  // ---- inputs -------------------------------------------------------------------------------

  datatype RunInput = RunText(text: string) | RunList(messages: seq<Message>) | RunMalformed
  datatype PromptInput = PromptText(text: string) | PromptBlocks(content: seq<Content>) | PromptMalformed

  /** An external backend takes text only; a malformed list is refused. */
  function PrepareRun(input: RunInput, external: bool): Option<seq<Message>> {
    match input
    case RunText(t) => Some([Message(User, [TextBlock(t)])])
    case RunList(ms) => if external then None else Some(ms)
    case RunMalformed => None
  }

  function PreparePrompt(input: PromptInput, external: bool): Option<Message> {
    match input
    case PromptText(t) => Some(Message(User, [TextBlock(t)]))
    case PromptBlocks(c) => if external then None else Some(Message(User, c))
    case PromptMalformed => None
  }

  // ---- one call -----------------------------------------------------------------------------

  datatype Command =
    | DoPrompt(input: PromptInput, env: Env)
    | DoRun(request: RunInput, env: Env)
    | DoStream(request: RunInput, env: Env, stream: seq<Message> -> BackendStream)
    | DoReset

  function PhaseAfter(run: Execution): Phase { if run.threw then Errored else Completed }

  /** The phase the events of a stream leave the agent in. */
  function PhaseOf(out: seq<AgentEvent>): Phase {
    if out == [] then Running
    else match out[|out| - 1]
      case AgentDone(_) => Completed
      case AgentError(_, _) => Errored
      case Passed(_) => PhaseOf(out[..|out| - 1])
  }

  function Prompted(s: Session, user: Message, run: Execution): Session {
    Session(s.history + [user] + run.result.messages, Add(s.usage, Sum(Usages(run.replies))), PhaseAfter(run))
  }

  function Step(s: Session, c: Command): Session {
    match c
    case DoReset => Session([], ZERO, Idle)
    case DoPrompt(input, env) =>
      (match PreparePrompt(input, env.external)
       case None => s
       case Some(user) =>
         Prompted(s, user, ExecuteRun(env, s.history + [user])))
    case DoRun(input, env) =>
      (match PrepareRun(input, env.external)
       case None => s
       case Some(messages) =>
         var run := ExecuteRun(env, messages);
         s.(usage := Add(s.usage, Sum(Usages(run.replies))), phase := PhaseAfter(run)))
    case DoStream(input, env, stream) =>
      match PrepareRun(input, env.external)
      case None => s
      case Some(messages) =>
        s.(usage := Add(s.usage, Sum(StreamScript(env, messages, stream).charges)),
           phase := PhaseOf(ExecuteStream(env, messages, stream)))
  }

  function Play(start: Session, cmds: seq<Command>): Session {
    if cmds == [] then start else Step(Play(start, cmds[..|cmds| - 1]), cmds[|cmds| - 1])
  }

  /** The messages a run input stands for; malformed lists, and lists for a backend that takes text
      only, are refused. */
  ghost predicate StandsFor(request: RunInput, external: bool, messages: seq<Message>) {
    match request
    case RunText(t) => messages == [Message(User, [TextBlock(t)])]
    case RunList(ms) => !external && messages == ms
    case RunMalformed => false
  }

  ghost predicate AsksWith(input: PromptInput, external: bool, user: Message) {
    match input
    case PromptText(t) => user == Message(User, [TextBlock(t)])
    case PromptBlocks(c) => !external && user == Message(User, c)
    case PromptMalformed => false
  }

  /** A prompt runs on the history with its user message and leaves both, and the result's messages, in
      it; a refused one changes nothing. */
  lemma PromptExactly(s: Session, input: PromptInput, env: Env)
    ensures var s' := Step(s, DoPrompt(input, env));
            && ((forall user :: !AsksWith(input, env.external, user)) ==> s' == s)
            && forall user :: AsksWith(input, env.external, user) ==>
                 var run := ExecuteRun(env, s.history + [user]);
                 && s'.history == s.history + [user] + run.result.messages
                 && s'.usage == Add(s.usage, Sum(Usages(run.replies)))
                 && s'.phase == if run.threw then Errored else Completed
  {
    hide ExecuteRun, Sum, Usages, Add;
    var user := PreparePrompt(input, env.external);
    if user.Some? { assert AsksWith(input, env.external, user.value); }
  }

  /** A run starts afresh and leaves the history alone. */
  lemma RunExactly(s: Session, request: RunInput, env: Env)
    ensures var s' := Step(s, DoRun(request, env));
            && ((forall messages :: !StandsFor(request, env.external, messages)) ==> s' == s)
            && forall messages :: StandsFor(request, env.external, messages) ==>
                 var run := ExecuteRun(env, messages);
                 && s'.history == s.history
                 && s'.usage == Add(s.usage, Sum(Usages(run.replies)))
                 && s'.phase == if run.threw then Errored else Completed
  {
    hide ExecuteRun, Sum, Usages, Add;
    var messages := PrepareRun(request, env.external);
    if messages.Some? { assert StandsFor(request, env.external, messages.value); }
  }

  /** So does a stream; with a backend that ends once it completes exactly when it ends with `done`. */
  lemma StreamExactly(s: Session, request: RunInput, env: Env, stream: seq<Message> -> BackendStream)
    requires forall ms :: KeepsContract(stream(ms))
    ensures var s' := Step(s, DoStream(request, env, stream));
            && s'.history == s.history
            && ((forall messages :: !StandsFor(request, env.external, messages)) ==> s' == s)
            && forall messages :: StandsFor(request, env.external, messages) ==>
                 var out := ExecuteStream(env, messages, stream);
                 && out != []
                 && s'.phase == (if out[|out| - 1].AgentDone? then Completed else Errored)
                 && s'.usage == Add(s.usage, Sum(StreamScript(env, messages, stream).charges))
  {
    hide ExecuteStream, Sum, Add, StreamScript, KeepsContract;
    var messages := PrepareRun(request, env.external);
    if messages.Some? {
      assert StandsFor(request, env.external, messages.value);
      OneTerminalEvent(env, messages.value, stream);
    }
  }

  // ---- the history as a transcript --------------------------------------------------------------

  /** One accepted prompt with the messages of its result. */
  datatype Turn = Turn(user: Message, reply: seq<Message>, threw: bool)

  function Transcript(start: seq<Message>, turns: seq<Turn>): seq<Message> {
    if turns == [] then start
    else
      var t := turns[|turns| - 1];
      Transcript(start, turns[..|turns| - 1]) + [t.user] + t.reply
  }

  /** The turn a command takes, if it takes one. */
  function TurnOf(s: Session, c: Command): seq<Turn> {
    if c.DoPrompt? && PreparePrompt(c.input, c.env.external).Some? then
      var user := PreparePrompt(c.input, c.env.external).value;
      var run := ExecuteRun(c.env, s.history + [user]);
      [Turn(user, run.result.messages, run.threw)]
    else []
  }

  /** The turns since the last reset. */
  function Turns(start: Session, cmds: seq<Command>): seq<Turn> {
    if cmds == [] then []
    else
      var init, c := cmds[..|cmds| - 1], cmds[|cmds| - 1];
      if c.DoReset? then [] else Turns(start, init) + TurnOf(Play(start, init), c)
  }

  function Opening(start: Session, cmds: seq<Command>): seq<Message> {
    if exists i :: 0 <= i < |cmds| && cmds[i].DoReset? then [] else start.history
  }

  /** The history is its opening followed by every prompt and its result's messages; runs and
      streams leave no trace in it. */
  lemma {:induction false} HistoryIsTranscript(start: Session, cmds: seq<Command>)
    ensures Play(start, cmds).history == Transcript(Opening(start, cmds), Turns(start, cmds))
  {
    hide ExecuteRun, ExecuteStream, Usages, Sum;
    if cmds != [] {
      var init, c := cmds[..|cmds| - 1], cmds[|cmds| - 1];
      HistoryIsTranscript(start, init);
      if c.DoReset? {
        assert cmds[|cmds| - 1].DoReset?;
      } else {
        assert Opening(start, cmds) == Opening(start, init) by {
          if i :| 0 <= i < |cmds| && cmds[i].DoReset? { assert init[i].DoReset?; }
          if i :| 0 <= i < |init| && init[i].DoReset? { assert cmds[i].DoReset?; }
        }
        TurnAdds(Play(start, init), c, Opening(start, init), Turns(start, init));
      }
    }
  }

  lemma TurnAdds(s: Session, c: Command, opening: seq<Message>, turns: seq<Turn>)
    requires !c.DoReset? && s.history == Transcript(opening, turns)
    ensures Step(s, c).history == Transcript(opening, turns + TurnOf(s, c))
  {
    hide ExecuteRun, ExecuteStream, Usages, Sum;
    var more := TurnOf(s, c);
    if more == [] {
      assert turns + more == turns;
    } else {
      assert (turns + more)[..|turns| + 1 - 1] == turns;
    }
  }

  // ---- alternation ------------------------------------------------------------------------------

  ghost predicate Alternates(ms: seq<Message>) {
    forall i :: 0 <= i < |ms| - 1 ==> ms[i].role != ms[i + 1].role
  }

  /** Alternating, from a user message to an assistant message. */
  ghost predicate Dialogue(ms: seq<Message>) {
    Alternates(ms) && (ms != [] ==> ms[0].role == User && ms[|ms| - 1].role == Assistant)
  }

  /** Alternating, from and to an assistant message. */
  ghost predicate Reply(ms: seq<Message>) {
    ms != [] && Alternates(ms) && ms[0].role == Assistant && ms[|ms| - 1].role == Assistant
  }

  lemma Joined(a: seq<Message>, b: seq<Message>)
    requires Alternates(a) && Alternates(b)
    ensures Alternates(a + b) <==> a == [] || b == [] || a[|a| - 1].role != b[0].role
  {
    var ab := a + b;
    if a != [] && b != [] && a[|a| - 1].role == b[0].role {
      assert ab[|a| - 1].role == ab[|a| - 1 + 1].role;
    }
  }

  lemma SplitAlternates(a: seq<Message>, b: seq<Message>)
    requires Alternates(a + b)
    ensures Alternates(a) && Alternates(b)
  {
    var ab := a + b;
    forall i | 0 <= i < |a| - 1 ensures a[i].role != a[i + 1].role { assert ab[i].role != ab[i + 1].role; }
    forall i | 0 <= i < |b| - 1 ensures b[i].role != b[i + 1].role { assert ab[|a| + i].role != ab[|a| + i + 1].role; }
  }

  /** The hook leaves the messages of a result alone. */
  ghost predicate KeepsMessages(env: Env) {
    forall r :: AfterRun(env, r).Returned? ==> AfterRun(env, r).value.messages == r.messages
  }

  /** Every backend result is a reply. */
  ghost predicate Replies(env: Env) {
    forall k, ms :: env.backend(k, ms).Returned? ==> Reply(env.backend(k, ms).value.messages)
  }

  lemma Merged(a: seq<Message>, feedback: Message, b: seq<Message>)
    requires feedback.role == User && Reply(a) && Reply(b)
    ensures Reply(a + [feedback] + b)
  {
  }

  /** A run that returns gives a reply, also when it had to ask again; one that threw gives
      nothing. */
  lemma {:induction false} RunReplies(env: Env, messages: seq<Message>)
    requires KeepsMessages(env) && Replies(env)
    ensures var run := ExecuteRun(env, messages);
            if run.threw then run.result.messages == [] else Reply(run.result.messages)
  {
    hide KeepsMessages, Replies, Reply, Conclude, BeforeRun, Validate, Feedback;
    var ms := BeforeRun(env, messages);
    if ms.Returned? && env.connect.None? && env.backend(0, ms.value).Returned? {
      var r := env.backend(0, ms.value).value;
      Replied(env, 0, ms.value);
      ConcludeMessages(env, OverBudget(env, r), [r], [ms.value]);
      ConcludeMessages(env, Judge(env, r), [r], [ms.value]);
      if env.schema.Some? {
        var v := Validate(env, env.schema.value, ms.value, r);
        SchemaReplies(env, ms.value, r);
        if v.outcome.Returned? { ConcludeMessages(env, v.outcome.value, [r] + v.retry, [ms.value] + v.resent); }
      }
    }
  }

  lemma Replied(env: Env, k: nat, ms: seq<Message>)
    requires Replies(env) && env.backend(k, ms).Returned?
    ensures Reply(env.backend(k, ms).value.messages)
  {
  }

  lemma ConcludeMessages(env: Env, before: AgentResult, replies: seq<RunResult>, sent: seq<seq<Message>>)
    requires KeepsMessages(env)
    ensures var run := Conclude(env, before, replies, sent);
            run.result.messages == if run.threw then [] else before.messages
  {
  }

  lemma SchemaReplies(env: Env, ms: seq<Message>, r: RunResult)
    requires env.schema.Some? && Replies(env) && Reply(r.messages)
    ensures var v := Validate(env, env.schema.value, ms, r); v.outcome.Returned? ==> Reply(v.outcome.value.messages)
  {
    hide Replies, Reply;
    var verdict := env.schema.value(r.output);
    if verdict.Invalid? {
      var again := ms + r.messages + [Feedback(verdict.message)];
      if env.backend(1, again).Returned? {
        Replied(env, 1, again);
        Merged(r.messages, Feedback(verdict.message), env.backend(1, again).value.messages);
      }
    }
  }

  /** Ready for a backend: alternating, with the user to be answered. */
  ghost predicate Asking(ms: seq<Message>) {
    ms != [] && Alternates(ms) && ms[|ms| - 1].role == User
  }

  /** What a backend is sent alternates and ends with the user, the second attempt included. */
  lemma {:induction false} BackendIsAsked(env: Env, messages: seq<Message>)
    requires Replies(env) && Asking(messages)
    requires BeforeRun(env, messages).Returned? ==> Asking(BeforeRun(env, messages).value)
    ensures forall ms :: ms in ExecuteRun(env, messages).sent ==> Asking(ms)
  {
    hide Replies, Alternates, BeforeRun, AfterRun, Ensure, Feedback, Judge, OverBudget, Failed, ToAgentResult, Classify;
    var ms := BeforeRun(env, messages);
    if ms.Returned? && env.connect.None? && env.backend(0, ms.value).Returned? && env.schema.Some? {
      var r := env.backend(0, ms.value).value;
      var verdict := env.schema.value(r.output);
      Replied(env, 0, ms.value);
      if verdict.Invalid? {
        Joined(ms.value, r.messages);
        OneAlternates(Feedback(verdict.message));
        FeedbackIsUser(verdict.message);
        Joined(ms.value + r.messages, [Feedback(verdict.message)]);
      }
    }
  }

  lemma FeedbackIsUser(message: string)
    ensures Feedback(message).role == User
  {
  }

  lemma OneAlternates(m: Message)
    ensures Alternates([m])
  {
  }

  ghost predicate GoodTurn(t: Turn) {
    t.user.role == User && if t.threw then t.reply == [] else Reply(t.reply)
  }

  ghost predicate AllButLastReturned(turns: seq<Turn>) {
    forall k :: 0 <= k < |turns| - 1 ==> !turns[k].threw
  }

  /** A transcript alternates exactly when only the last prompt may have failed. */
  lemma {:induction false} TranscriptAlternates(start: seq<Message>, turns: seq<Turn>)
    requires Dialogue(start) && forall k :: 0 <= k < |turns| ==> GoodTurn(turns[k])
    ensures Alternates(Transcript(start, turns)) <==> AllButLastReturned(turns)
    ensures Dialogue(Transcript(start, turns)) <==> forall k :: 0 <= k < |turns| ==> !turns[k].threw
    ensures turns != [] ==> Transcript(start, turns) != [] && Transcript(start, turns)[0].role == User
    ensures turns != [] && turns[|turns| - 1].threw ==>
        Transcript(start, turns)[|Transcript(start, turns)| - 1].role == User
  {
    hide Alternates;
    if turns != [] {
      var init, t := turns[..|turns| - 1], turns[|turns| - 1];
      var before := Transcript(start, init);
      TranscriptAlternates(start, init);
      OneAlternates(t.user);
      assert GoodTurn(t);
      if Alternates(before + [t.user] + t.reply) {
        SplitAlternates(before + [t.user], t.reply);
        SplitAlternates(before, [t.user]);
        Joined(before, [t.user]);
      }
      if Dialogue(before) {
        Joined(before, [t.user]);
        NothingAlternates();
        Joined(before + [t.user], t.reply);
      }
      LastTurn(before, init, t);
      assert turns == init + [t];
    }
  }

  lemma NothingAlternates()
    ensures Alternates([])
  {
  }

  lemma LastTurn(before: seq<Message>, init: seq<Turn>, t: Turn)
    ensures AllButLastReturned(init + [t]) <==> forall k :: 0 <= k < |init| ==> !init[k].threw
  {
    if AllButLastReturned(init + [t]) {
      forall k | 0 <= k < |init| ensures !init[k].threw { assert !(init + [t])[k].threw; }
    }
  }

  /** Prompts run with hooks that keep the messages and backends that reply. */
  ghost predicate WellBehaved(cmds: seq<Command>) {
    forall i :: 0 <= i < |cmds| && cmds[i].DoPrompt? ==> KeepsMessages(cmds[i].env) && Replies(cmds[i].env)
  }

  lemma {:induction false} TurnsAreGood(start: Session, cmds: seq<Command>)
    requires WellBehaved(cmds)
    ensures forall k :: 0 <= k < |Turns(start, cmds)| ==> GoodTurn(Turns(start, cmds)[k])
  {
    hide ExecuteRun, KeepsMessages, Replies, Reply, Step;
    if cmds != [] {
      var init, c := cmds[..|cmds| - 1], cmds[|cmds| - 1];
      TurnsAreGood(start, init);
      var s := Play(start, init);
      if c.DoPrompt? && PreparePrompt(c.input, c.env.external).Some? {
        RunReplies(c.env, s.history + [PreparePrompt(c.input, c.env.external).value]);
      }
    }
  }

  /** Roles alternate throughout the history, over any mix of calls, exactly when of the prompts
      since the last reset at most the last one failed. */
  lemma {:induction false} HistoryAlternates(start: Session, cmds: seq<Command>)
    requires Dialogue(start.history) && WellBehaved(cmds)
    ensures Alternates(Play(start, cmds).history) <==> AllButLastReturned(Turns(start, cmds))
  {
    hide Play, Turns, WellBehaved;
    HistoryIsTranscript(start, cmds);
    TurnsAreGood(start, cmds);
    TranscriptAlternates(Opening(start, cmds), Turns(start, cmds));
  }

  // ---- the agent --------------------------------------------------------------------------------

  /** A message object: whoever holds it may write to it. */
  class MessageCell {
    var value: Message

    constructor (value: Message)
      ensures this.value == value
    {
      this.value := value;
    }
  }

  function Values(cells: seq<MessageCell>): (r: seq<Message>)
    reads cells
    ensures |r| == |cells| && forall i :: 0 <= i < |cells| ==> r[i] == cells[i].value
  {
    if cells == [] then [] else Values(cells[..|cells| - 1]) + [cells[|cells| - 1].value]
  }

  method CopyMessages(messages: seq<Message>) returns (cells: seq<MessageCell>)
    ensures fresh(cells) && Values(cells) == messages
  {
    cells := [];
    for i := 0 to |messages|
      invariant fresh(cells) && |cells| == i
      invariant forall j :: 0 <= j < i ==> cells[j].value == messages[j]
    {
      var cell := new MessageCell(messages[i]);
      cells := cells + [cell];
    }
  }

  lemma ValuesAppend(a: seq<MessageCell>, b: seq<MessageCell>)
    ensures Values(a + b) == Values(a) + Values(b)
  {
  }

  lemma PhaseSteps(out: seq<AgentEvent>, e: AgentEvent)
    ensures PhaseOf([]) == Running
    ensures PhaseOf(out + [e]) == match e
                                  case AgentDone(_) => Completed
                                  case AgentError(_, _) => Errored
                                  case Passed(_) => PhaseOf(out)
  {
  }

  lemma StreamSteps(env: Env, events: seq<BackendEvent>, i: nat, end: Option<Failure>)
    requires i < |events|
    ensures var first := Forward(env, events[i]);
            && AgentOutcome.Stream(env, events[i..], end)
               == [first.event] + (if first.stops then [] else AgentOutcome.Stream(env, events[i + 1..], end))
            && StreamCharges(env, events[i..])
               == (if events[i].BackendDone? then [events[i].result.usage] else [])
                  + (if first.stops then [] else StreamCharges(env, events[i + 1..]))
  {
  }

  lemma StreamEnds(env: Env, events: seq<BackendEvent>, end: Option<Failure>)
    ensures AgentOutcome.Stream(env, events[|events|..], end)
            == if end.None? then [] else [AgentError(end.value, Caught(env, end.value, None, true).kind)]
    ensures StreamCharges(env, events[|events|..]) == []
  {
  }

  lemma ChargeMore(base: Usage, charges: seq<Usage>, u: Usage)
    ensures Add(Add(base, Sum(charges)), u) == Add(base, Sum(charges + [u]))
  {
  }

  lemma UsagesOfNone()
    ensures Usages([]) == [] && Sum([]) == ZERO
  {
  }

  class Agent {
    var messageHistory: seq<MessageCell>
    var usage: Usage
    var phase: Phase

    /** The message objects that callers, hooks and backends hold. */
    ghost var shared: set<MessageCell>

    ghost predicate Valid()
      reads this
    {
      forall c :: c in messageHistory ==> c !in shared
    }

    ghost function View(): Session
      reads this, messageHistory
    {
      Session(Values(messageHistory), usage, phase)
    }

    constructor (history: seq<MessageCell>)
      ensures Valid() && View() == Session(Values(history), ZERO, Idle)
      ensures forall c :: c in history ==> c in shared
    {
      messageHistory := [];
      usage, phase := ZERO, Idle;
      shared := set c | c in history;
      new;
      ghost var given := shared;
      messageHistory := CopyMessages(Values(history));
    }

    /** The result's messages are the caller's; the history keeps copies. */
    method Prompt(input: PromptInput, env: Env) returns (result: Option<AgentResult>, messages: seq<MessageCell>)
      requires Valid()
      modifies this
      ensures Valid() && View() == Step(old(View()), DoPrompt(input, env))
      ensures shared == old(shared) + set c | c in messages
      ensures match PreparePrompt(input, env.external)
              case None => result == None && messages == []
              case Some(user) =>
                && result == Some(ExecuteRun(env, old(View()).history + [user]).result)
                && Values(messages) == result.value.messages
    {
      hide ExecuteRun, Prompted, PreparePrompt, Values;
      var prepared := PreparePrompt(input, env.external);
      if prepared.None? {
        return None, [];
      }
      var answer := Ask(prepared.value, env);
      messages := CopyMessages(answer.messages);
      shared := shared + set c | c in messages;
      result := Some(answer);
    }

    method Ask(user: Message, env: Env) returns (answer: AgentResult)
      requires Valid()
      modifies this`messageHistory, this`usage, this`phase
      ensures var run := ExecuteRun(env, old(View()).history + [user]);
              answer == run.result && View() == Prompted(old(View()), user, run)
      ensures Valid()
    {
      hide ExecuteRun, Sum, Usages, PhaseAfter, Add, Values;
      Append([user]);
      var asked := Values(messageHistory);
      var list := new MessageList(asked);
      answer := Execute(list, env);
      assert Values(messageHistory) == asked;
      Append(answer.messages);
    }

    method Append(messages: seq<Message>)
      requires Valid()
      modifies this`messageHistory
      ensures Valid() && Values(messageHistory) == old(Values(messageHistory)) + messages
      ensures forall c :: c in messageHistory ==> c in old(messageHistory) || fresh(c)
    {
      var copies := CopyMessages(messages);
      ValuesAppend(messageHistory, copies);
      messageHistory := messageHistory + copies;
    }

    method Run(input: RunInput, env: Env) returns (result: Option<AgentResult>)
      requires Valid()
      modifies this`usage, this`phase
      ensures View() == Step(old(View()), DoRun(input, env))
      ensures result == match PrepareRun(input, env.external)
                        case None => None
                        case Some(messages) => Some(ExecuteRun(env, messages).result)
    {
      hide ExecuteRun, Sum, Usages;
      var prepared := PrepareRun(input, env.external);
      if prepared.None? {
        return None;
      }
      var list := new MessageList(prepared.value);
      var answer := Execute(list, env);
      result := Some(answer);
    }

    method Stream(input: RunInput, env: Env, stream: seq<Message> -> BackendStream)
      returns (events: Option<seq<AgentEvent>>)
      requires Valid()
      modifies this`usage, this`phase
      ensures View() == Step(old(View()), DoStream(input, env, stream))
      ensures events == match PrepareRun(input, env.external)
                        case None => None
                        case Some(messages) => Some(ExecuteStream(env, messages, stream))
    {
      hide Sum, PhaseOf;
      var prepared := PrepareRun(input, env.external);
      if prepared.None? {
        return None;
      }
      var list := new MessageList(prepared.value);
      var out := StreamEvents(list, env, stream);
      events := Some(out);
    }

    /** The path `run` and `prompt` share, hooks and retry included. */
    method Execute(messages: MessageList, env: Env) returns (result: AgentResult)
      modifies this`usage, this`phase, messages
      ensures var run := ExecuteRun(env, old(messages.items));
              && result == run.result
              && usage == Add(old(usage), Sum(Usages(run.replies)))
              && phase == PhaseAfter(run)
    {
      hide Feedback, Failed, BeforeRun, AfterHook, Sum, Usages, Add;
      phase := Running;
      AddZero(usage);
      UsagesOfNone();
      var failure := ApplyBeforeRunHook(messages, env);
      if failure.Some? {
        phase := Errored;
        return Failed(env, failure.value, Some(Callback), false);
      }
      if env.connect.Some? {
        phase := Errored;
        return Failed(env, env.connect.value, None, false);
      }
      result := ExecuteBackend(messages.items, env);
    }

    method ApplyBeforeRunHook(messages: MessageList, env: Env) returns (failure: Option<Failure>)
      modifies messages
      ensures BeforeRun(env, old(messages.items)) ==
              if failure.Some? then Threw(failure.value) else Returned(messages.items)
    {
      hide Read, ApplyHook;
      if env.beforeRun.None? || env.resumed {
        return None;
      }
      var prompt := messages.BuildPrompt();
      var answer := env.beforeRun.value(prompt, messages.items);
      if answer.Threw? {
        return Some(answer.failure);
      }
      var rejected := messages.ApplyHookContext(answer.value, env.external);
      failure := if rejected then Some(REJECTED_HOOK) else None;
    }

    /** From the backend call on. */
    method ExecuteBackend(messages: seq<Message>, env: Env) returns (result: AgentResult)
      modifies this`usage, this`phase
      ensures var run := AfterHook(env, messages);
              && result == run.result
              && usage == Add(old(usage), Sum(Usages(run.replies)))
              && phase == PhaseAfter(run)
    {
      hide Feedback, Judge, OverBudget, Ensure, AfterRun, Sum, Usages, Add, Failed, ToAgentResult, Validate;
      AddZero(usage);
      UsagesOfNone();
      var reply := env.backend(0, messages);
      if reply.Threw? {
        phase := Errored;
        return Failed(env, reply.failure, None, true);
      }
      var r := reply.value;
      UsagesOfTwo(r, r);
      usage := Add(usage, r.usage);
      if r.suspended {
        phase := Completed;
        return ToAgentResult(r, false, None, env.identity, Suspended, None);
      }
      var before: AgentResult;
      if r.budgetExceeded {
        before := OverBudget(env, r);
      } else if env.schema.Some? {
        var validated := ValidateStructuredOutput(env, env.schema.value, messages, r, old(usage));
        if validated.Threw? {
          phase := Errored;
          return Failed(env, validated.failure, None, true);
        }
        before := validated.value;
      } else {
        before := Judge(env, r);
      }
      var after := AfterRun(env, before);
      if after.Threw? {
        phase := Errored;
        return Failed(env, after.failure, Some(Callback), true);
      }
      phase := Completed;
      result := Ensure(after.value, env.identity);
    }

    /** One retry with the validation error as feedback. */
    method ValidateStructuredOutput(env: Env, check: string -> Verdict, messages: seq<Message>, r: RunResult,
        ghost start: Usage)
      returns (outcome: Attempt<AgentResult>)
      requires usage == Add(start, r.usage)
      modifies this`usage, this`phase
      ensures outcome == Validate(env, check, messages, r).outcome
      ensures usage == Add(start, Sum(Usages([r] + Validate(env, check, messages, r).retry)))
    {
      hide Feedback, Sum, Usages, ToAgentResult;
      UsagesOfTwo(r, r);
      assert [r] + [] == [r];
      var first := check(r.output);
      if first.Valid? {
        phase := Completed;
        return Returned(ToAgentResult(r, true, Some(first.value), env.identity, Ok, None));
      }
      var again := messages + r.messages + [Feedback(first.message)];
      var reply := env.backend(1, again);
      if reply.Threw? {
        return Threw(reply.failure);
      }
      UsagesOfTwo(r, reply.value);
      usage := Add(usage, reply.value.usage);
      var merged := r.messages + [Feedback(first.message)] + reply.value.messages;
      var total := Add(r.usage, reply.value.usage);
      phase := Completed;
      var second := check(reply.value.output);
      if second.Valid? {
        return Returned(AgentResult(true, env.identity, Some(Ok), None, reply.value.output, merged, total,
                                    Some(second.value), false, reply.value.budgetExceeded, false, None));
      }
      var c := Classify(SCHEMA_FAILURE, Some(Validation), Error, false);
      outcome := Returned(
        AgentResult(false, env.identity, Some(c.code), Some(c.kind), reply.value.output, merged, total,
                                      None, false, reply.value.budgetExceeded, false, None));
    }

    method StreamEvents(messages: MessageList, env: Env, stream: seq<Message> -> BackendStream)
      returns (out: seq<AgentEvent>)
      modifies this`usage, this`phase, messages
      ensures out == ExecuteStream(env, old(messages.items), stream)
      ensures usage == Add(old(usage), Sum(StreamScript(env, old(messages.items), stream).charges))
      ensures phase == PhaseOf(out)
    {
      hide BeforeRun, Caught, Classify, AfterRun, Sum, Add, AgentOutcome.Stream, StreamCharges;
      phase := Running;
      AddZero(usage);
      UsagesOfNone();
      var failure := ApplyBeforeRunHook(messages, env);
      if failure.Some? {
        phase := Errored;
        return [AgentError(failure.value, Caught(env, failure.value, Some(Callback), false).kind)];
      }
      if env.connect.Some? {
        phase := Errored;
        return [AgentError(env.connect.value, Caught(env, env.connect.value, None, false).kind)];
      }
      var source := stream(messages.items);
      out := ForwardEvents(env, source);
    }

    method ForwardEvents(env: Env, source: BackendStream) returns (out: seq<AgentEvent>)
      requires phase == Running
      modifies this`usage, this`phase
      ensures out == AgentOutcome.Stream(env, source.events, source.end)
      ensures usage == Add(old(usage), Sum(StreamCharges(env, source.events)))
      ensures phase == PhaseOf(out)
    {
      hide Caught, Sum, Add, Forward, AgentOutcome.Stream, StreamCharges, PhaseOf;
      var events := source.events;
      ghost var charges: seq<Usage> := [];
      AddZero(usage);
      UsagesOfNone();
      out := [];
      PhaseSteps(out, Passed(""));
      var i := 0;
      assert events[0..] == events;
      while i < |events|
        invariant 0 <= i <= |events|
        invariant out + AgentOutcome.Stream(env, events[i..], source.end)
            == AgentOutcome.Stream(env, events, source.end)
        invariant charges + StreamCharges(env, events[i..]) == StreamCharges(env, events)
        invariant usage == Add(old(usage), Sum(charges))
        invariant phase == PhaseOf(out)
      {
        StreamSteps(env, events, i, source.end);
        if events[i].BackendDone? {
          ChargeMore(old(usage), charges, events[i].result.usage);
          charges := charges + [events[i].result.usage];
        }
        var forwarded := ForwardEvent(env, events[i]);
        PhaseSteps(out, forwarded.event);
        out := out + [forwarded.event];
        if forwarded.stops {
          assert charges == StreamCharges(env, events);
          return;
        }
        i := i + 1;
      }
      StreamEnds(env, events, source.end);
      assert charges + [] == charges;
      if source.end.Some? {
        PhaseSteps(out, AgentError(source.end.value, Caught(env, source.end.value, None, true).kind));
        phase := Errored;
        out := out + [AgentError(source.end.value, Caught(env, source.end.value, None, true).kind)];
      }
    }

    method ForwardEvent(env: Env, event: BackendEvent) returns (forwarded: Forwarded)
      modifies this`usage, this`phase
      ensures forwarded == Forward(env, event)
      ensures usage == if event.BackendDone? then Add(old(usage), event.result.usage) else old(usage)
      ensures phase == match forwarded.event
                       case AgentDone(_) => Completed
                       case AgentError(_, _) => Errored
                       case Passed(_) => old(phase)
    {
      hide Caught, Classify, AfterRun, Add, Ensure, StreamBefore;
      match event
      case Chunk(t) =>
        forwarded := Forwarded(Passed(t), false);
      case BackendError(f) =>
        var c := if f.errorClass == DurableApproval then Classify(f, Some(Validation), Error, false)
                 else Classify(f, None, Error, env.provider);
        phase := Errored;
        forwarded := Forwarded(AgentError(f, c.kind), false);
      case BackendDone(r, signals) =>
        usage := Add(usage, r.usage);
        var after := if r.suspended then Returned(StreamBefore(env, r, signals))
            else AfterRun(env, StreamBefore(env, r, signals));
        if after.Threw? {
          phase := Errored;
          forwarded :=
              Forwarded(AgentError(after.failure, Caught(env, after.failure, Some(Callback), true).kind), true);
        } else {
          phase := Completed;
          forwarded := Forwarded(AgentDone(Ensure(after.value, env.identity)), false);
        }
    }

    method GetHistory() returns (messages: seq<MessageCell>)
      requires Valid()
      modifies this`shared
      ensures Valid() && fresh(messages) && Values(messages) == old(View()).history && View() == old(View())
      ensures shared == old(shared) + set c | c in messages
    {
      messages := CopyMessages(Values(messageHistory));
      shared := shared + set c | c in messages;
    }

    method Reset()
      requires Valid()
      modifies this`messageHistory, this`usage, this`phase
      ensures Valid() && View() == Step(old(View()), DoReset)
    {
      messageHistory := [];
      usage, phase := ZERO, Idle;
    }

    /** Whatever a caller writes to a message it holds, the agent does not notice. */
    method CallerWrites(cell: MessageCell, value: Message)
      requires Valid() && cell in shared
      modifies cell
      ensures Valid() && View() == old(View())
    {
      cell.value := value;
    }
  }
}
