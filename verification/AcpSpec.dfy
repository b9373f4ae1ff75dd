/** An ACP backend over any sequence of turns and disposals: sessions, context-token accounting,
    the role prompt, and the connections it opens. */
module AcpSpec {
  import opened Collections

  // ---- what the agent process sends ----------------------------------------------------------

  /** Inputs are opaque; `EMPTY` is the record for anything that is not one. */
  type Input = nat
  const EMPTY: Input := 0

  /** `at` is the clock when the update is read, `output` the text form of what a tool returned. */
  datatype Update =
    | TextChunk(text: string)
    | ToolCall(id: string, title: Option<string>, input: Input, at: int)
    | ToolCallUpdate(
        id: string, finished: bool, title: Option<string>, rawInput: Option<Input>, output: string, at: int)
    | UsageUpdate(used: int)
    | OtherUpdate

  datatype StopReason = EndTurn | MaxTokens | MaxTurnRequests | Refusal | Cancelled

  /** How far starting a session gets. */
  datatype Start = NotConnected | ConnectedOnly | Started

  /** Everything one turn depends on. `stop` is absent when draining the session failed. */
  datatype Turn = Turn(
    prompt: string, start: Start, alreadyAborted: bool,
    updates: seq<Update>, stop: Option<StopReason>, promptRejected: bool, onMessageThrows: bool)

  datatype ToolRecord = ToolRecord(toolName: string, input: Input, output: string, duration: nat)
  datatype Result = Result(
    output: string, toolCalls: seq<ToolRecord>, inputTokens: int, turns: nat, budgetExceeded: bool)
  datatype Event = Text(text: string) | Done(result: Result) | Failed(refused: bool)

  // ---- reading a turn's updates ----------------------------------------------------------------

  function Texts(us: seq<Update>): seq<string> {
    if us == [] then []
    else Texts(us[..|us| - 1]) + if us[|us| - 1].TextChunk? then [us[|us| - 1].text] else []
  }

  /** The latest announcement of a tool call. */
  function Announced(us: seq<Update>, id: string): Option<Update> {
    if us == [] then None
    else if us[|us| - 1].ToolCall? && us[|us| - 1].id == id then Some(us[|us| - 1])
    else Announced(us[..|us| - 1], id)
  }

  /** The record of a finished call: its own title and input, else the announced ones, and the time
      since it was announced. */
  function Finished(us: seq<Update>, u: Update): ToolRecord
    requires u.ToolCallUpdate?
  {
    var meta := Announced(us, u.id);
    AnnouncedIsCall(us, u.id);
    var known := if meta.Some? then meta.value.title else None;
    ToolRecord(
      if u.title.Some? then u.title.value else if known.Some? then known.value else u.id,
      if u.rawInput.Some? then u.rawInput.value else if meta.Some? then meta.value.input else EMPTY,
      u.output,
      if meta.Some? then Max(0, u.at - meta.value.at) else 0)
  }

  lemma {:induction false} AnnouncedIsCall(us: seq<Update>, id: string)
    ensures Announced(us, id).Some? ==> Announced(us, id).value.ToolCall?
  {
    if us != [] { AnnouncedIsCall(us[..|us| - 1], id); }
  }

  function Tools(us: seq<Update>): seq<ToolRecord> {
    if us == [] then []
    else
      var init, u := us[..|us| - 1], us[|us| - 1];
      Tools(init) + if u.ToolCallUpdate? && u.finished then [Finished(init, u)] else []
  }

  /** The last context reading of the turn. */
  function Reading(us: seq<Update>): Option<int> {
    if us == [] then None
    else if us[|us| - 1].UsageUpdate? then Some(us[|us| - 1].used)
    else Reading(us[..|us| - 1])
  }

  // ---- the backend -----------------------------------------------------------------------------

  /** `made` and `live` describe the outside: connections made so far, and those not closed. */
  datatype State = State(
    conn: Option<nat>, session: bool, lastUsed: int, pending: Option<string>, made: nat, live: set<nat>)

  function Init(role: Option<string>): State { State(None, false, 0, role, 0, {}) }

  datatype Ensured = Ensured(state: State, ok: bool)

  function EnsureSession(s: State, start: Start): Ensured {
    if s.session then Ensured(s, true)
    else if start == NotConnected then Ensured(s, false)
    else Ensured(s.(conn := Some(s.made), session := start == Started, made := s.made + 1,
                    live := s.live + {s.made}), start == Started)
  }

  function Chunks(ts: seq<string>): seq<Event> {
    if ts == [] then [] else Chunks(ts[..|ts| - 1]) + [Text(ts[|ts| - 1])]
  }

  /** How a turn whose prompt was sent ends. */
  function Ending(lastUsed: int, t: Turn): Event {
    var output := Join(Texts(t.updates));
    if t.stop.None? || t.promptRejected then Failed(false)
    else if t.stop == Some(Refusal) then Failed(true)
    else if output != "" && t.onMessageThrows then Failed(false)
    else
      var reading := Reading(t.updates);
      Done(Result(output, Tools(t.updates), if reading.Some? then Max(0, reading.value - lastUsed) else 0, 1,
                  t.stop == Some(MaxTokens) || t.stop == Some(MaxTurnRequests)))
  }

  /** What a turn does: the new state, the events, and the prompt sent, if one was. */
  datatype Outcome = Outcome(state: State, events: seq<Event>, sent: Option<string>)

  function WithRole(pending: Option<string>, prompt: string): string {
    if pending.Some? then pending.value + "\n\n" + prompt else prompt
  }

  /** The consumer stops asking at the text event of this number, if there are that many. */
  predicate Abandons(t: Turn, quit: Option<nat>) {
    quit.Some? && 0 < quit.value <= |Texts(t.updates)|
  }

  /** `quit` says after how many text events the consumer leaves the generator, if it does; one that
      leaves before it asks for any event starts nothing. */
  function Stream(s: State, t: Turn, quit: Option<nat>): Outcome {
    if quit == Some(0) then Outcome(s, [], None)
    else if t.prompt == "" then Outcome(s, [Failed(false)], None)
    else
      var e := EnsureSession(s, t.start);
      if !e.ok then Outcome(e.state, [Failed(false)], None)
      else if t.alreadyAborted then Outcome(e.state, [Done(Result("", [], 0, 0, false))], None)
      else
        var sent := Some(WithRole(e.state.pending, t.prompt));
        if Abandons(t, quit) then
          Outcome(e.state.(pending := None), Chunks(Texts(t.updates)[..quit.value]), sent)
        else
          var ending := Ending(e.state.lastUsed, t);
          var reading := Reading(t.updates);
          Outcome(e.state.(pending := None,
                           lastUsed := if ending.Done? && reading.Some? then reading.value else e.state.lastUsed),
                  Chunks(Texts(t.updates)) + [ending], sent)
  }

  /** Closing the connection may throw; then nothing is reset. */
  function Dispose(s: State, role: Option<string>, closeThrows: bool): State {
    if s.conn.Some? && closeThrows then s
    else State(None, false, 0, role, s.made, if s.conn.Some? then s.live - {s.conn.value} else s.live)
  }

  datatype Command = DoTurn(turn: Turn, quit: Option<nat>) | DoDispose(closeThrows: bool)

  function Step(s: State, role: Option<string>, c: Command): State {
    match c
    case DoTurn(t, quit) => Stream(s, t, quit).state
    case DoDispose(throws) => Dispose(s, role, throws)
  }

  function Play(role: Option<string>, cmds: seq<Command>): State {
    if cmds == [] then Init(role) else Step(Play(role, cmds[..|cmds| - 1]), role, cmds[|cmds| - 1])
  }

  /** A disposal that took effect. */
  predicate Restarts(s: State, c: Command) { c.DoDispose? && !(s.conn.Some? && c.closeThrows) }

  // ---- accounting --------------------------------------------------------------------------------

  /** The result of a turn that ended well. */
  function ResultOf(s: State, t: Turn, quit: Option<nat>): Option<Result> {
    var events := Stream(s, t, quit).events;
    if events != [] && events[|events| - 1].Done? then Some(events[|events| - 1].result) else None
  }

  /** The readings that turns which sent a prompt and ended well left, since the last restart. */
  function Committed(role: Option<string>, cmds: seq<Command>): seq<int> {
    if cmds == [] then []
    else
      var init, c := cmds[..|cmds| - 1], cmds[|cmds| - 1];
      var s := Play(role, init);
      var more :=
        if c.DoTurn? && ResultOf(s, c.turn, c.quit).Some? && Stream(s, c.turn, c.quit).sent.Some?
           && Reading(c.turn.updates).Some?
        then [Reading(c.turn.updates).value] else [];
      if Restarts(s, c) then [] else Committed(role, init) + more
  }

  /** The input tokens of all `done` events since the last restart. */
  function Charged(role: Option<string>, cmds: seq<Command>): int {
    if cmds == [] then 0
    else
      var init, c := cmds[..|cmds| - 1], cmds[|cmds| - 1];
      var s := Play(role, init);
      var result := if c.DoTurn? then ResultOf(s, c.turn, c.quit) else None;
      var more := if result.Some? then result.value.inputTokens else 0;
      if Restarts(s, c) then 0 else Charged(role, init) + more
  }

  function Last(rs: seq<int>): int { if rs == [] then 0 else rs[|rs| - 1] }

  /** The total of all downward jumps, starting from zero. */
  function Falls(rs: seq<int>): int {
    if rs == [] then 0 else Falls(rs[..|rs| - 1]) + Max(0, Last(rs[..|rs| - 1]) - rs[|rs| - 1])
  }

  lemma FallsAppend(rs: seq<int>, r: int)
    ensures Falls(rs + [r]) == Falls(rs) + Max(0, Last(rs) - r) && Last(rs + [r]) == r
  {
  }

  /** What a turn adds to the charge and the readings. */
  lemma TurnCharges(s: State, t: Turn, quit: Option<nat>)
    ensures var o, result := Stream(s, t, quit), ResultOf(s, t, quit);
            && (result.None? ==> o.state.lastUsed == s.lastUsed)
            && (result.Some? ==>
                 if o.sent.Some? && Reading(t.updates).Some? then
                   var rise := Reading(t.updates).value - s.lastUsed;
                   result.value.inputTokens == (if rise > 0 then rise else 0)
                   && o.state.lastUsed == Reading(t.updates).value
                 else result.value.inputTokens == 0 && o.state.lastUsed == s.lastUsed)
  {
  }

  /** Within a session the input tokens of all finished turns add up to the last reading plus
      every fall of the context size; turns that failed, were refused or were left by their
      consumer leave no trace, and what they used is charged to the next turn that ends well. */
  lemma {:induction false} UsageTelescopes(role: Option<string>, cmds: seq<Command>)
    ensures var rs := Committed(role, cmds);
            && Charged(role, cmds) == Last(rs) + Falls(rs)
            && Play(role, cmds).lastUsed == Last(rs)
  {
    hide Stream, Reading, ResultOf;
    if cmds != [] {
      var init, c := cmds[..|cmds| - 1], cmds[|cmds| - 1];
      var s := Play(role, init);
      UsageTelescopes(role, init);
      if c.DoTurn? {
        TurnCharges(s, c.turn, c.quit);
        if Reading(c.turn.updates).Some? { FallsAppend(Committed(role, init), Reading(c.turn.updates).value); }
        assert Committed(role, init) + [] == Committed(role, init);
      } else {
        assert Committed(role, init) + [] == Committed(role, init);
      }
    }
  }

  /** The charge is the final reading exactly when the reading never fell, and is never less. */
  lemma {:induction false} NoFallsNoSurplus(rs: seq<int>)
    ensures Falls(rs) >= 0
    ensures Falls(rs) == 0 <==>
            (rs != [] ==> rs[0] >= 0) && forall i :: 0 <= i < |rs| - 1 ==> rs[i] <= rs[i + 1]
  {
    if rs != [] { NoFallsNoSurplus(rs[..|rs| - 1]); }
    if |rs| > 1 {
      var init := rs[..|rs| - 1];
      assert (forall i :: 0 <= i < |rs| - 1 ==> rs[i] <= rs[i + 1]) <==>
             (forall i :: 0 <= i < |init| - 1 ==> init[i] <= init[i + 1]) && rs[|rs| - 2] <= rs[|rs| - 2 + 1];
    }
  }

  // ---- the role prompt ------------------------------------------------------------------------------

  datatype Sent = Sent(prompt: string, text: string)

  /** The prompts sent since the last restart: what was asked and what went out. */
  function SentPrompts(role: Option<string>, cmds: seq<Command>): seq<Sent> {
    if cmds == [] then []
    else
      var init, c := cmds[..|cmds| - 1], cmds[|cmds| - 1];
      var s := Play(role, init);
      var more :=
        if c.DoTurn? && Stream(s, c.turn, c.quit).sent.Some?
        then [Sent(c.turn.prompt, Stream(s, c.turn, c.quit).sent.value)] else [];
      if Restarts(s, c) then [] else SentPrompts(role, init) + more
  }

  lemma TurnSends(s: State, t: Turn, quit: Option<nat>)
    ensures var o := Stream(s, t, quit);
            if o.sent.Some? then o.sent.value == WithRole(s.pending, t.prompt) && o.state.pending == None
            else o.state.pending == s.pending
  {
  }

  /** The first prompt of a session carries the role, whether or not its turn ends well; no
      later one does. */
  lemma {:induction false} RoleGoesFirst(role: Option<string>, cmds: seq<Command>)
    ensures Play(role, cmds).pending == if SentPrompts(role, cmds) == [] then role else None
    ensures var sent := SentPrompts(role, cmds);
            sent != [] && role.Some? ==> sent[0].text == role.value + "\n\n" + sent[0].prompt
    ensures var sent := SentPrompts(role, cmds);
            forall i :: 0 <= i < |sent| && (i > 0 || role.None?) ==> sent[i].text == sent[i].prompt
  {
    hide Stream;
    if cmds != [] {
      var init, c := cmds[..|cmds| - 1], cmds[|cmds| - 1];
      RoleGoesFirst(role, init);
      if c.DoTurn? { TurnSends(Play(role, init), c.turn, c.quit); }
    }
  }

  // ---- the events of a turn --------------------------------------------------------------------------

  lemma {:induction false} ChunksAre(ts: seq<string>)
    ensures |Chunks(ts)| == |ts| && forall i :: 0 <= i < |ts| ==> Chunks(ts)[i] == Text(ts[i])
  {
    if ts != [] { ChunksAre(ts[..|ts| - 1]); }
  }

  function TextOf(es: seq<Event>): string {
    if es == [] then "" else TextOf(es[..|es| - 1]) + if es[|es| - 1].Text? then es[|es| - 1].text else ""
  }

  lemma {:induction false} ChunksJoin(ts: seq<string>)
    ensures TextOf(Chunks(ts)) == Join(ts)
  {
    if ts != [] {
      ChunksJoin(ts[..|ts| - 1]);
      assert Chunks(ts)[..|Chunks(ts)| - 1] == Chunks(ts[..|ts| - 1]);
    }
  }

  /** The consumer left while the turn was under way. */
  predicate Left(s: State, t: Turn, quit: Option<nat>) {
    Stream(s, t, quit).sent.Some? && Abandons(t, quit)
  }

  /** One terminal event, at the end, unless the consumer left: then there is none, and nothing is
      accounted. A `done` event's output is the text that was streamed, and only `done` changes the
      accounting. */
  lemma TurnEvents(s: State, t: Turn, quit: Option<nat>)
    ensures var o := Stream(s, t, quit);
            && (o.events == [] <==> quit == Some(0))
            && (forall i :: 0 <= i < |o.events| ==> (o.events[i].Text? <==> i < |o.events| - 1 || Left(s, t, quit)))
            && (Left(s, t, quit) ==> |o.events| == quit.value && TextOf(o.events) <= Join(Texts(t.updates)))
            && (forall i :: 0 <= i < |o.events| && o.events[i].Text? ==>
                  i < |Texts(t.updates)| && o.events[i].text == Texts(t.updates)[i])
            && (o.sent.Some? && !Left(s, t, quit) ==> |o.events| == |Texts(t.updates)| + 1)
            && (ResultOf(s, t, quit).Some? ==> ResultOf(s, t, quit).value.output == TextOf(o.events))
            && (ResultOf(s, t, quit).None? ==> o.state.lastUsed == s.lastUsed)
  {
    hide Texts, Chunks, Join, TextOf, Ending, Reading, EnsureSession;
    var ts := Texts(t.updates);
    EndingIs(EnsureSession(s, t.start).state.lastUsed, t);
    ChunksThen(ts, Ending(EnsureSession(s, t.start).state.lastUsed, t));
    ChunksThen([], Failed(false));
    ChunksThen([], Done(Result("", [], 0, 0, false)));
    assert EnsureSession(s, t.start).state.lastUsed == s.lastUsed by { StartKeeps(s, t.start); }
    if Abandons(t, quit) {
      ChunksPrefix(ts, quit.value);
    }
  }

  lemma ChunksPrefix(ts: seq<string>, n: nat)
    requires n <= |ts|
    ensures var es := Chunks(ts[..n]);
            |es| == n && TextOf(es) <= Join(ts) && forall i :: 0 <= i < n ==> es[i] == Text(ts[i])
  {
    hide Chunks, TextOf, Join;
    ChunksAre(ts[..n]);
    ChunksJoin(ts[..n]);
    JoinPrefix(ts, n);
  }

  lemma StartKeeps(s: State, start: Start)
    ensures EnsureSession(s, start).state.lastUsed == s.lastUsed
  {
  }

  lemma EndingIs(lastUsed: int, t: Turn)
    ensures var e := Ending(lastUsed, t); !e.Text? && (e.Done? ==> e.result.output == Join(Texts(t.updates)))
  {
  }

  lemma ChunksThen(ts: seq<string>, e: Event)
    requires !e.Text?
    ensures var es := Chunks(ts) + [e];
            && (forall i :: 0 <= i < |es| ==> (es[i].Text? <==> i < |es| - 1))
            && es[|es| - 1] == e && TextOf(es) == Join(ts)
            && |es| == |ts| + 1 && (forall i :: 0 <= i < |ts| ==> es[i] == Text(ts[i]))
    ensures ts == [] ==> Chunks(ts) + [e] == [e] && Join(ts) == ""
  {
    ChunksAre(ts);
    ChunksJoin(ts);
    assert (Chunks(ts) + [e])[..|Chunks(ts)|] == Chunks(ts);
  }

  lemma {:induction false} JoinPrefix(ts: seq<string>, n: nat)
    requires n <= |ts|
    ensures Join(ts[..n]) <= Join(ts)
  {
    if n == |ts| {
      assert ts[..n] == ts;
    } else {
      JoinPrefix(ts[..|ts| - 1], n);
      assert ts[..|ts| - 1][..n] == ts[..n];
    }
  }

  /** When a turn sends its prompt, and how it ends: for each ending, exactly when. */
  lemma TurnEndsExactly(s: State, t: Turn, quit: Option<nat>)
    ensures var o := Stream(s, t, quit);
            && (o.sent.Some? <==>
                  quit != Some(0) && t.prompt != "" && (s.session || t.start == Started) && !t.alreadyAborted)
            && (o.sent.None? && quit != Some(0) ==>
                  o.events == [if t.prompt != "" && (s.session || t.start == Started)
                               then Done(Result("", [], 0, 0, false)) else Failed(false)])
            && (o.sent.Some? && !Left(s, t, quit) ==>
                  && o.events != []
                  && var last := o.events[|o.events| - 1];
                     && (last == Failed(true) <==> t.stop == Some(Refusal) && !t.promptRejected)
                     && (last.Done? <==>
                           && t.stop.Some? && t.stop != Some(Refusal) && !t.promptRejected
                           && !(Join(Texts(t.updates)) != "" && t.onMessageThrows))
                     && (last.Done? ==>
                           && last.result.turns == 1 && last.result.toolCalls == Tools(t.updates)
                           && (last.result.budgetExceeded <==>
                                 t.stop == Some(MaxTokens) || t.stop == Some(MaxTurnRequests)))
                     && (last.Text? ==> false))
  {
    hide Texts, Tools, Reading, Join, Chunks;
  }

  // ---- what the updates of a turn add up to -------------------------------------------------------

  function Count(us: seq<Update>, p: Update -> bool): nat {
    if us == [] then 0 else Count(us[..|us| - 1], p) + if p(us[|us| - 1]) then 1 else 0
  }

  predicate IsText(u: Update) { u.TextChunk? }
  predicate Finishes(u: Update) { u.ToolCallUpdate? && u.finished }

  /** The texts are those of the text updates, in order. */
  lemma {:induction false} TextsExactly(us: seq<Update>)
    ensures |Texts(us)| == Count(us, IsText)
    ensures forall i :: 0 <= i < |us| && us[i].TextChunk? ==>
      var n := Count(us[..i], IsText);
      n < |Texts(us)| && Texts(us)[n] == us[i].text
  {
    if us != [] {
      var init := us[..|us| - 1];
      TextsExactly(init);
      forall i | 0 <= i < |us| && us[i].TextChunk?
        ensures var n := Count(us[..i], IsText); n < |Texts(us)| && Texts(us)[n] == us[i].text
      {
        if i < |init| { assert us[..i] == init[..i]; } else { assert us[..i] == init; }
      }
    }
  }

  /** The reading is that of the last usage update. */
  lemma {:induction false} ReadingExactly(us: seq<Update>, i: nat)
    requires i <= |us| && forall m :: i <= m < |us| ==> !us[m].UsageUpdate?
    requires i > 0 ==> us[i - 1].UsageUpdate?
    ensures Reading(us) == if i == 0 then None else Some(us[i - 1].used)
  {
    if i < |us| { ReadingExactly(us[..|us| - 1], i); }
  }

  /** Update `j - 1` is the last announcement of a call; for 0 there is none. */
  ghost predicate AnnouncedAt(us: seq<Update>, id: string, j: nat) {
    && j <= |us| && (j > 0 ==> us[j - 1].ToolCall? && us[j - 1].id == id)
    && forall m :: j <= m < |us| ==> !(us[m].ToolCall? && us[m].id == id)
  }

  lemma {:induction false} AnnouncedExactly(us: seq<Update>, id: string, j: nat)
    requires AnnouncedAt(us, id, j)
    ensures Announced(us, id) == if j == 0 then None else Some(us[j - 1])
  {
    if j < |us| { AnnouncedExactly(us[..|us| - 1], id, j); }
  }

  lemma {:induction false} ToolsInOrder(us: seq<Update>)
    ensures |Tools(us)| == Count(us, Finishes)
    ensures forall i :: 0 <= i < |us| && Finishes(us[i]) ==>
      var n := Count(us[..i], Finishes);
      n < |Tools(us)| && Tools(us)[n] == Finished(us[..i], us[i])
  {
    hide Finished;
    if us != [] {
      var init := us[..|us| - 1];
      ToolsInOrder(init);
      forall i | 0 <= i < |us| && Finishes(us[i])
        ensures var n := Count(us[..i], Finishes); n < |Tools(us)| && Tools(us)[n] == Finished(us[..i], us[i])
      {
        if i < |init| { assert us[..i] == init[..i]; } else { assert us[..i] == init; }
      }
    }
  }

  /** There is one record for each finishing update, in order: its own title, else that of the last
      announcement of the call before it, else the call's id; its own input, else the announced one;
      its output; and the time since that announcement. */
  lemma ToolRecordsExactly(us: seq<Update>, i: nat, j: nat)
    requires i < |us| && Finishes(us[i]) && AnnouncedAt(us[..i], us[i].id, j)
    ensures |Tools(us)| == Count(us, Finishes) && Count(us[..i], Finishes) < |Tools(us)|
    ensures var u, record := us[i], Tools(us)[Count(us[..i], Finishes)];
            && record.toolName == (if u.title.Some? then u.title.value
                                   else if j > 0 && us[j - 1].title.Some? then us[j - 1].title.value else u.id)
            && record.input == (if u.rawInput.Some? then u.rawInput.value else if j > 0 then us[j - 1].input else EMPTY)
            && record.output == u.output
            && record.duration == if j > 0 && u.at > us[j - 1].at then u.at - us[j - 1].at else 0
  {
    ToolsInOrder(us);
    AnnouncedExactly(us[..i], us[i].id, j);
  }

  // ---- connections -------------------------------------------------------------------------------------

  /** Connections that a later start replaced before anything closed them. */
  function Replaced(role: Option<string>, cmds: seq<Command>): set<nat> {
    if cmds == [] then {}
    else
      var init, c := cmds[..|cmds| - 1], cmds[|cmds| - 1];
      var s := Play(role, init);
      Replaced(role, init) +
        if c.DoTurn? && s.conn.Some? && Stream(s, c.turn, c.quit).state.conn != s.conn then {s.conn.value} else {}
  }

  ghost predicate Tidy(s: State) {
    && (s.session ==> s.conn.Some?)
    && (s.conn.Some? ==> s.conn.value in s.live)
    && (forall n :: n in s.live ==> n < s.made)
  }

  /** The open connections are the current one and those replaced. */
  lemma {:induction false} OpenConnections(role: Option<string>, cmds: seq<Command>)
    ensures var s, lost := Play(role, cmds), Replaced(role, cmds);
            && Tidy(s)
            && s.live == lost + (if s.conn.Some? then {s.conn.value} else {})
            && (s.conn.Some? ==> s.conn.value !in lost)
  {
    hide Ending, Texts, Chunks, Reading;
    if cmds != [] { OpenConnections(role, cmds[..|cmds| - 1]); }
  }

  /** A connection is opened over one whose session never started, as after a failed handshake. */
  predicate StartsOver(s: State, c: Command) {
    c.DoTurn? && c.quit != Some(0) && c.turn.prompt != "" && !s.session && s.conn.Some? && c.turn.start != NotConnected
  }

  /** Nothing but the current connection stays open exactly when no turn starts over a half-started
      connection. */
  lemma {:induction false} LeakExactly(role: Option<string>, cmds: seq<Command>)
    ensures Replaced(role, cmds) == {} <==>
            forall i :: 0 <= i < |cmds| ==> !StartsOver(Play(role, cmds[..i]), cmds[i])
  {
    hide Stream, Tidy, Step, StartsOver, Play;
    if cmds != [] {
      var init, c := cmds[..|cmds| - 1], cmds[|cmds| - 1];
      var s := Play(role, init);
      LeakExactly(role, init);
      OpenConnections(role, init);
      ReplacesWhen(s, c);
      assert forall i :: 0 <= i < |init| ==> cmds[..i] == init[..i];
      assert cmds[..|init|] == init;
    }
  }

  lemma ReplacesWhen(s: State, c: Command)
    requires Tidy(s)
    ensures c.DoTurn? && s.conn.Some? && Stream(s, c.turn, c.quit).state.conn != s.conn <==> StartsOver(s, c)
  {
  }
}
