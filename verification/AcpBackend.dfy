/** The ACP backend as the object that keeps the session, proved against its specification. */
module AcpBackend {
  import opened Collections
  import opened AcpSpec

  /** What the drain loop collects. */
  datatype Drained = Drained(text: seq<string>, tools: seq<ToolRecord>, used: Option<int>)

  class AcpBackend {
    const role: Option<string>
    var conn: Option<nat>
    var session: bool
    var lastUsedTokens: int
    var systemPromptPending: Option<string>

    /** The next connection to be made. */
    var nextConnection: nat

    /** The connections not closed. */
    ghost var live: set<nat>

    ghost predicate Valid()
      reads this
    {
      Tidy(View())
    }

    ghost function View(): State
      reads this
    {
      State(conn, session, lastUsedTokens, systemPromptPending, nextConnection, live)
    }

    constructor (role: Option<string>)
      ensures Valid() && this.role == role && View() == Init(role)
    {
      this.role := role;
      conn, session, lastUsedTokens, systemPromptPending := None, false, 0, role;
      nextConnection, live := 0, {};
    }

    method EnsureSession(start: Start) returns (ok: bool)
      requires Valid()
      modifies this
      ensures Valid()
      ensures Ensured(View(), ok) == AcpSpec.EnsureSession(old(View()), start)
    {
      if session {
        return true;
      }
      if start == NotConnected {
        return false;
      }
      conn := Some(nextConnection);
      live := live + {nextConnection};
      nextConnection := nextConnection + 1;
      session := start == Started;
      ok := session;
    }

    /** One prompt turn: its events, and the prompt sent if there was one. */
    method Stream(t: Turn, quit: Option<nat>) returns (events: seq<Event>, sent: Option<string>)
      requires Valid()
      modifies this
      ensures Valid()
      ensures Outcome(View(), events, sent) == AcpSpec.Stream(old(View()), t, quit)
    {
      hide Texts, Tools, Reading, Join, Chunks;
      if quit == Some(0) {
        return [], None;
      }
      if t.prompt == "" {
        return [Failed(false)], None;
      }
      var ok := EnsureSession(t.start);
      if !ok {
        return [Failed(false)], None;
      }
      if t.alreadyAborted {
        return [Done(Result("", [], 0, 0, false))], None;
      }
      sent := Some(if systemPromptPending.Some? then systemPromptPending.value + "\n\n" + t.prompt else t.prompt);
      systemPromptPending := None;
      var drained, left;
      drained, events, left := Drain(t, quit);
      if !left {
        var ending := Settle(t, drained);
        events := events + [ending];
      }
    }

    method Settle(t: Turn, drained: Drained) returns (ending: Event)
      requires drained == Drained(Texts(t.updates), Tools(t.updates), Reading(t.updates))
      modifies this`lastUsedTokens
      ensures ending == Ending(old(lastUsedTokens), t)
      ensures lastUsedTokens == if ending.Done? && drained.used.Some? then drained.used.value else old(lastUsedTokens)
    {
      hide Texts, Tools, Reading;
      if t.stop.None? || t.promptRejected {
        return Failed(false);
      }
      var output := Concatenate(drained.text);
      if t.stop == Some(Refusal) {
        return Failed(true);
      }
      if output != "" && t.onMessageThrows {
        return Failed(false);
      }
      var inputTokens := 0;
      if drained.used.Some? {
        inputTokens := Max(0, drained.used.value - lastUsedTokens);
        lastUsedTokens := drained.used.value;
      }
      var budgetExceeded := t.stop == Some(MaxTokens) || t.stop == Some(MaxTurnRequests);
      ending := Done(Result(output, drained.tools, inputTokens, 1, budgetExceeded));
    }

    method Dispose(closeThrows: bool) returns (threw: bool)
      requires Valid()
      modifies this
      ensures Valid()
      ensures View() == AcpSpec.Dispose(old(View()), role, closeThrows)
      ensures threw <==> !Restarts(old(View()), DoDispose(closeThrows))
    {
      if conn.Some? {
        if closeThrows {
          return true;
        }
        live := live - {conn.value};
      }
      conn, session := None, false;
      lastUsedTokens, systemPromptPending := 0, role;
      threw := false;
    }

    /** One turn to completion, which leaves no turn: the result of its `done` event, or a throw. */
    method Run(t: Turn) returns (result: Option<Result>)
      requires Valid()
      modifies this
      ensures Valid() && View() == AcpSpec.Stream(old(View()), t, None).state
      ensures result == ResultOf(old(View()), t, None)
    {
      hide Ending, Texts, Tools, Reading, Join, Chunks, AcpSpec.Stream;
      TurnEvents(View(), t, None);
      var events, _ := Stream(t, None);
      result := None;
      for i := 0 to |events|
        invariant i < |events| ==> result == None
        invariant i == |events| ==> result == if events[i - 1].Done? then Some(events[i - 1].result) else None
      {
        match events[i]
        case Done(r) => result := Some(r);
        case Failed(_) => return None;
        case Text(_) =>
      }
    }
  }

  /** Reads the updates of a turn in one pass, remembering announced tool calls, until the turn
      ends or the consumer leaves. */
  method Drain(t: Turn, quit: Option<nat>) returns (drained: Drained, deltas: seq<Event>, left: bool)
    ensures left == Abandons(t, quit)
    ensures deltas == Chunks(if left then Texts(t.updates)[..quit.value] else Texts(t.updates))
    ensures !left ==> drained == Drained(Texts(t.updates), Tools(t.updates), Reading(t.updates))
  {
    hide Finished, Texts, Tools, Reading, Chunks, Announced, Remembers;
    var updates := t.updates;
    var meta: map<string, Update> := map[];
    var text, tools, used := [], [], None;
    deltas, left := [], false;
    NothingRead(updates);
    for i := 0 to |updates|
      invariant text == Texts(updates[..i]) && tools == Tools(updates[..i]) && used == Reading(updates[..i])
      invariant deltas == Chunks(text)
      invariant quit.Some? && quit.value > 0 ==> |text| < quit.value
      invariant Remembers(meta, updates[..i])
    {
      UpdateRead(updates, i);
      Remembered(meta, updates, i);
      match updates[i] {
        case TextChunk(chunk) =>
          OneChunkMore(text, chunk);
          text := text + [chunk];
          deltas := deltas + [Text(chunk)];
          if quit == Some(|text|) {
            TextsGrow(updates, i + 1);
            assert Texts(updates[..i + 1]) == text && Texts(updates)[..|text|] == text;
            left, drained := true, Drained(text, tools, used);
            return;
          }
        case ToolCall(id, _, _, _) =>
          meta := meta[id := updates[i]];
        case ToolCallUpdate(_, finished, _, _, _, _) =>
          if finished {
            var record := FinishCall(meta, updates[..i], updates[i]);
            tools := tools + [record];
          }
        case UsageUpdate(n) =>
          used := Some(n);
        case OtherUpdate =>
      }
    }
    assert updates[..|updates|] == updates;
    drained := Drained(text, tools, used);
  }

  method FinishCall(meta: map<string, Update>, ghost us: seq<Update>, u: Update) returns (record: ToolRecord)
    requires u.ToolCallUpdate? && Remembers(meta, us)
    ensures record == Finished(us, u)
  {
    AnnouncedIsCall(us, u.id);
    assert Announced(us, u.id) == if u.id in meta then Some(meta[u.id]) else None;
    var known := if u.id in meta then Some(meta[u.id]) else None;
    var announced := if known.Some? then known.value.title else None;
    record := ToolRecord(
      if u.title.Some? then u.title.value else if announced.Some? then announced.value else u.id,
      if u.rawInput.Some? then u.rawInput.value else if known.Some? then known.value.input else EMPTY,
      u.output,
      if known.Some? then Max(0, u.at - known.value.at) else 0);
  }

  /** The texts of a prefix of the updates are a prefix of the texts. */
  lemma {:induction false} TextsGrow(us: seq<Update>, i: nat)
    requires i <= |us|
    ensures Texts(us[..i]) <= Texts(us)
  {
    if i == |us| {
      assert us[..i] == us;
    } else {
      TextsGrow(us[..|us| - 1], i);
      assert us[..|us| - 1][..i] == us[..i];
    }
  }

  /** The map holds the latest announcement of every call. */
  ghost predicate Remembers(meta: map<string, Update>, us: seq<Update>) {
    forall id :: Announced(us, id) == if id in meta then Some(meta[id]) else None
  }

  lemma NothingRead(us: seq<Update>)
    ensures Texts(us[..0]) == [] && Tools(us[..0]) == [] && Reading(us[..0]) == None && Chunks([]) == []
    ensures Remembers(map[], us[..0])
  {
  }

  lemma UpdateRead(us: seq<Update>, i: nat)
    requires i < |us|
    ensures var u, init := us[i], us[..i];
            && Texts(us[..i + 1]) == Texts(init) + (if u.TextChunk? then [u.text] else [])
            && Tools(us[..i + 1]) == Tools(init) + (if u.ToolCallUpdate? && u.finished then [Finished(init, u)] else [])
            && Reading(us[..i + 1]) == if u.UsageUpdate? then Some(u.used) else Reading(init)
  {
    hide Finished;
    assert us[..i + 1][..i] == us[..i];
  }

  lemma Remembered(meta: map<string, Update>, us: seq<Update>, i: nat)
    requires i < |us| && Remembers(meta, us[..i])
    ensures Remembers(if us[i].ToolCall? then meta[us[i].id := us[i]] else meta, us[..i + 1])
  {
    assert us[..i + 1][..i] == us[..i];
  }

  lemma OneChunkMore(ts: seq<string>, t: string)
    ensures Chunks(ts + [t]) == Chunks(ts) + [Text(t)]
  {
    assert (ts + [t])[..|ts|] == ts;
  }

  method Concatenate(ts: seq<string>) returns (s: string)
    ensures s == Join(ts)
  {
    s := "";
    for i := 0 to |ts|
      invariant s == Join(ts[..i])
    {
      assert ts[..i + 1][..i] == ts[..i];
      s := s + ts[i];
    }
    assert ts[..|ts|] == ts;
  }
}
