/** What each record sends to the tracer, call by call, and what precedes every end of a span. */
module OtelCalls {
  import opened Collections
  import opened OtelRecords
  import opened OtelSpec
  import opened OtelLedger
  import opened OtelInvariants
  import opened OtelEffects
  import opened OtelTrail
  import opened OtelRuns
  import opened OtelHistory

  // ---- calls in order, up to the first that throws -----------------------------------------

  /** `after` is `before` and then the calls `ops`, each returning or throwing as the tracer says,
      up to and with the first that throws; `ok` when none does. */
  ghost predicate Sent(tr: Tracer, before: seq<Call>, after: seq<Call>, ops: seq<Op>, ok: bool) {
    && before <= after && |after| - |before| <= |ops|
    && (forall i :: |before| <= i < |after| ==> after[i] == Call(ops[i - |before|], !tr(i)))
    && (forall i :: |before| <= i < |after| - 1 ==> !tr(i))
    && if ok then |after| == |before| + |ops| && (ops != [] ==> !tr(|after| - 1))
       else |after| > |before| && tr(|after| - 1)
  }

  lemma SentOn(tr: Tracer, a: seq<Call>, b: seq<Call>, c: seq<Call>, ops: seq<Op>, more: seq<Op>, ok: bool)
    requires Sent(tr, a, b, ops, true) && Sent(tr, b, c, more, ok)
    ensures Sent(tr, a, c, ops + more, ok)
  {
  }

  lemma SentShort(tr: Tracer, a: seq<Call>, b: seq<Call>, ops: seq<Op>, more: seq<Op>)
    requires Sent(tr, a, b, ops, false)
    ensures Sent(tr, a, b, ops + more, false)
  {
  }

  lemma InvokeSends(tr: Tracer, st: State, op: Op)
    ensures var s := Invoke(tr, st, op); Sent(tr, st.log, s.st.log, [op], s.ok)
  {
  }

  lemma {:induction false} InvokeAllSends(tr: Tracer, st: State, ops: seq<Op>)
    ensures var s := InvokeAll(tr, st, ops); Sent(tr, st.log, s.st.log, ops, s.ok)
    decreases |ops|
  {
    hide Sent, Invoke;
    if ops == [] {
      SentNothing(tr, st.log);
    } else {
      var s := Invoke(tr, st, ops[0]);
      InvokeSends(tr, st, ops[0]);
      assert ops == [ops[0]] + ops[1..];
      if s.ok {
        InvokeAllSends(tr, s.st, ops[1..]);
        var rest := InvokeAll(tr, s.st, ops[1..]);
        SentOn(tr, st.log, s.st.log, rest.st.log, [ops[0]], ops[1..], rest.ok);
      } else {
        SentShort(tr, st.log, s.st.log, [ops[0]], ops[1..]);
      }
    }
  }

  lemma SentNothing(tr: Tracer, log: seq<Call>)
    ensures Sent(tr, log, log, [], true)
  {
  }

  // ---- links --------------------------------------------------------------------------------

  /** The context a link to `k` gets: that of the known span, else of the remembered root. */
  function ContextFor(st: State, k: Key): Option<Span> {
    if k in st.contexts then Some(st.contexts[k])
    else if k in st.recents.items then Some(st.recents.items[k])
    else None
  }

  /** The links whose target and relation are not among those sent, each once. */
  function NewLinks(links: seq<Link>, sent: set<LinkKey>): seq<Link>
    decreases |links|
  {
    if links == [] then []
    else
      var id := LinkKey(links[0].target, links[0].relation);
      if id in sent then NewLinks(links[1..], sent) else [links[0]] + NewLinks(links[1..], sent + {id})
  }

  function WithContexts(st: State, links: seq<Link>): (r: seq<SentLink>)
    ensures |r| == |links|
    ensures forall i :: 0 <= i < |links| ==> r[i] == SentLink(links[i], ContextFor(st, links[i].target))
  {
    seq(|links|, i requires 0 <= i < |links| => SentLink(links[i], ContextFor(st, links[i].target)))
  }

  function LinkCalls(span: Span, links: seq<SentLink>): (ops: seq<Op>)
    ensures |ops| == |links| && forall i :: 0 <= i < |links| ==> ops[i] == AddLink(span, links[i])
  {
    seq(|links|, i requires 0 <= i < |links| => AddLink(span, links[i]))
  }

  /** The states agree on what links and parents are resolved to. */
  ghost predicate SameContexts(st: State, st': State) {
    st'.contexts == st.contexts && st'.recents == st.recents
  }

  lemma {:induction false} LinksSend(tr: Tracer, st: State, k: Key, links: seq<Link>)
    requires k in st.open.items
    ensures var s, e := AddEndLinks(tr, st, k, links), st.open.items[k];
            && SameContexts(st, s.st) && k in s.st.open.items && s.st.open.items[k].span == e.span
            && Sent(tr, st.log, s.st.log, LinkCalls(e.span, WithContexts(st, NewLinks(links, e.linkKeys))), s.ok)
    decreases |links|
  {
    hide Sent, Invoke;
    var e := st.open.items[k];
    if links == [] {
      SentNothing(tr, st.log);
      assert LinkCalls(e.span, WithContexts(st, [])) == [];
    } else if KeyOf(links[0]) in e.linkKeys {
      LinksSend(tr, st, k, links[1..]);
    } else {
      var op := AddLink(e.span, Resolve(st, links[0]));
      var s := Invoke(tr, st, op);
      var rest := NewLinks(links[1..], e.linkKeys + {KeyOf(links[0])});
      InvokeSends(tr, st, op);
      InvokeKeepsIndexes(tr, st, op);
      assert LinkCalls(e.span, WithContexts(st, [links[0]] + rest)) == [op] + LinkCalls(e.span, WithContexts(st, rest));
      if s.ok {
        var st' := WithLink(s.st, k, KeyOf(links[0]));
        LinksSend(tr, st', k, links[1..]);
        assert WithContexts(st', rest) == WithContexts(st, rest);
        var x := AddEndLinks(tr, st', k, links[1..]);
        SentOn(tr, st.log, s.st.log, x.st.log, [op], LinkCalls(e.span, WithContexts(st, rest)), x.ok);
      } else {
        SentShort(tr, st.log, s.st.log, [op], LinkCalls(e.span, WithContexts(st, rest)));
      }
    }
  }

  lemma InvokeKeepsIndexes(tr: Tracer, st: State, op: Op)
    ensures var s := Invoke(tr, st, op);
            SameContexts(st, s.st) && s.st.open == st.open && s.st.traceKeys == st.traceKeys
  {
  }

  // ---- events -------------------------------------------------------------------------------

  /** The span number `n` is the one open under the key. */
  ghost predicate OpenSpan(st: State, n: nat, k: Key) {
    n < |Replay(st.log)| && Replay(st.log)[n].span.key == k && !Replay(st.log)[n].Closed()
  }

  lemma OpenEntry(st: State, n: nat, k: Key)
    requires Sound(st) && OpenSpan(st, n, k)
    ensures k in st.open.items
    ensures var e, v := st.open.items[k], Replay(st.log)[n];
            && e.span == v.span && e.linkKeys == v.links
            && !v.record.SpanEvent? && e.startMs == v.record.startMs
  {
    assert Alive(st, Replay(st.log)[n]);
    assert OpenIn(st, Replay(st.log), k);
  }

  /** What an event sends, in any run with any tracer: for a span that is open under its key, the
      event at its own time, and after a `first_chunk` the time since the span's start record, up to
      the first call that throws. */
  lemma EventSends(tr: Tracer, cs: seq<Command>, r: Record, n: nat)
    requires r.SpanEvent? && OpenSpan(Exec(tr, INIT, cs), n, r.key)
    ensures var st := Exec(tr, INIT, cs);
            var v, x := Replay(st.log)[n], Accept(tr, st, r);
            && !v.record.SpanEvent?
            && var wait := if r.timestampMs > v.record.startMs then r.timestampMs - v.record.startMs else 0;
               Sent(tr, st.log, x.st.log,
                    if r.name == "first_chunk" then
                      [AddEvent(v.span, r.payload, r.timestampMs),
                       SetAttributes(v.span, FirstChunk(wait)), SetAttributes(v.span, FirstChunkMs(wait))]
                    else [AddEvent(v.span, r.payload, r.timestampMs)],
                    x.ok)
  {
    hide Sent, Exec, Replay, Sound;
    var st := Exec(tr, INIT, cs);
    InitSound();
    ExecSound(tr, INIT, cs);
    OpenEntry(st, n, r.key);
    var e := st.open.items[r.key];
    InvokeAllSends(tr, st, EventOps(e, r));
    var wait := if r.timestampMs > e.startMs then r.timestampMs - e.startMs else 0;
    var add := AddEvent(e.span, r.payload, r.timestampMs);
    var first, firstMs := SetAttributes(e.span, FirstChunk(wait)), SetAttributes(e.span, FirstChunkMs(wait));
    assert EventOps(e, r) == if r.name == "first_chunk" then [add, first, firstMs] else [add];
  }

  /** An event for a key under which no span is open does nothing. */
  lemma StrayEvent(tr: Tracer, cs: seq<Command>, r: Record)
    requires r.SpanEvent? && forall n: nat :: !OpenSpan(Exec(tr, INIT, cs), n, r.key)
    ensures Accept(tr, Exec(tr, INIT, cs), r) == Step(Exec(tr, INIT, cs), true)
  {
    hide Exec, Replay, Sound;
    var st := Exec(tr, INIT, cs);
    InitSound();
    ExecSound(tr, INIT, cs);
    if r.key in st.open.items { EntryIsOpen(st, r.key); }
  }

  lemma EntryIsOpen(st: State, k: Key)
    requires Sound(st) && k in st.open.items
    ensures OpenSpan(st, st.open.items[k].span.id, k)
  {
    assert OpenIn(st, Replay(st.log), k);
  }

  // ---- ends ---------------------------------------------------------------------------------

  /** Everything an end record sends for its open span, the end itself included. */
  function EndCalls(span: Span, links: seq<SentLink>, r: Record): seq<Op>
    requires r.SpanEnd?
  {
    [SetAttributes(span, OfEnd(r))] + LinkCalls(span, links) + [SetStatus(span, Mapped(r.status))]
    + (match r.error
       case None => []
       case Some(e) => [SetAttributes(span, OfError(e)), AddEvent(span, e, r.endMs)])
    + [EndSpan(span, r.endMs)]
  }

  lemma DescribeSends(tr: Tracer, st: State, r: Record)
    requires r.SpanEnd? && r.key in st.open.items
    ensures var s, e := Describe(tr, st, r), st.open.items[r.key];
            var links := WithContexts(st, NewLinks(r.links, e.linkKeys));
            && SameContexts(st, s.st)
            && Sent(tr, st.log, s.st.log,
                    [SetAttributes(e.span, OfEnd(r))] + LinkCalls(e.span, links) + ClosingOps(e.span, r), s.ok)
  {
    hide Sent, Invoke, ClosingOps, AddEndLinks;
    var e := st.open.items[r.key];
    var links := LinkCalls(e.span, WithContexts(st, NewLinks(r.links, e.linkKeys)));
    var op, closing := SetAttributes(e.span, OfEnd(r)), ClosingOps(e.span, r);
    var s := Invoke(tr, st, op);
    InvokeSends(tr, st, op);
    InvokeKeepsIndexes(tr, st, op);
    if s.ok {
      LinksSend(tr, s.st, r.key, r.links);
      var t := AddEndLinks(tr, s.st, r.key, r.links);
      assert WithContexts(s.st, NewLinks(r.links, e.linkKeys)) == WithContexts(st, NewLinks(r.links, e.linkKeys));
      SentOn(tr, st.log, s.st.log, t.st.log, [op], links, t.ok);
      if t.ok {
        InvokeAllSends(tr, t.st, closing);
        InvokeAllKeepsIndexes(tr, t.st, closing);
        var u := InvokeAll(tr, t.st, closing);
        SentOn(tr, st.log, t.st.log, u.st.log, [op] + links, closing, u.ok);
      } else {
        SentShort(tr, st.log, t.st.log, [op] + links, closing);
      }
    } else {
      assert [op] + (links + closing) == [op] + links + closing;
      SentShort(tr, st.log, s.st.log, [op], links + closing);
    }
  }

  lemma {:induction false} InvokeAllKeepsIndexes(tr: Tracer, st: State, ops: seq<Op>)
    ensures SameContexts(st, InvokeAll(tr, st, ops).st)
    decreases |ops|
  {
    if ops != [] { InvokeAllKeepsIndexes(tr, Invoke(tr, st, ops[0]).st, ops[1..]); }
  }

  /** The log once a span's own end has been sent, before what a run end cleans up. */
  ghost predicate EndSent(tr: Tracer, st: State, x: Step, r: Record, ops: seq<Op>) {
    exists log ::
      Sent(tr, st.log, log, ops, x.ok) && log <= x.st.log && (!x.ok || !IsRunEnd(r) ==> x.st.log == log)
  }

  lemma {:induction false} ConcludeSends(tr: Tracer, st: State, r: Record)
    requires r.SpanEnd? && Sound(st) && r.key in st.open.items
    ensures var e := st.open.items[r.key];
            EndSent(tr, st, Conclude(tr, st, r), r,
                EndCalls(e.span, WithContexts(st, NewLinks(r.links, e.linkKeys)), r))
  {
    hide Sent, Invoke, Describe, LinkCalls, WithContexts, NewLinks, Sound, Close, Quietly, EndedSpan, Described,
        Retired;
    var e := st.open.items[r.key];
    var links := WithContexts(st, NewLinks(r.links, e.linkKeys));
    var d := Describe(tr, st, r);
    var first := [SetAttributes(e.span, OfEnd(r))] + LinkCalls(e.span, links) + ClosingOps(e.span, r);
    var last := EndSpan(e.span, r.endMs);
    DescribeSends(tr, st, r);
    assert EndCalls(e.span, links, r) == first + [last];
    if d.ok {
      var s := Invoke(tr, d.st, last);
      InvokeSends(tr, d.st, last);
      SentOn(tr, st.log, d.st.log, s.st.log, first, [last], s.ok);
      if s.ok {
        ConcludeStages(tr, st, r);
        ClosePrefix(tr, d.st, s.st, r, last);
        assert Sent(tr, st.log, s.st.log, first + [last], true);
      }
    } else {
      SentShort(tr, st.log, d.st.log, first, [last]);
    }
  }

  lemma ClosePrefix(tr: Tracer, st: State, s: State, r: Record, op: Op)
    requires r.SpanEnd? && Sound(st) && op.EndSpan? && s == Invoke(tr, st, op).st
    ensures s.log <= Close(tr, s, r).log && (!IsRunEnd(r) ==> Close(tr, s, r).log == s.log)
  {
    hide FinalizeKeys;
    SoundNamed(st);
    InvokeKeeps(tr, st, op);
    InvokeKeepsIndexes(tr, st, op);
    CloseQuietly(tr, s, r);
  }

  /** What an end sends, in any run with any tracer, for the span open under its key: attributes, the
      links the span does not have, status, the error if there is one, and the end, up to the first
      call that throws. Only what a run end cleans up can follow. */
  lemma EndSends(tr: Tracer, cs: seq<Command>, r: Record, n: nat)
    requires r.SpanEnd? && OpenSpan(Exec(tr, INIT, cs), n, r.key)
    ensures var st := Exec(tr, INIT, cs); var v := Replay(st.log)[n];
            EndSent(tr, st, Accept(tr, st, r), r,
                    EndCalls(v.span, WithContexts(st, NewLinks(r.links, v.links)), r))
  {
    hide Sent, Exec, Replay, Sound, EndSent, EndCalls, Conclude;
    var st := Exec(tr, INIT, cs);
    InitSound();
    ExecSound(tr, INIT, cs);
    OpenEntry(st, n, r.key);
    ConcludeSends(tr, st, r);
  }

  // ---- starts -------------------------------------------------------------------------------

  /** The call that starts a span from a record: marked incomplete when that is an end record. */
  function StartCall(st: State, r: Record): Op
    requires !r.SpanEvent?
  {
    var named := r.parentSpanId.Some? && r.parentSpanId.value != "";
    var parent := if named then Key(r.key.trace, r.parentSpanId.value) else r.key;
    StartSpan(Span(|Replay(st.log)|, r.key), r, r.SpanEnd?,
              if named && parent in st.contexts then Some(st.contexts[parent]) else None,
              WithContexts(st, r.links))
  }

  lemma BeginSends(tr: Tracer, st: State, r: Record)
    requires !r.SpanEvent? && Sound(st)
    ensures var s := Begin(tr, st, r, r.SpanEnd?); Sent(tr, st.log, s.st.log, [StartCall(st, r)], s.ok)
  {
    hide Sent;
    SoundFacts(st, r.key);
    var op := StartOp(st, r, r.SpanEnd?);
    InvokeSends(tr, st, op);
    assert op.links == WithContexts(st, r.links);
    assert op == StartCall(st, r);
  }

  /** What the start of an unknown key sends, in any run with any tracer: one call. */
  lemma StartSends(tr: Tracer, cs: seq<Command>, r: Record)
    requires r.SpanStart? && !Known(Exec(tr, INIT, cs), r.key)
    ensures var st := Exec(tr, INIT, cs); var x := Accept(tr, st, r);
            Sent(tr, st.log, x.st.log, [StartCall(st, r)], x.ok)
  {
    hide Exec, Sent, Begin;
    var st := Exec(tr, INIT, cs);
    InitSound();
    ExecSound(tr, INIT, cs);
    SoundFacts(st, r.key);
    BeginSends(tr, st, r);
  }

  /** What the end of an unknown key sends: the start of an incomplete span with all the links, and
      then what an end sends to a span that has them. */
  lemma {:induction false} LateEndSends(tr: Tracer, cs: seq<Command>, r: Record)
    requires r.SpanEnd? && !Known(Exec(tr, INIT, cs), r.key)
    ensures var st := Exec(tr, INIT, cs);
            EndSent(tr, st, Accept(tr, st, r), r,
                    [StartCall(st, r)] + EndCalls(Span(|Replay(st.log)|, r.key), [], r))
  {
    hide Exec, Sent, Begin, Conclude, EndCalls, Sound, StartCall;
    var st := Exec(tr, INIT, cs);
    InitSound();
    ExecSound(tr, INIT, cs);
    SoundFacts(st, r.key);
    BeginSends(tr, st, r);
    var s := Begin(tr, st, r, true);
    var ops := EndCalls(Span(|Replay(st.log)|, r.key), [], r);
    if s.ok {
      BeginKeeps(tr, st, r, true);
      BeginOpens(tr, st, r, true);
      BegunEntry(tr, st, r);
      ConcludeSends(tr, s.st, r);
      var x := Conclude(tr, s.st, r);
      var log :|
        Sent(tr, s.st.log, log, ops, x.ok) && log <= x.st.log && (!x.ok || !IsRunEnd(r) ==> x.st.log == log);
      SentOn(tr, st.log, s.st.log, log, [StartCall(st, r)], ops, x.ok);
    } else {
      SentShort(tr, st.log, s.st.log, [StartCall(st, r)], ops);
    }
  }

  lemma BegunEntry(tr: Tracer, st: State, r: Record)
    requires r.SpanEnd? && Sound(st) && Begin(tr, st, r, true).ok
    ensures var s := Begin(tr, st, r, true).st;
            && r.key in s.open.items
            && s.open.items[r.key].span == Span(|Replay(st.log)|, r.key)
            && WithContexts(s, NewLinks(r.links, s.open.items[r.key].linkKeys)) == []
  {
    hide Replay;
    SoundFacts(st, r.key);
    var s := Begin(tr, st, r, true).st;
    NothingNew(r.links, LinkKeys(r.links));
  }

  lemma {:induction false} NothingNew(links: seq<Link>, sent: set<LinkKey>)
    requires LinkKeys(links) <= sent
    ensures NewLinks(links, sent) == []
    decreases |links|
  {
    if links != [] {
      assert KeyOf(links[0]) in LinkKeys(links);
      assert LinkKeys(links[1..]) <= LinkKeys(links);
      NothingNew(links[1..], sent);
    }
  }

  /** A link context over a run: there is one exactly when the target got a span since its trace was
      last closed, which is then its span, or is among the last 256 finished roots. */
  lemma LinkContextExactly(tr: Tracer, cs: seq<Command>, k: Key)
    ensures var st := Exec(tr, INIT, cs); var context := ContextFor(st, k);
            && (context.Some? <==> Recreated(tr, cs, k, false) || k in LastN(RunEnds(tr, cs), 256))
            && (context.Some? ==> context.value.key == k && Issued(Replay(st.log), context.value))
            && (Recreated(tr, cs, k, false) ==> context.value.id >= Base(tr, cs, k.trace))
  {
    hide Exec, Replay, Base, Recreated, RunEnds, LastN, Sound;
    var st := Exec(tr, INIT, cs);
    InitSound();
    ExecSound(tr, INIT, cs);
    KnownExactly(tr, cs, k);
    StaysCurrent(tr, cs, k.trace);
    RecentsAreLastRunEnds(tr, cs);
    RememberedIsFinished(st, k);
    ContextIsIssued(st, k);
  }

  lemma ContextIsIssued(st: State, k: Key)
    requires Sound(st)
    ensures var c := ContextFor(st, k); c.Some? ==> c.value.key == k && Issued(Replay(st.log), c.value)
  {
  }

  // ---- what precedes every end ----------------------------------------------------------------

  /** Call `j` ends a span as the record `r` says, right after the span was described in full: the
      record's attributes, then at most links, then status and, exactly for a failure, the error,
      every one of these calls having returned. */
  ghost predicate DescribedBefore(log: seq<Call>, j: nat, r: Record)
    requires j < |log|
  {
    var span, after := log[j].op.span, if r.SpanEnd? && r.error.Some? then 2 else 0;
    && r.SpanEnd? && r.key == span.key && log[j].op == EndSpan(span, r.endMs)
    && j >= after + 1 && log[j - after - 1] == Call(SetStatus(span, Mapped(r.status)), true)
    && (r.error.Some? ==>
          && log[j - 2] == Call(SetAttributes(span, OfError(r.error.value)), true)
          && log[j - 1] == Call(AddEvent(span, r.error.value, r.endMs), true))
    && exists i ::
         && 0 <= i < j - after - 1 && log[i] == Call(SetAttributes(span, OfEnd(r)), true)
         && forall m :: i < m < j - after - 1 ==> log[m].ok && log[m].op.AddLink? && log[m].op.span == span
  }

  /** Call `j` ends a span as cleanup does, right after marking it incomplete and unsetting its status. */
  predicate CleanedUp(log: seq<Call>, j: nat)
    requires j < |log|
  {
    var span := log[j].op.span;
    && j >= 2 && log[j - 2] == Call(SetAttributes(span, Incomplete), true)
    && log[j - 1] == Call(SetStatus(span, Unset), true)
  }

  /** Every end from call `from` on is cleanup's or that of a record among `who`. */
  ghost predicate Explained(log: seq<Call>, from: nat, who: set<Record>) {
    forall j :: from <= j < |log| && log[j].op.EndSpan? ==>
      CleanedUp(log, j) || exists r :: r in who && DescribedBefore(log, j, r)
  }

  lemma DescribedLater(log: seq<Call>, log': seq<Call>, j: nat, r: Record)
    requires j < |log| && log <= log' && DescribedBefore(log, j, r)
    ensures DescribedBefore(log', j, r)
  {
    var after := if r.error.Some? then 2 else 0;
    var span := log[j].op.span;
    var i :|
      && 0 <= i < j - after - 1 && log[i] == Call(SetAttributes(span, OfEnd(r)), true)
      && forall m :: i < m < j - after - 1 ==> log[m].ok && log[m].op.AddLink? && log[m].op.span == span;
    assert log'[i] == log[i];
  }

  lemma ExplainedOn(a: seq<Call>, b: seq<Call>, c: seq<Call>, who: set<Record>, who': set<Record>)
    requires a <= b <= c && Explained(b, |a|, who) && Explained(c, |b|, who') && who <= who'
    ensures Explained(c, |a|, who')
  {
    hide DescribedBefore;
    forall j | |a| <= j < |b| && b[j].op.EndSpan?
      ensures CleanedUp(c, j) || exists r :: r in who' && DescribedBefore(c, j, r)
    {
      if r :| r in who && DescribedBefore(b, j, r) { DescribedLater(b, c, j, r); }
    }
  }

  lemma NoEnds(tr: Tracer, a: seq<Call>, b: seq<Call>, ops: seq<Op>, ok: bool)
    requires Sent(tr, a, b, ops, ok) && forall op :: op in ops ==> !op.EndSpan?
    ensures Explained(b, |a|, {}) && a <= b
  {
  }

  lemma CleanupExplained(tr: Tracer, st: State, span: Span, timeMs: int)
    ensures var s := InvokeAll(tr, st, CleanupOps(span, timeMs));
            Explained(s.st.log, |st.log|, {}) && st.log <= s.st.log
  {
    InvokeAllSends(tr, st, CleanupOps(span, timeMs));
  }

  lemma {:induction false} KeysExplained(tr: Tracer, st: State, keys: seq<Key>, timeMs: int)
    ensures var st' := FinalizeKeys(tr, st, keys, timeMs); Explained(st'.log, |st.log|, {}) && st.log <= st'.log
    decreases |keys|
  {
    hide Explained, InvokeAll;
    if keys == [] {
      NothingToExplain(st.log);
    } else {
      var mid := FinalizeKey(tr, st, keys[0], timeMs);
      if keys[0] in st.open.items { CleanupExplained(tr, st, st.open.items[keys[0]].span, timeMs); }
      else { NothingToExplain(st.log); }
      KeysExplained(tr, mid, keys[1..], timeMs);
      ExplainedOn(st.log, mid.log, FinalizeKeys(tr, mid, keys[1..], timeMs).log, {}, {});
    }
  }

  lemma {:induction false} AllExplained(tr: Tracer, st: State, keys: seq<Key>, timeMs: int)
    ensures var st' := FinalizeAll(tr, st, keys, timeMs); Explained(st'.log, |st.log|, {}) && st.log <= st'.log
    decreases |keys|
  {
    hide Explained, InvokeAll;
    if keys == [] {
      NothingToExplain(st.log);
    } else {
      var mid := if keys[0] in st.open.items then FinalizeSpan(tr, st, keys[0], timeMs) else st;
      if keys[0] in st.open.items { CleanupExplained(tr, st, st.open.items[keys[0]].span, timeMs); }
      else { NothingToExplain(st.log); }
      AllExplained(tr, mid, keys[1..], timeMs);
      ExplainedOn(st.log, mid.log, FinalizeAll(tr, mid, keys[1..], timeMs).log, {}, {});
    }
  }

  lemma NothingToExplain(log: seq<Call>)
    ensures Explained(log, |log|, {})
  {
  }

  /** The calls of an end that get as far as the end. */
  lemma EndCallsExplained(tr: Tracer, a: seq<Call>, b: seq<Call>, span: Span, links: seq<SentLink>, r: Record, ok: bool)
    requires r.SpanEnd? && r.key == span.key && Sent(tr, a, b, EndCalls(span, links, r), ok)
    ensures Explained(b, |a|, {r}) && a <= b
  {
    var ops, after := EndCalls(span, links, r), if r.error.Some? then 2 else 0;
    assert |ops| == |links| + 3 + after;
    forall j | |a| <= j < |b| && b[j].op.EndSpan? ensures DescribedBefore(b, j, r) {
      assert j == |a| + |ops| - 1;
      assert b[|a|] == Call(SetAttributes(span, OfEnd(r)), true);
      assert ops[1 + |links|] == SetStatus(span, Mapped(r.status));
      forall m | |a| < m < j - after - 1 ensures b[m].ok && b[m].op.AddLink? && b[m].op.span == span {
        assert ops[m - |a|] == AddLink(span, links[m - |a| - 1]);
      }
    }
  }

  lemma CloseExplained(tr: Tracer, st: State, r: Record)
    requires r.SpanEnd?
    ensures Explained(Close(tr, st, r).log, |st.log|, {}) && st.log <= Close(tr, st, r).log
  {
    hide Explained, FinalizeKeys, Remember;
    NothingToExplain(st.log);
    if IsRunEnd(r) && r.key.trace in st.traceKeys {
      var st0 := st.(open := st.open.Remove(r.key));
      var st1 := if r.key in st0.contexts
                 then st0.(recents := Remember(st0.recents, r.key, st0.contexts[r.key])) else st0;
      KeysExplained(tr, st1, st.traceKeys[r.key.trace], r.endMs);
    }
  }

  lemma {:induction false} ConcludeExplained(tr: Tracer, st: State, r: Record)
    requires r.SpanEnd? && Sound(st) && r.key in st.open.items
    ensures var x := Conclude(tr, st, r); Explained(x.st.log, |st.log|, {r}) && st.log <= x.st.log
  {
    hide Sent, Explained, Describe, Invoke, EndCalls, Close, WithContexts, NewLinks;
    var e := st.open.items[r.key];
    var links := WithContexts(st, NewLinks(r.links, e.linkKeys));
    EntryKey(st, r.key);
    var d := Describe(tr, st, r);
    var first := [SetAttributes(e.span, OfEnd(r))] + LinkCalls(e.span, links) + ClosingOps(e.span, r);
    var last := EndSpan(e.span, r.endMs);
    DescribeSends(tr, st, r);
    EndCallsAre(e.span, links, r);
    if d.ok {
      var s := Invoke(tr, d.st, last);
      InvokeSends(tr, d.st, last);
      SentOn(tr, st.log, d.st.log, s.st.log, first, [last], s.ok);
      EndCallsExplained(tr, st.log, s.st.log, e.span, links, r, s.ok);
      if s.ok {
        CloseExplained(tr, s.st, r);
        ExplainedMore(Close(tr, s.st, r).log, |s.st.log|, {}, {r});
        ExplainedOn(st.log, s.st.log, Close(tr, s.st, r).log, {r}, {r});
      }
    } else {
      SentShort(tr, st.log, d.st.log, first, [last]);
      EndCallsExplained(tr, st.log, d.st.log, e.span, links, r, false);
    }
  }

  lemma EndCallsAre(span: Span, links: seq<SentLink>, r: Record)
    requires r.SpanEnd?
    ensures EndCalls(span, links, r)
         == [SetAttributes(span, OfEnd(r))] + LinkCalls(span, links) + ClosingOps(span, r) + [EndSpan(span, r.endMs)]
  {
  }

  lemma EntryKey(st: State, k: Key)
    requires Sound(st) && k in st.open.items
    ensures st.open.items[k].span.key == k
  {
    assert OpenIn(st, Replay(st.log), k);
  }

  lemma ExplainedMore(log: seq<Call>, from: nat, who: set<Record>, who': set<Record>)
    requires Explained(log, from, who) && who <= who'
    ensures Explained(log, from, who')
  {
    hide DescribedBefore, CleanedUp;
  }

  lemma {:induction false} AcceptExplained(tr: Tracer, st: State, r: Record)
    requires Sound(st)
    ensures var x := Accept(tr, st, r); Explained(x.st.log, |st.log|, {r}) && st.log <= x.st.log
  {
    hide Sound, Explained, Begin, Conclude, Sent;
    SoundFacts(st, r.key);
    NothingToExplain(st.log);
    ExplainedMore(st.log, |st.log|, {}, {r});
    match r
    case SpanStart(_, _, _, _, _, _) => if !Known(st, r.key) { BeginExplained(tr, st, r); }
    case SpanEvent(_, _, _, _) =>
      if r.key in st.open.items {
        var ops := EventOps(st.open.items[r.key], r);
        var x := InvokeAll(tr, st, ops);
        InvokeAllSends(tr, st, ops);
        NoEnds(tr, st.log, x.st.log, ops, x.ok);
        ExplainedMore(x.st.log, |st.log|, {}, {r});
      }
    case SpanEnd(_, _, _, _, _, _, _, _, _) =>
      if r.key in st.open.items {
        ConcludeExplained(tr, st, r);
      } else if !Known(st, r.key) {
        var s := Begin(tr, st, r, true);
        BeginExplained(tr, st, r);
        if s.ok {
          BeginKeeps(tr, st, r, true);
          BeginOpens(tr, st, r, true);
          ConcludeExplained(tr, s.st, r);
          ExplainedOn(st.log, s.st.log, Conclude(tr, s.st, r).st.log, {r}, {r});
        }
      }
  }

  lemma BeginExplained(tr: Tracer, st: State, r: Record)
    requires !r.SpanEvent? && Sound(st)
    ensures var s := Begin(tr, st, r, r.SpanEnd?); Explained(s.st.log, |st.log|, {r}) && st.log <= s.st.log
  {
    hide Sent, Explained, Begin;
    BeginSends(tr, st, r);
    var s := Begin(tr, st, r, r.SpanEnd?);
    NoEnds(tr, st.log, s.st.log, [StartCall(st, r)], s.ok);
    ExplainedMore(s.st.log, |st.log|, {}, {r});
  }

  function Offered(cs: seq<Command>): set<Record> {
    if cs == [] then {}
    else Offered(cs[..|cs| - 1]) + if cs[|cs| - 1].Offer? then {cs[|cs| - 1].record} else {}
  }

  /** In every run with any tracer, every end of a span is cleanup's, or follows directly on the full
      description that a record offered for that span asks for. */
  lemma {:induction false} EndsAreExplained(tr: Tracer, cs: seq<Command>)
    ensures Explained(Exec(tr, INIT, cs).log, 0, Offered(cs))
  {
    hide Sound, Explained, Accept, FinalizeAll;
    if cs == [] {
      assert Explained(INIT.log, 0, {}) by { NothingToExplain([]); }
    } else {
      var init, c := cs[..|cs| - 1], cs[|cs| - 1];
      var st := Exec(tr, INIT, init);
      InitSound();
      ExecSound(tr, INIT, init);
      EndsAreExplained(tr, init);
      match c
      case Offer(r) =>
        AcceptExplained(tr, st, r);
        var log := Accept(tr, st, r).st.log;
        ExplainedMore(log, |st.log|, {r}, Offered(cs));
        ExplainedOn([], st.log, log, Offered(init), Offered(cs));
      case Stop(timeMs) =>
        AllExplained(tr, st, st.open.order, timeMs);
        var log := Shutdown(tr, st, timeMs).log;
        ExplainedMore(log, |st.log|, {}, Offered(cs));
        ExplainedOn([], st.log, log, Offered(init), Offered(cs));
    }
  }
}
