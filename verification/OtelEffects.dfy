/** What one record can change: its own key, or, for a completed run end, its whole trace. */
module OtelEffects {
  import opened Collections
  import opened OtelRecords
  import opened OtelSpec
  import opened OtelLedger
  import opened OtelInvariants

  /** Nothing outside key `k` moves, no closed span moves, a context once registered for `k` stays,
      and a new one comes with a new span. */
  ghost predicate Touched(st: State, st': State, k: Key) {
    var spans, spans' := Replay(st.log), Replay(st'.log);
    && st'.contexts - {k} == st.contexts - {k}
    && st'.open.items - {k} == st.open.items - {k}
    && st'.traceKeys - {k.trace} == st.traceKeys - {k.trace}
    && (k in st.contexts ==> k in st'.contexts && st'.contexts[k] == st.contexts[k])
    && (k in st.contexts && k !in st.open.items ==> k !in st'.open.items)
    && st'.recents == st.recents
    && |spans| <= |spans'| <= |spans| + (if k in st.contexts then 0 else 1)
    && (|spans'| > |spans| ==> k in st'.contexts)
    && (k in st'.contexts && k !in st.contexts ==> |spans'| > |spans| && st'.contexts[k].id == |spans|)
    && (forall n :: 0 <= n < |spans| ==>
          spans'[n].span == spans[n].span && (spans[n].span.key != k || spans[n].Closed() ==> spans'[n] == spans[n]))
    && (forall n :: |spans| <= n < |spans'| ==> spans'[n].span.key == k)
  }

  /** The indexes after a run end that went through, seen from the state before the record. */
  ghost predicate IndexesFinished(st: State, st': State, root: Key) {
    && st'.contexts == Outside(st.contexts, root.trace)
    && st'.open.items == Outside(st.open.items, root.trace)
    && st'.traceKeys == st.traceKeys - {root.trace}
    && st'.recents.order == LastN(st.recents.order + [root], MAX_RECENT_ROOT_CONTEXTS)
  }

  /** The spans after it: those open in the trace closed and marked, the root ended, no other moved. */
  ghost predicate SpansFinished(st: State, st': State, root: Key, quiet: bool) {
    var spans, spans' := Replay(st.log), Replay(st'.log);
    && |spans| <= |spans'| <= |spans| + (if root in st.contexts then 0 else 1)
    && (forall n :: 0 <= n < |spans| ==>
          spans'[n].span == spans[n].span && (spans[n].Closed() ==> spans'[n] == spans[n]))
    && (forall n :: 0 <= n < |spans| && spans[n].span.key != root ==>
          if Alive(st, spans[n]) && spans[n].span.key.trace == root.trace then
            spans'[n].marked && spans'[n].Closed() && (quiet ==> spans'[n].ended && !spans'[n].lost)
          else spans'[n] == spans[n])
    && (forall n :: |spans| <= n < |spans'| ==> spans'[n].span.key == root)
    && (exists n :: 0 <= n < |spans'| && spans'[n].span.key == root && spans'[n].ended)
  }

  /** The effect of a run end that went through. */
  ghost predicate RunFinished(st: State, st': State, root: Key, quiet: bool) {
    IndexesFinished(st, st', root) && SpansFinished(st, st', root, quiet)
  }

  /** The run end was neither dropped as a duplicate nor left by an exception. */
  predicate Completes(tr: Tracer, st: State, r: Record) {
    && IsRunEnd(r)
    && (r.key in st.open.items || !Known(st, r.key))
    && Accept(tr, st, r).ok
  }

  lemma TouchedSelf(st: State, k: Key)
    ensures Touched(st, st, k)
  {
  }

  lemma TouchedTrans(a: State, b: State, c: State, k: Key)
    requires Touched(a, b, k) && Touched(b, c, k)
    ensures Touched(a, c, k)
  {
  }

  lemma DescribedTouches(st: State, st': State, k: Key, added: set<LinkKey>)
    requires Sound(st) && Described(st, st', k, added)
    ensures Touched(st, st', k)
  {
    assert OpenIn(st, Replay(st.log), k);
  }

  lemma RetiredTouches(st: State, st': State, k: Key)
    requires Sound(st) && k in st.open.items && Retired(st, st', k)
    ensures Touched(st, st', k)
  {
    assert OpenIn(st, Replay(st.log), k);
  }

  lemma LogTouches(st: State, st': State, k: Key)
    requires st' == st.(log := st'.log) && Replay(st'.log) == Replay(st.log)
    ensures Touched(st, st', k)
  {
  }

  lemma {:induction false} BeginTouches(tr: Tracer, st: State, r: Record, incomplete: bool)
    requires !r.SpanEvent? && Sound(st) && !Known(st, r.key)
    ensures Touched(st, Begin(tr, st, r, incomplete).st, r.key)
  {
    hide Ledger, Begin;
    SoundFacts(st, r.key);
    BeginLedger(tr, st, r, incomplete);
    var s := Begin(tr, st, r, incomplete);
    if s.ok { BegunTouches(st, s.st, r, ParentSpan(st, r)); } else { LogTouches(st, s.st, r.key); }
  }

  lemma BegunTouches(st: State, st': State, r: Record, parent: Option<Span>)
    requires !r.SpanEvent? && !Known(st, r.key) && Begun(st, st', r, parent) && st.created == |Replay(st.log)|
    ensures Touched(st, st', r.key)
  {
  }

  lemma FinalEndTouches(tr: Tracer, st: State, k: Key, timeMs: int)
    requires Sound(st) && k in st.open.items
    ensures var e := Invoke(tr, st, EndSpan(st.open.items[k].span, timeMs));
            && (e.ok ==> Touched(st, e.st.(open := e.st.open.Remove(k)), k))
            && (!e.ok ==> Touched(st, e.st, k))
  {
    FinalEnd(tr, st, k, timeMs);
    var e := Invoke(tr, st, EndSpan(st.open.items[k].span, timeMs));
    if e.ok { RetiredTouches(st, e.st.(open := e.st.open.Remove(k)), k); }
  }

  lemma CloseEffect(tr: Tracer, st: State, e: State, r: Record, span: Span)
    requires r.SpanEnd? && r.key in e.contexts && Sound(e.(open := e.open.Remove(r.key)))
    requires Touched(st, e.(open := e.open.Remove(r.key)), r.key) && EndedSpan(e, r.key, span)
    ensures var st' := Close(tr, e, r);
            if IsRunEnd(r) then RunFinished(st, st', r.key, NeverThrows(tr)) else Touched(st, st', r.key)
  {
    hide Ledger, Anchored, Swept, RunClosed, Touched, RunFinished, FinalizeTrace;
    var st0 := e.(open := e.open.Remove(r.key));
    if IsRunEnd(r) {
      CloseRun(tr, e, r);
      FinishRun(st, st0, Close(tr, e, r), r.key, span, NeverThrows(tr));
    }
  }

  /** `end` on an open span: its own key only, unless it closes the run. */
  lemma ConcludeEffect(tr: Tracer, st: State, r: Record)
    requires r.SpanEnd? && Sound(st) && r.key in st.open.items
    ensures var s := Conclude(tr, st, r);
            if IsRunEnd(r) && s.ok then RunFinished(st, s.st, r.key, NeverThrows(tr))
            else Touched(st, s.st, r.key)
  {
    hide Sound, Described, Retired, Describe, Invoke, Touched, RunFinished, Close, EndedSpan;
    var k, span := r.key, st.open.items[r.key].span;
    ConcludeStages(tr, st, r);
    DescribeKeeps'(tr, st, r);
    var d := Describe(tr, st, r);
    var added :| Described(st, d.st, k, added);
    DescribedTouches(st, d.st, k, added);
    if d.ok {
      var e := Invoke(tr, d.st, EndSpan(span, r.endMs));
      FinalEndTouches(tr, d.st, k, r.endMs);
      if e.ok {
        TouchedTrans(st, d.st, e.st.(open := e.st.open.Remove(k)), k);
        CloseEffect(tr, st, e.st, r, span);
      } else {
        TouchedTrans(st, d.st, e.st, k);
      }
    }
  }

  lemma DescribeKeeps'(tr: Tracer, st: State, r: Record)
    requires r.SpanEnd? && Sound(st) && r.key in st.open.items
    ensures exists added :: Described(st, Describe(tr, st, r).st, r.key, added)
    ensures r.key in Describe(tr, st, r).st.open.items
    ensures Describe(tr, st, r).st.open.items[r.key].span == st.open.items[r.key].span
  {
    DescribeKeeps(tr, st, r);
  }

  /** Maps equal off one key agree at every other key. */
  lemma Elsewhere<V>(m: map<Key, V>, m': map<Key, V>, k: Key, j: Key)
    requires m - {k} == m' - {k} && j != k
    ensures (j in m <==> j in m') && (j in m ==> m[j] == m'[j])
  {
    assert j in m <==> j in m - {k};
    assert j in m' <==> j in m' - {k};
    if j in m { assert m[j] == (m - {k})[j] == (m' - {k})[j] == m'[j]; }
  }

  lemma OutsideElsewhere<V>(m: map<Key, V>, m': map<Key, V>, k: Key)
    requires m - {k} == m' - {k}
    ensures Outside(m, k.trace) == Outside(m', k.trace)
  {
    forall j: Key | j != k
      ensures (j in m <==> j in m') && (j in m ==> m[j] == m'[j])
    {
      Elsewhere(m, m', k, j);
    }
  }

  lemma TouchedAlive(st: State, st': State, k: Key, n: nat)
    requires Touched(st, st', k) && n < |Replay(st.log)| && Replay(st.log)[n].span.key != k
    ensures Alive(st, Replay(st.log)[n]) == Alive(st', Replay(st'.log)[n])
    ensures Replay(st.log)[n] == Replay(st'.log)[n]
  {
    Elsewhere(st.open.items, st'.open.items, k, Replay(st.log)[n].span.key);
  }

  lemma FinishRun(st: State, st0: State, st': State, root: Key, span: Span, quiet: bool)
    requires Ledger(st0) && Indexed(st0) && Touched(st, st0, root) && root in st0.contexts && root !in st0.open.items
    requires RunClosed(st0, st', root) && root.trace in st0.traceKeys
    requires Swept(st0.(recents := st'.recents, traceKeys := st'.traceKeys), st', st0.traceKeys[root.trace], quiet)
    requires span.key == root && Issued(Replay(st0.log), span) && Replay(st0.log)[span.id].ended
    ensures RunFinished(st, st', root, quiet)
  {
    hide Replay, LastN, Ledger, Swept, SpansFinished;
    OutsideElsewhere(st.contexts, st0.contexts, root);
    OutsideElsewhere(st.open.items, st0.open.items, root);
    assert st0.traceKeys - {root.trace} == st.traceKeys - {root.trace};
    FinishSpans(st, st0, st', root, span, quiet);
  }

  lemma FinishSpans(st: State, st0: State, st': State, root: Key, span: Span, quiet: bool)
    requires Ledger(st0) && Indexed(st0) && Touched(st, st0, root) && root in st0.contexts && root !in st0.open.items
    requires root.trace in st0.traceKeys
    requires Swept(st0.(recents := st'.recents, traceKeys := st'.traceKeys), st', st0.traceKeys[root.trace], quiet)
    requires span.key == root && Issued(Replay(st0.log), span) && Replay(st0.log)[span.id].ended
    ensures SpansFinished(st, st', root, quiet)
  {
    hide Replay, Ledger, Indexed;
    var keys := st0.traceKeys[root.trace];
    var st1 := st0.(recents := st'.recents, traceKeys := st'.traceKeys);
    var spans, spans0, spans' := Replay(st.log), Replay(st0.log), Replay(st'.log);
    forall n | 0 <= n < |spans0|
      ensures Targeted(st1, keys, spans0[n]) <==> Alive(st0, spans0[n]) && spans0[n].span.key.trace == root.trace
      ensures Alive(st0, spans0[n]) ==> !spans0[n].Closed()
    {
      AliveInTrace(st0, root.trace, n);
    }
    forall n | 0 <= n < |spans| && spans[n].span.key != root
      ensures Alive(st0, spans0[n]) <==> Alive(st, spans[n])
      ensures spans0[n] == spans[n]
    {
      TouchedAlive(st, st0, root, n);
    }
    assert spans'[span.id].ended && spans'[span.id].span.key == root;
  }

  lemma AliveInTrace(st: State, t: string, n: nat)
    requires Ledger(st) && Indexed(st) && t in st.traceKeys && n < |Replay(st.log)|
    ensures var v := Replay(st.log)[n];
            && (v.span.key in st.traceKeys[t] && Alive(st, v) <==> Alive(st, v) && v.span.key.trace == t)
            && (Alive(st, v) ==> !v.Closed())
  {
    var v := Replay(st.log)[n];
    if Alive(st, v) { assert OpenIn(st, Replay(st.log), v.span.key); }
  }

  /** The effect of any record on any sound state, for any tracer. */
  lemma {:induction false} AcceptEffect(tr: Tracer, st: State, r: Record)
    requires Sound(st)
    ensures var st' := Accept(tr, st, r).st;
            if Completes(tr, st, r) then RunFinished(st, st', r.key, NeverThrows(tr))
            else Touched(st, st', r.key)
  {
    hide Sound, Touched, RunFinished, Begin, Conclude, Event;
    SoundFacts(st, r.key);
    TouchedSelf(st, r.key);
    match r
    case SpanStart(_, _, _, _, _, _) =>
      if !Known(st, r.key) { BeginTouches(tr, st, r, false); }
    case SpanEvent(_, _, _, _) => EventTouches(tr, st, r);
    case SpanEnd(_, _, _, _, _, _, _, _, _) =>
      if r.key in st.open.items {
        ConcludeEffect(tr, st, r);
      } else if !Known(st, r.key) {
        var s := Begin(tr, st, r, true);
        BeginTouches(tr, st, r, true);
        BeginKeeps(tr, st, r, true);
        if s.ok {
          BeginOpens(tr, st, r, true);
          ConcludeEffect(tr, s.st, r);
          var c := Conclude(tr, s.st, r);
          if IsRunEnd(r) && c.ok { RunFinishedLater(st, s.st, c.st, r.key, NeverThrows(tr)); }
          else { TouchedTrans(st, s.st, c.st, r.key); }
        }
      }
  }

  lemma EventTouches(tr: Tracer, st: State, r: Record)
    requires r.SpanEvent? && Sound(st)
    ensures Touched(st, Event(tr, st, r).st, r.key)
  {
    if r.key in st.open.items {
      PlainCalls(tr, st, r.key, EventOps(st.open.items[r.key], r));
      LogTouches(st, Event(tr, st, r).st, r.key);
    }
  }

  lemma RunFinishedLater(a: State, b: State, c: State, root: Key, quiet: bool)
    requires Touched(a, b, root) && RunFinished(b, c, root, quiet)
    ensures RunFinished(a, c, root, quiet)
  {
    var x := Replay(a.log);
    OutsideElsewhere(a.contexts, b.contexts, root);
    OutsideElsewhere(a.open.items, b.open.items, root);
    forall n | 0 <= n < |x| && x[n].span.key != root
      ensures Alive(a, x[n]) == Alive(b, Replay(b.log)[n]) && x[n] == Replay(b.log)[n]
    {
      TouchedAlive(a, b, root, n);
    }
  }
}
