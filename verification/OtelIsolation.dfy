/** Traces do not disturb one another: what a trace sends to the tracer is what it would
    send if its records were exported alone. */
module OtelIsolation {
  import opened Collections
  import opened OtelRecords
  import opened OtelSpec
  import opened OtelLedger
  import opened OtelInvariants
  import opened OtelEffects
  import opened OtelTrail
  import opened OtelRuns
  import opened OtelHistory
  import opened OtelTraces

  /** A handle with its number erased: the span is named by its key only. */
  function Bare(s: Span): Span {
    s.(id := 0)
  }

  function BareOption(s: Option<Span>): Option<Span> {
    if s.Some? then Some(Bare(s.value)) else None
  }

  function BareLink(s: SentLink): SentLink {
    s.(context := BareOption(s.context))
  }

  function View(op: Op): Op {
    match op
    case StartSpan(s, r, inc, p, ls) =>
      StartSpan(Bare(s), r, inc, BareOption(p), seq(|ls|, i requires 0 <= i < |ls| => BareLink(ls[i])))
    case AddEvent(s, p, t) => AddEvent(Bare(s), p, t)
    case SetAttributes(s, a) => SetAttributes(Bare(s), a)
    case AddLink(s, l) => AddLink(Bare(s), BareLink(l))
    case SetStatus(s, x) => SetStatus(Bare(s), x)
    case EndSpan(s, t) => EndSpan(Bare(s), t)
  }

  /** The calls a trace received, in order, with handles named by key. */
  function TraceView(log: seq<Call>, t: string): seq<Op> {
    if log == [] then []
    else
      var op := log[|log| - 1].op;
      TraceView(log[..|log| - 1], t) + if op.span.key.trace == t then [View(op)] else []
  }

  lemma {:induction false} ForeignCalls(log: seq<Call>, log': seq<Call>, t: string)
    requires log <= log' && forall i :: |log| <= i < |log'| ==> log'[i].op.span.key.trace != t
    ensures TraceView(log', t) == TraceView(log, t)
    decreases |log'|
  {
    if |log'| == |log| {
      assert log' == log;
    } else {
      ForeignCalls(log, log'[..|log'| - 1], t);
    }
  }

  ghost predicate SameEntry(e: Entry, f: Entry, k: Key) {
    e.span.key == k && f.span.key == k && e.startMs == f.startMs && e.linkKeys == f.linkKeys
  }

  ghost predicate AgreeAt(s: State, a: State, k: Key) {
    && (k in s.contexts <==> k in a.contexts)
    && (k in s.contexts ==> s.contexts[k].key == k && a.contexts[k].key == k)
    && (k in s.open.items <==> k in a.open.items)
    && (k in s.open.items ==> SameEntry(s.open.items[k], a.open.items[k], k))
  }

  /** The two states are alike as far as trace `t` can tell. */
  ghost predicate Alike(s: State, a: State, t: string) {
    && (forall k: Key :: k.trace == t ==> AgreeAt(s, a, k))
    && (t in s.traceKeys <==> t in a.traceKeys)
    && (t in s.traceKeys ==> s.traceKeys[t] == a.traceKeys[t])
    && TraceView(s.log, t) == TraceView(a.log, t)
  }

  ghost predicate Forgotten(s: State, t: string) {
    forall k: Key :: k.trace == t ==> k !in s.recents.items
  }

  lemma AlikeCall(tr: Tracer, s: State, a: State, t: string, op: Op, op': Op)
    requires Alike(s, a, t) && View(op) == View(op') && op.span.key.trace == t
    ensures Alike(Invoke(tr, s, op).st, Invoke(tr, a, op').st, t)
  {
  }

  lemma {:induction false} AlikeCalls(tr: Tracer, s: State, a: State, t: string, ops: seq<Op>, ops': seq<Op>)
    requires NeverThrows(tr) && Alike(s, a, t) && |ops| == |ops'|
    requires forall i :: 0 <= i < |ops| ==> View(ops[i]) == View(ops'[i]) && ops[i].span.key.trace == t
    ensures Alike(InvokeAll(tr, s, ops).st, InvokeAll(tr, a, ops').st, t)
    decreases |ops|
  {
    hide Alike;
    if ops != [] {
      AlikeCall(tr, s, a, t, ops[0], ops'[0]);
      AlikeCalls(tr, Invoke(tr, s, ops[0]).st, Invoke(tr, a, ops'[0]).st, t, ops[1..], ops'[1..]);
    }
  }

  lemma {:induction false} CallsOnlyLog(tr: Tracer, st: State, ops: seq<Op>)
    requires forall op :: op in ops ==> !op.StartSpan?
    ensures InvokeAll(tr, st, ops).st == st.(log := InvokeAll(tr, st, ops).st.log)
    decreases |ops|
  {
    if ops != [] {
      var s := Invoke(tr, st, ops[0]);
      if s.ok { CallsOnlyLog(tr, s.st, ops[1..]); }
    }
  }

  /** Links inside the trace resolve alike. */
  lemma AlikeLink(s: State, a: State, t: string, l: Link)
    requires Alike(s, a, t) && Forgotten(s, t) && Forgotten(a, t) && l.target.trace == t
    ensures BareLink(Resolve(s, l)) == BareLink(Resolve(a, l))
  {
  }

  ghost predicate LinksWithin(ls: seq<Link>, t: string) {
    forall l :: l in ls ==> l.target.trace == t
  }

  lemma AlikeWithLink(s: State, a: State, t: string, k: Key, lk: LinkKey)
    requires Alike(s, a, t) && k in s.open.items && k in a.open.items && k.trace == t
    ensures Alike(WithLink(s, k, lk), WithLink(a, k, lk), t)
  {
  }

  lemma {:induction false} AlikeEndLinks(tr: Tracer, s: State, a: State, t: string, k: Key, ls: seq<Link>)
    requires NeverThrows(tr) && Alike(s, a, t) && Forgotten(s, t) && Forgotten(a, t) && LinksWithin(ls, t)
    requires k.trace == t && k in s.open.items && k in a.open.items
    ensures var s', a' := AddEndLinks(tr, s, k, ls).st, AddEndLinks(tr, a, k, ls).st;
            && Alike(s', a', t) && Forgotten(s', t) && Forgotten(a', t)
            && k in s'.open.items && k in a'.open.items
            && s'.open.items[k].span == s.open.items[k].span && a'.open.items[k].span == a.open.items[k].span
    decreases |ls|
  {
    hide Alike;
    assert AgreeAt(s, a, k) by { AlikeAt(s, a, t, k); }
    if ls != [] {
      if KeyOf(ls[0]) in s.open.items[k].linkKeys {
        AlikeEndLinks(tr, s, a, t, k, ls[1..]);
      } else {
        AlikeLink(s, a, t, ls[0]);
        var op, op' :=
            AddLink(s.open.items[k].span, Resolve(s, ls[0])), AddLink(a.open.items[k].span, Resolve(a, ls[0]));
        AlikeCall(tr, s, a, t, op, op');
        var s1, a1 := Invoke(tr, s, op).st, Invoke(tr, a, op').st;
        AlikeWithLink(s1, a1, t, k, KeyOf(ls[0]));
        AlikeEndLinks(tr, WithLink(s1, k, KeyOf(ls[0])), WithLink(a1, k, KeyOf(ls[0])), t, k, ls[1..]);
      }
    }
  }

  lemma AlikeAt(s: State, a: State, t: string, k: Key)
    requires Alike(s, a, t) && k.trace == t
    ensures AgreeAt(s, a, k)
  {
  }

  lemma AlikeBegin(tr: Tracer, s: State, a: State, t: string, r: Record, incomplete: bool)
    requires NeverThrows(tr) && Alike(s, a, t) && Forgotten(s, t) && Forgotten(a, t)
    requires !r.SpanEvent? && r.key.trace == t && LinksWithin(r.links, t)
    ensures var s', a' := Begin(tr, s, r, incomplete).st, Begin(tr, a, r, incomplete).st;
            Alike(s', a', t) && Forgotten(s', t) && Forgotten(a', t)
  {
    var op, op' := StartOp(s, r, incomplete), StartOp(a, r, incomplete);
    assert View(op) == View(op') by {
      if ParentKey(r).Some? { assert AgreeAt(s, a, ParentKey(r).value); }
      forall i | 0 <= i < |r.links| ensures BareLink(op.links[i]) == BareLink(op'.links[i]) {
        assert r.links[i] in r.links;
        AlikeLink(s, a, t, r.links[i]);
      }
    }
    AlikeCall(tr, s, a, t, op, op');
    AlikeEntered(Invoke(tr, s, op).st, Invoke(tr, a, op').st, t, r, op.span, op'.span);
  }

  lemma AlikeEntered(s: State, a: State, t: string, r: Record, span: Span, span': Span)
    requires Alike(s, a, t) && !r.SpanEvent? && r.key.trace == t && span.key == r.key == span'.key
    ensures var s1, a1 := Register(s, r.key, span), Register(a, r.key, span');
            var s' := s1.(open := s1.open.Put(r.key, Entry(span, r.startMs, LinkKeys(r.links))));
            var a' := a1.(open := a1.open.Put(r.key, Entry(span', r.startMs, LinkKeys(r.links))));
            Alike(s', a', t)
  {
    var s1, a1 := Register(s, r.key, span), Register(a, r.key, span');
    var s' := s1.(open := s1.open.Put(r.key, Entry(span, r.startMs, LinkKeys(r.links))));
    var a' := a1.(open := a1.open.Put(r.key, Entry(span', r.startMs, LinkKeys(r.links))));
    forall j: Key | j.trace == t ensures AgreeAt(s', a', j) {
      assert AgreeAt(s, a, j);
    }
  }

  lemma AlikeDescribe(tr: Tracer, s: State, a: State, t: string, r: Record)
    requires NeverThrows(tr) && Alike(s, a, t) && Forgotten(s, t) && Forgotten(a, t)
    requires r.SpanEnd? && r.key.trace == t && LinksWithin(r.links, t)
    requires r.key in s.open.items && r.key in a.open.items
    ensures var s', a' := Describe(tr, s, r).st, Describe(tr, a, r).st;
            && Alike(s', a', t) && Forgotten(s', t) && Forgotten(a', t)
  {
    hide Alike;
    var k, e, f := r.key, s.open.items[r.key].span, a.open.items[r.key].span;
    AlikeAt(s, a, t, k);
    AlikeCall(tr, s, a, t, SetAttributes(e, OfEnd(r)), SetAttributes(f, OfEnd(r)));
    var s1, a1 := Invoke(tr, s, SetAttributes(e, OfEnd(r))).st, Invoke(tr, a, SetAttributes(f, OfEnd(r))).st;
    AlikeEndLinks(tr, s1, a1, t, k, r.links);
    NeverThrowingLinks(tr, s1, k, r.links);
    NeverThrowingLinks(tr, a1, k, r.links);
    var s2, a2 := AddEndLinks(tr, s1, k, r.links).st, AddEndLinks(tr, a1, k, r.links).st;
    AlikeCalls(tr, s2, a2, t, ClosingOps(e, r), ClosingOps(f, r));
    CallsOnlyLog(tr, s2, ClosingOps(e, r));
    CallsOnlyLog(tr, a2, ClosingOps(f, r));
  }

  lemma AlikeFinalizeKey(tr: Tracer, s: State, a: State, t: string, k: Key, timeMs: int)
    requires NeverThrows(tr) && Alike(s, a, t) && k.trace == t
    ensures Alike(FinalizeKey(tr, s, k, timeMs), FinalizeKey(tr, a, k, timeMs), t)
  {
    assert AgreeAt(s, a, k);
    if k in s.open.items {
      var e, f := s.open.items[k].span, a.open.items[k].span;
      AlikeCalls(tr, s, a, t, CleanupOps(e, timeMs), CleanupOps(f, timeMs));
      CallsOnlyLog(tr, s, CleanupOps(e, timeMs));
      CallsOnlyLog(tr, a, CleanupOps(f, timeMs));
    }
    AlikeWithout(s, a, t, k, FinalizeKey(tr, s, k, timeMs), FinalizeKey(tr, a, k, timeMs));
  }

  lemma AlikeWithout(s: State, a: State, t: string, k: Key, s': State, a': State)
    requires Alike(s, a, t) && TraceView(s'.log, t) == TraceView(a'.log, t)
    requires s'.contexts == s.contexts - {k} && a'.contexts == a.contexts - {k}
    requires s'.open.items == s.open.items - {k} && a'.open.items == a.open.items - {k}
    requires s'.traceKeys == s.traceKeys && a'.traceKeys == a.traceKeys
    ensures Alike(s', a', t)
  {
  }

  lemma {:induction false} AlikeFinalizeKeys(tr: Tracer, s: State, a: State, t: string, keys: seq<Key>, timeMs: int)
    requires NeverThrows(tr) && Alike(s, a, t) && forall k :: k in keys ==> k.trace == t
    ensures Alike(FinalizeKeys(tr, s, keys, timeMs), FinalizeKeys(tr, a, keys, timeMs), t)
    decreases |keys|
  {
    hide Alike, FinalizeKey;
    if keys != [] {
      AlikeFinalizeKey(tr, s, a, t, keys[0], timeMs);
      AlikeFinalizeKeys(tr, FinalizeKey(tr, s, keys[0], timeMs), FinalizeKey(tr, a, keys[0], timeMs), t, keys[1..],
          timeMs);
    }
  }

  lemma {:induction false} AlikeClose(tr: Tracer, s: State, a: State, t: string, r: Record)
    requires NeverThrows(tr) && Alike(s, a, t) && r.SpanEnd? && r.key.trace == t
    requires t in s.traceKeys ==> forall k :: k in s.traceKeys[t] ==> k.trace == t
    ensures Alike(Close(tr, s, r), Close(tr, a, r), t)
    ensures !IsRunEnd(r) ==> Close(tr, s, r).recents == s.recents && Close(tr, a, r).recents == a.recents
  {
    var s0, a0 := s.(open := s.open.Remove(r.key)), a.(open := a.open.Remove(r.key));
    forall j: Key | j.trace == t ensures AgreeAt(s0, a0, j) {
      assert AgreeAt(s, a, j);
    }
    if IsRunEnd(r) {
      assert AgreeAt(s, a, r.key);
      var s1 := if r.key in s0.contexts then s0.(recents := Remember(s0.recents, r.key, s0.contexts[r.key])) else s0;
      var a1 := if r.key in a0.contexts then a0.(recents := Remember(a0.recents, r.key, a0.contexts[r.key])) else a0;
      AlikeAnyRecents(s0, a0, s1, a1, t);
      AlikeFinalizeTrace(tr, s1, a1, t, r.endMs);
    }
  }

  lemma AlikeAnyRecents(s: State, a: State, s': State, a': State, t: string)
    requires Alike(s, a, t) && s' == s.(recents := s'.recents) && a' == a.(recents := a'.recents)
    ensures Alike(s', a', t)
  {
  }

  lemma AlikeFinalizeTrace(tr: Tracer, s: State, a: State, t: string, timeMs: int)
    requires NeverThrows(tr) && Alike(s, a, t)
    requires t in s.traceKeys ==> forall k :: k in s.traceKeys[t] ==> k.trace == t
    ensures Alike(FinalizeTrace(tr, s, t, timeMs), FinalizeTrace(tr, a, t, timeMs), t)
  {
    if t in s.traceKeys {
      var keys := s.traceKeys[t];
      AlikeFinalizeKeys(tr, s, a, t, keys, timeMs);
      var s', a' := FinalizeKeys(tr, s, keys, timeMs), FinalizeKeys(tr, a, keys, timeMs);
      forall j: Key | j.trace == t
        ensures AgreeAt(s'.(traceKeys := s'.traceKeys - {t}), a'.(traceKeys := a'.traceKeys - {t}), j)
      {
        assert AgreeAt(s', a', j);
      }
    }
  }

  lemma {:induction false} AlikeConclude(tr: Tracer, s: State, a: State, t: string, r: Record)
    requires NeverThrows(tr) && Sound(s) && Alike(s, a, t) && Forgotten(s, t) && Forgotten(a, t)
    requires r.SpanEnd? && r.key.trace == t && LinksWithin(r.links, t)
    requires r.key in s.open.items && r.key in a.open.items
    ensures var s', a' := Conclude(tr, s, r).st, Conclude(tr, a, r).st;
            Alike(s', a', t) && (!IsRunEnd(r) ==> Forgotten(s', t) && Forgotten(a', t))
  {
    hide Sound, Alike, Describe, Close, Described, Retired, EndedSpan, Invoke;
    AlikeDescribe(tr, s, a, t, r);
    NeverThrowingConcludes(tr, s, r);
    NeverThrowingConcludes(tr, a, r);
    AlikeAt(s, a, t, r.key);
    var e, f := s.open.items[r.key].span, a.open.items[r.key].span;
    var s1, a1 := Describe(tr, s, r).st, Describe(tr, a, r).st;
    var op, op' := EndSpan(e, r.endMs), EndSpan(f, r.endMs);
    AlikeCall(tr, s1, a1, t, op, op');
    ConcludeStages(tr, s, r);
    SoundNamed(s1);
    InvokeFrame(tr, s1, op);
    InvokeFrame(tr, a1, op');
    AlikeClose(tr, Invoke(tr, s1, op).st, Invoke(tr, a1, op').st, t, r);
  }

  lemma InvokeFrame(tr: Tracer, st: State, op: Op)
    ensures var st' := Invoke(tr, st, op).st;
            && st'.traceKeys == st.traceKeys && st'.recents == st.recents
            && st'.open == st.open && st'.contexts == st.contexts
  {
  }

  /** A record of the trace itself moves both states alike. */
  lemma {:induction false} AlikeAccept(tr: Tracer, s: State, a: State, t: string, r: Record)
    requires NeverThrows(tr) && Sound(s) && Sound(a) && Alike(s, a, t) && Forgotten(s, t) && Forgotten(a, t)
    requires r.key.trace == t && (!r.SpanEvent? ==> LinksWithin(r.links, t))
    ensures var s', a' := Accept(tr, s, r).st, Accept(tr, a, r).st;
            Alike(s', a', t) && (!IsRunEnd(r) ==> Forgotten(s', t) && Forgotten(a', t))
  {
    hide Sound, Alike, Begin, Conclude;
    SoundFacts(s, r.key);
    SoundFacts(a, r.key);
    AlikeAt(s, a, t, r.key);
    match r
    case SpanStart(_, _, _, _, _, _) =>
      if !Known(s, r.key) { AlikeBegin(tr, s, a, t, r, false); }
    case SpanEvent(_, _, _, _) =>
      if r.key in s.open.items {
        var e, f := s.open.items[r.key], a.open.items[r.key];
        AlikeCalls(tr, s, a, t, EventOps(e, r), EventOps(f, r));
        CallsOnlyLog(tr, s, EventOps(e, r));
        CallsOnlyLog(tr, a, EventOps(f, r));
      }
    case SpanEnd(_, _, _, _, _, _, _, _, _) =>
      if r.key in s.open.items {
        AlikeConclude(tr, s, a, t, r);
      } else if !Known(s, r.key) {
        AlikeBegin(tr, s, a, t, r, true);
        BeginKeeps(tr, s, r, true);
        NeverThrowingBegins(tr, s, r);
        NeverThrowingBegins(tr, a, r);
        AlikeConclude(tr, Begin(tr, s, r, true).st, Begin(tr, a, r, true).st, t, r);
      }
  }

  lemma NeverThrowingBegins(tr: Tracer, st: State, r: Record)
    requires NeverThrows(tr) && r.SpanEnd?
    ensures Begin(tr, st, r, true).ok && r.key in Begin(tr, st, r, true).st.open.items
  {
  }

  /** A record of another trace changes nothing trace `t` can tell. */
  lemma {:induction false} AlikeForeign(tr: Tracer, s: State, a: State, t: string, r: Record)
    requires Sound(s) && Alike(s, a, t) && Forgotten(s, t) && r.key.trace != t
    ensures Alike(Accept(tr, s, r).st, a, t) && Forgotten(Accept(tr, s, r).st, t)
  {
    hide Sound, Accept, TraceView;
    var s' := Accept(tr, s, r).st;
    AcceptEffect(tr, s, r);
    AcceptTraced(tr, s, r);
    ForeignCalls(s.log, s'.log, t);
    forall k: Key | k.trace == t ensures AgreeAt(s', a, k) && k !in s'.recents.items {
      assert AgreeAt(s, a, k);
      if Completes(tr, s, r) {
        RecentsAfterRun(tr, s, r, s');
      } else {
        Elsewhere(s.contexts, s'.contexts, r.key, k);
        Elsewhere(s.open.items, s'.open.items, r.key, k);
      }
    }
    ForeignTraceKeys(tr, s, s', t, r);
  }

  lemma ForeignTraceKeys(tr: Tracer, s: State, s': State, t: string, r: Record)
    requires r.key.trace != t
    requires s'.traceKeys - {r.key.trace} == s.traceKeys - {r.key.trace}
    ensures (t in s'.traceKeys <==> t in s.traceKeys) && (t in s.traceKeys ==> s'.traceKeys[t] == s.traceKeys[t])
  {
    assert t in s'.traceKeys <==> t in s'.traceKeys - {r.key.trace};
    assert t in s.traceKeys <==> t in s.traceKeys - {r.key.trace};
    if t in s.traceKeys {
      assert s.traceKeys[t] == (s.traceKeys - {r.key.trace})[t] == (s'.traceKeys - {r.key.trace})[t];
    }
  }

  // ---- the theorem --------------------------------------------------------------------

  /** The records of one trace, in order. */
  function Only(rs: seq<Record>, t: string): seq<Record> {
    if rs == [] then []
    else Only(rs[..|rs| - 1], t) + if rs[|rs| - 1].key.trace == t then [rs[|rs| - 1]] else []
  }

  /** The trace's links stay inside it and nothing of it follows its run end. */
  ghost predicate SelfContained(rs: seq<Record>, t: string) {
    && (forall i :: 0 <= i < |rs| && rs[i].key.trace == t && !rs[i].SpanEvent? ==> LinksWithin(rs[i].links, t))
    && EndsWithRunEnd(rs, t)
  }

  lemma {:induction false} TraceIsolationAlike(tr: Tracer, rs: seq<Record>, t: string)
    requires NeverThrows(tr) && SelfContained(rs, t)
    ensures var s, a := After(tr, rs), After(tr, Only(rs, t));
            && Sound(s) && Sound(a) && TraceView(s.log, t) == TraceView(a.log, t)
            && (!HasRunEnded(rs, t) ==> Alike(s, a, t) && Forgotten(s, t) && Forgotten(a, t))
  {
    hide Sound, Alike, Accept, TraceView, HasRunEnded, After;
    if rs == [] {
      AlikeInit(tr, t);
    } else {
      var shorter, r := rs[..|rs| - 1], rs[|rs| - 1];
      assert rs == shorter + [r];
      TraceIsolationAlike(tr, shorter, t);
      HasRunEndedStep(shorter, r, t);
      var s, a := After(tr, shorter), After(tr, Only(shorter, t));
      AfterLast(tr, shorter, r);
      AcceptKeeps(tr, s, r);
      if r.key.trace == t {
        assert !HasRunEnded(shorter, t) by { NotEndedBefore(rs, t, |shorter|); }
        AfterLast(tr, Only(shorter, t), r);
        AcceptKeeps(tr, a, r);
        AlikeAccept(tr, s, a, t, r);
        AlikeViews(Accept(tr, s, r).st, Accept(tr, a, r).st, t);
      } else {
        assert Only(rs, t) == Only(shorter, t);
        AcceptTraced(tr, s, r);
        ForeignCalls(s.log, Accept(tr, s, r).st.log, t);
        if !HasRunEnded(shorter, t) { AlikeForeign(tr, s, a, t, r); }
      }
    }
  }

  lemma AlikeInit(tr: Tracer, t: string)
    ensures var st := After(tr, []); Sound(st) && Alike(st, st, t) && Forgotten(st, t)
  {
    hide Sound;
    InitSound();
    assert Offers([]) == [];
  }

  lemma AlikeViews(s: State, a: State, t: string)
    requires Alike(s, a, t)
    ensures TraceView(s.log, t) == TraceView(a.log, t)
  {
  }

  /** Whatever other traces do, and however records interleave, the tracer sees of a
      self-contained trace exactly what it would see were that trace exported alone. */
  lemma {:induction false} TraceIsolation(tr: Tracer, rs: seq<Record>, t: string)
    requires NeverThrows(tr) && SelfContained(rs, t)
    ensures TraceView(After(tr, rs).log, t) == TraceView(After(tr, Only(rs, t)).log, t)
  {
    TraceIsolationAlike(tr, rs, t);
  }

  /** Exporting in any batches is one run over all the records. */
  function ExportBatches(tr: Tracer, st: State, batches: seq<seq<Record>>): State
    decreases |batches|
  {
    if batches == [] then st else ExportBatches(tr, Export(tr, st, batches[0]).st, batches[1..])
  }

  function Flatten(batches: seq<seq<Record>>): seq<Record>
    decreases |batches|
  {
    if batches == [] then [] else batches[0] + Flatten(batches[1..])
  }

  lemma {:induction false} ExecConcat(tr: Tracer, st: State, xs: seq<Command>, ys: seq<Command>)
    ensures Exec(tr, st, xs + ys) == Exec(tr, Exec(tr, st, xs), ys)
  {
    if ys == [] {
      assert xs + ys == xs;
    } else {
      ExecConcat(tr, st, xs, ys[..|ys| - 1]);
      assert (xs + ys)[..|xs + ys| - 1] == xs + ys[..|ys| - 1];
    }
  }

  lemma {:induction false} BatchingIsIrrelevant(tr: Tracer, st: State, batches: seq<seq<Record>>)
    requires NeverThrows(tr)
    ensures ExportBatches(tr, st, batches) == Exec(tr, st, Offers(Flatten(batches)))
    decreases |batches|
  {
    hide Export, Exec, Accept;
    if batches == [] {
      assert Exec(tr, st, Offers(Flatten(batches))) == st by { ExecNone(tr, st); }
    } else {
      var b, rest := batches[0], Flatten(batches[1..]);
      WholeBatch(tr, st, b);
      BatchingIsIrrelevant(tr, Export(tr, st, b).st, batches[1..]);
      assert Offers(b + rest) == Offers(b) + Offers(rest);
      ExecConcat(tr, st, Offers(b), Offers(rest));
    }
  }

  lemma ExecNone(tr: Tracer, st: State)
    ensures Exec(tr, st, []) == st
  {
  }

  lemma {:induction false} WholeBatch(tr: Tracer, st: State, b: seq<Record>)
    requires NeverThrows(tr)
    ensures Export(tr, st, b).st == Exec(tr, st, Offers(b))
  {
    hide Export, Exec, Accept;
    ExportCounts(tr, st, b);
    var x := Export(tr, st, b);
    if x.code != None { NeverThrowingAccepts(tr, Exec(tr, st, Offers(b[..x.exported])), b[x.exported]); }
  }
}
