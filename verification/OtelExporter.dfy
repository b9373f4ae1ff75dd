/** The exporter object: its four indexes updated in place, each method equal to its
    specification in `OtelSpec`. The tracer is represented by the calls it has received and
    by which of them throw. */
module OtelExporter {
  import opened Collections
  import opened OtelRecords
  import opened OtelSpec
  import opened OtelInvariants

  class OTelTraceExporter {
    const tracer: Tracer
    var calls: seq<Call>
    var created: nat
    var openSpans: OrderedMap<Key, Entry>
    var spanContexts: map<Key, Span>
    var traceSpanKeys: map<string, seq<Key>>
    var recentRootContexts: OrderedMap<Key, Span>

    function Abs(): State
      reads this
    {
      State(openSpans, spanContexts, traceSpanKeys, recentRootContexts, created, calls)
    }

    constructor (tracer: Tracer)
      ensures this.tracer == tracer && Abs() == INIT && Sound(Abs())
    {
      this.tracer := tracer;
      calls, created := [], 0;
      openSpans, spanContexts := OrderedMap([], map[]), map[];
      traceSpanKeys, recentRootContexts := map[], OrderedMap([], map[]);
      new;
      InitSound();
    }

    /** One call on the tracer or on one of its spans. */
    method Invoke(op: Op) returns (ok: bool)
      modifies this
      ensures Step(Abs(), ok) == OtelSpec.Invoke(tracer, old(Abs()), op)
    {
      ok := !tracer(|calls|);
      calls := calls + [Call(op, ok)];
      if ok && op.StartSpan? { created := created + 1; }
    }

    method InvokeAll(ops: seq<Op>) returns (ok: bool)
      modifies this
      ensures Step(Abs(), ok) == OtelSpec.InvokeAll(tracer, old(Abs()), ops)
    {
      ok := true;
      var i := 0;
      while i < |ops|
        invariant 0 <= i <= |ops| && ok
        invariant OtelSpec.InvokeAll(tracer, Abs(), ops[i..]) == OtelSpec.InvokeAll(tracer, old(Abs()), ops)
      {
        ok := Invoke(ops[i]);
        if !ok { return; }
        i := i + 1;
      }
    }

    method Export(records: seq<Record>) returns (exported: nat, code: Option<string>)
      modifies this
      ensures ExportOutcome(Abs(), exported, code) == OtelSpec.Export(tracer, old(Abs()), records)
      ensures old(Sound(Abs())) ==> Sound(Abs())
    {
      exported, code := 0, None;
      ghost var start := Abs();
      while exported < |records|
        invariant exported <= |records| && code == None
        invariant var rest := OtelSpec.Export(tracer, Abs(), records[exported..]);
                  OtelSpec.Export(tracer, start, records) == rest.(exported := rest.exported + exported)
        invariant Sound(start) ==> Sound(Abs())
      {
        ghost var before := Abs();
        var ok := Accept(records[exported]);
        if Sound(before) { AcceptKeeps(tracer, before, records[exported]); }
        if !ok {
          code := Some(FailureCode(records[exported]));
          return;
        }
        exported := exported + 1;
      }
    }

    method Accept(r: Record) returns (ok: bool)
      modifies this
      ensures Step(Abs(), ok) == OtelSpec.Accept(tracer, old(Abs()), r)
    {
      match r
      case SpanStart(_, _, _, _, _, _) => ok := Start(r);
      case SpanEvent(_, _, _, _) => ok := Event(r);
      case SpanEnd(_, _, _, _, _, _, _, _, _) => ok := End(r);
    }

    method Start(r: Record) returns (ok: bool)
      requires r.SpanStart?
      modifies this
      ensures Step(Abs(), ok) == OtelSpec.Start(tracer, old(Abs()), r)
    {
      if r.key in openSpans.items || r.key in spanContexts || r.key in recentRootContexts.items {
        return true;
      }
      ok := Begin(r, false);
    }

    /** `createSpan`, then entering the span in the indexes. */
    method Begin(r: Record, incomplete: bool) returns (ok: bool)
      requires !r.SpanEvent?
      modifies this
      ensures Step(Abs(), ok) == OtelSpec.Begin(tracer, old(Abs()), r, incomplete)
    {
      var op := StartOp(Abs(), r, incomplete);
      ok := Invoke(op);
      if ok {
        RegisterSpanContext(r.key, op.span);
        openSpans := openSpans.Put(r.key, Entry(op.span, r.startMs, LinkKeys(r.links)));
      }
    }

    method RegisterSpanContext(k: Key, span: Span)
      modifies this
      ensures Abs() == Register(old(Abs()), k, span)
    {
      spanContexts := spanContexts[k := span];
      var keys := [];
      if k.trace in traceSpanKeys { keys := traceSpanKeys[k.trace]; }
      if k !in keys { keys := keys + [k]; }
      traceSpanKeys := traceSpanKeys[k.trace := keys];
    }

    method Event(r: Record) returns (ok: bool)
      requires r.SpanEvent?
      modifies this
      ensures Step(Abs(), ok) == OtelSpec.Event(tracer, old(Abs()), r)
    {
      if r.key !in openSpans.items { return true; }
      ok := InvokeAll(EventOps(openSpans.items[r.key], r));
    }

    method AddEndLinks(k: Key, links: seq<Link>) returns (ok: bool)
      requires k in openSpans.items
      modifies this
      ensures Step(Abs(), ok) == OtelSpec.AddEndLinks(tracer, old(Abs()), k, links)
    {
      ok := true;
      var i := 0;
      while i < |links|
        invariant 0 <= i <= |links| && ok && k in openSpans.items
        invariant OtelSpec.AddEndLinks(tracer, Abs(), k, links[i..])
            == OtelSpec.AddEndLinks(tracer, old(Abs()), k, links)
      {
        var entry := openSpans.items[k];
        if KeyOf(links[i]) !in entry.linkKeys {
          ok := Invoke(AddLink(entry.span, Resolve(Abs(), links[i])));
          if !ok { return; }
          openSpans := openSpans.Put(k, entry.(linkKeys := entry.linkKeys + {KeyOf(links[i])}));
        }
        i := i + 1;
      }
    }

    method End(r: Record) returns (ok: bool)
      requires r.SpanEnd?
      modifies this
      ensures Step(Abs(), ok) == OtelSpec.End(tracer, old(Abs()), r)
    {
      if r.key !in openSpans.items {
        if r.key in spanContexts || r.key in recentRootContexts.items { return true; }
        ok := Begin(r, true);
        if !ok { return; }
      }
      var span := openSpans.items[r.key].span;
      ok := Invoke(SetAttributes(span, OfEnd(r)));
      if !ok { return; }
      ok := AddEndLinks(r.key, r.links);
      if !ok { return; }
      ok := InvokeAll(ClosingOps(span, r));
      if !ok { return; }
      ok := Invoke(EndSpan(span, r.endMs));
      if !ok { return; }
      openSpans := openSpans.Remove(r.key);
      if r.kind == RunSpan {
        if r.key in spanContexts { RememberRootContext(r.key, spanContexts[r.key]); }
        FinalizeTrace(r.key.trace, r.endMs);
      }
    }

    method RememberRootContext(k: Key, span: Span)
      modifies this
      ensures Abs() == old(Abs()).(recents := Remember(old(recentRootContexts), k, span))
    {
      recentRootContexts := recentRootContexts.Remove(k);
      recentRootContexts := recentRootContexts.Put(k, span);
      ghost var full := recentRootContexts;
      while |recentRootContexts.order| > MAX_RECENT_ROOT_CONTEXTS
        invariant Evict(recentRootContexts) == Evict(full)
        invariant Abs() == old(Abs()).(recents := recentRootContexts)
        decreases |recentRootContexts.order|
      {
        var oldest := recentRootContexts.order[0];
        recentRootContexts := OrderedMap(recentRootContexts.order[1..], recentRootContexts.items - {oldest});
      }
    }

    method FinalizeTrace(trace: string, timeMs: int)
      modifies this
      ensures Abs() == OtelSpec.FinalizeTrace(tracer, old(Abs()), trace, timeMs)
    {
      if trace !in traceSpanKeys { return; }
      var keys := traceSpanKeys[trace];
      var i := 0;
      while i < |keys|
        invariant 0 <= i <= |keys|
        invariant FinalizeKeys(tracer, Abs(), keys[i..], timeMs) == FinalizeKeys(tracer, old(Abs()), keys, timeMs)
      {
        if keys[i] in openSpans.items { FinalizeIncompleteSpan(keys[i], timeMs); }
        spanContexts := spanContexts - {keys[i]};
        i := i + 1;
      }
      traceSpanKeys := traceSpanKeys - {trace};
    }

    method FinalizeIncompleteSpan(k: Key, timeMs: int)
      requires k in openSpans.items
      modifies this
      ensures Abs() == FinalizeSpan(tracer, old(Abs()), k, timeMs)
    {
      var swallowed := InvokeAll(CleanupOps(openSpans.items[k].span, timeMs));
      openSpans := openSpans.Remove(k);
    }

    method FinalizeAllOpenSpans(timeMs: int)
      modifies this
      ensures Abs() == FinalizeAll(tracer, old(Abs()), old(openSpans).order, timeMs).(open := INIT.open)
    {
      var keys := openSpans.order;
      var i := 0;
      while i < |keys|
        invariant 0 <= i <= |keys|
        invariant FinalizeAll(tracer, Abs(), keys[i..], timeMs) == FinalizeAll(tracer, old(Abs()), keys, timeMs)
      {
        if keys[i] in openSpans.items { FinalizeIncompleteSpan(keys[i], timeMs); }
        i := i + 1;
      }
      openSpans := OrderedMap([], map[]);
    }

    method Shutdown(nowMs: int)
      modifies this
      ensures Abs() == OtelSpec.Shutdown(tracer, old(Abs()), nowMs)
      ensures old(Sound(Abs())) ==> Sound(Abs())
    {
      ghost var before := Abs();
      FinalizeAllOpenSpans(nowMs);
      spanContexts := map[];
      traceSpanKeys := map[];
      recentRootContexts := OrderedMap([], map[]);
      if Sound(before) { ShutdownEndsAll(tracer, before, nowMs); }
    }
  }
}
