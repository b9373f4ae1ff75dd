/** What each exporter operation does to the four indexes and to the tracer, as functions.
    `OtelExporter` proves its methods equal to these. */
module OtelSpec {
  import opened Collections
  import opened OtelRecords

  datatype Entry = Entry(span: Span, startMs: int, linkKeys: set<LinkKey>)

  datatype State = State(
    open: OrderedMap<Key, Entry>,
    contexts: map<Key, Span>,
    traceKeys: map<string, seq<Key>>,
    recents: OrderedMap<Key, Span>,
    created: nat,
    log: seq<Call>)

  const INIT := State(OrderedMap([], map[]), map[], map[], OrderedMap([], map[]), 0, [])

  const MAX_RECENT_ROOT_CONTEXTS := 256

  /** `ok` is false when the operation was left by an exception. */
  datatype Step = Step(st: State, ok: bool)

  function Invoke(tr: Tracer, st: State, op: Op): Step {
    var ok := !tr(|st.log|);
    Step(st.(log := st.log + [Call(op, ok)],
             created := if ok && op.StartSpan? then st.created + 1 else st.created), ok)
  }

  /** Calls made one after the other until one throws. */
  function InvokeAll(tr: Tracer, st: State, ops: seq<Op>): Step
    decreases |ops|
  {
    if ops == [] then Step(st, true)
    else
      var s := Invoke(tr, st, ops[0]);
      if s.ok then InvokeAll(tr, s.st, ops[1..]) else s
  }

  predicate Known(st: State, k: Key) {
    k in st.contexts || k in st.recents.items
  }

  function Resolve(st: State, l: Link): SentLink {
    SentLink(l, if l.target in st.contexts then Some(st.contexts[l.target])
                else if l.target in st.recents.items then Some(st.recents.items[l.target])
                else None)
  }

  function ParentSpan(st: State, r: Record): Option<Span>
    requires !r.SpanEvent?
  {
    var p := ParentKey(r);
    if p.Some? && p.value in st.contexts then Some(st.contexts[p.value]) else None
  }

  function StartOp(st: State, r: Record, incomplete: bool): Op
    requires !r.SpanEvent?
  {
    StartSpan(Span(st.created, r.key), r, incomplete, ParentSpan(st, r),
              seq(|r.links|, i requires 0 <= i < |r.links| => Resolve(st, r.links[i])))
  }

  function Register(st: State, k: Key, span: Span): State {
    var keys := if k.trace in st.traceKeys then st.traceKeys[k.trace] else [];
    st.(contexts := st.contexts[k := span],
        traceKeys := st.traceKeys[k.trace := if k in keys then keys else keys + [k]])
  }

  /** Create a span and enter it in the indexes; a throwing `startSpan` leaves them alone. */
  function Begin(tr: Tracer, st: State, r: Record, incomplete: bool): Step
    requires !r.SpanEvent?
  {
    var op := StartOp(st, r, incomplete);
    var s := Invoke(tr, st, op);
    if !s.ok then s
    else
      var st' := Register(s.st, r.key, op.span);
      Step(st'.(open := st'.open.Put(r.key, Entry(op.span, r.startMs, LinkKeys(r.links)))), true)
  }

  function Start(tr: Tracer, st: State, r: Record): Step
    requires r.SpanStart?
  {
    if r.key in st.open.items || Known(st, r.key) then Step(st, true)
    else Begin(tr, st, r, false)
  }

  function EventOps(entry: Entry, r: Record): seq<Op>
    requires r.SpanEvent?
  {
    [AddEvent(entry.span, r.payload, r.timestampMs)] +
    (if r.name == "first_chunk" then
       var wait := if r.timestampMs - entry.startMs > 0 then r.timestampMs - entry.startMs else 0;
       [SetAttributes(entry.span, FirstChunk(wait)), SetAttributes(entry.span, FirstChunkMs(wait))]
     else [])
  }

  function Event(tr: Tracer, st: State, r: Record): Step
    requires r.SpanEvent?
  {
    if r.key !in st.open.items then Step(st, true)
    else InvokeAll(tr, st, EventOps(st.open.items[r.key], r))
  }

  /** Send the links the span does not have yet, remembering each one that went through. */
  function AddEndLinks(tr: Tracer, st: State, k: Key, links: seq<Link>): Step
    requires k in st.open.items
    decreases |links|
  {
    if links == [] then Step(st, true)
    else
      var entry := st.open.items[k];
      if KeyOf(links[0]) in entry.linkKeys then AddEndLinks(tr, st, k, links[1..])
      else
        var s := Invoke(tr, st, AddLink(entry.span, Resolve(st, links[0])));
        if !s.ok then s
        else AddEndLinks(tr, WithLink(s.st, k, KeyOf(links[0])), k, links[1..])
  }

  function WithLink(st: State, k: Key, lk: LinkKey): State
    requires k in st.open.items
  {
    var entry := st.open.items[k];
    st.(open := st.open.Put(k, entry.(linkKeys := entry.linkKeys + {lk})))
  }

  function ClosingOps(span: Span, r: Record): seq<Op>
    requires r.SpanEnd?
  {
    [SetStatus(span, Mapped(r.status))] +
    (if r.error.Some? then
       [SetAttributes(span, OfError(r.error.value)), AddEvent(span, r.error.value, r.endMs)]
     else [])
  }

  /** Everything `end` sends before the final `span.end`. */
  function Describe(tr: Tracer, st: State, r: Record): Step
    requires r.SpanEnd? && r.key in st.open.items
  {
    var span := st.open.items[r.key].span;
    var s := Invoke(tr, st, SetAttributes(span, OfEnd(r)));
    if !s.ok then s
    else
      var s := AddEndLinks(tr, s.st, r.key, r.links);
      if !s.ok then s else InvokeAll(tr, s.st, ClosingOps(span, r))
  }

  function CleanupOps(span: Span, timeMs: int): seq<Op> {
    [SetAttributes(span, Incomplete), SetStatus(span, Unset), EndSpan(span, timeMs)]
  }

  /** End an open span as incomplete; a throwing tracer does not keep it open. */
  function FinalizeSpan(tr: Tracer, st: State, k: Key, timeMs: int): State
    requires k in st.open.items
  {
    var s := InvokeAll(tr, st, CleanupOps(st.open.items[k].span, timeMs)).st;
    s.(open := s.open.Remove(k))
  }

  function FinalizeKey(tr: Tracer, st: State, k: Key, timeMs: int): State {
    var s := if k in st.open.items then FinalizeSpan(tr, st, k, timeMs) else st;
    s.(contexts := s.contexts - {k})
  }

  function FinalizeKeys(tr: Tracer, st: State, keys: seq<Key>, timeMs: int): State
    decreases |keys|
  {
    if keys == [] then st
    else FinalizeKeys(tr, FinalizeKey(tr, st, keys[0], timeMs), keys[1..], timeMs)
  }

  function FinalizeTrace(tr: Tracer, st: State, trace: string, timeMs: int): State {
    if trace !in st.traceKeys then st
    else
      var s := FinalizeKeys(tr, st, st.traceKeys[trace], timeMs);
      s.(traceKeys := s.traceKeys - {trace})
  }

  function Evict(m: OrderedMap<Key, Span>): OrderedMap<Key, Span>
    decreases |m.order|
  {
    if |m.order| > MAX_RECENT_ROOT_CONTEXTS then
      Evict(OrderedMap(m.order[1..], m.items - {m.order[0]}))
    else m
  }

  function Remember(m: OrderedMap<Key, Span>, k: Key, span: Span): OrderedMap<Key, Span> {
    Evict(m.Remove(k).Put(k, span))
  }

  /** What `end` does once `span.end` has returned. */
  function Close(tr: Tracer, st: State, r: Record): State
    requires r.SpanEnd?
  {
    var st := st.(open := st.open.Remove(r.key));
    if r.kind != RunSpan then st
    else
      var st := if r.key in st.contexts
                then st.(recents := Remember(st.recents, r.key, st.contexts[r.key])) else st;
      FinalizeTrace(tr, st, r.key.trace, r.endMs)
  }

  /** `end` for a span that is open. */
  function Conclude(tr: Tracer, st: State, r: Record): Step
    requires r.SpanEnd? && r.key in st.open.items
  {
    var span := st.open.items[r.key].span;
    var s := Describe(tr, st, r);
    if !s.ok then s
    else
      var s := Invoke(tr, s.st, EndSpan(span, r.endMs));
      if !s.ok then s else Step(Close(tr, s.st, r), true)
  }

  function End(tr: Tracer, st: State, r: Record): Step
    requires r.SpanEnd?
  {
    if r.key in st.open.items then Conclude(tr, st, r)
    else if Known(st, r.key) then Step(st, true)
    else
      var s := Begin(tr, st, r, true);
      if !s.ok then s else Conclude(tr, s.st, r)
  }

  function Accept(tr: Tracer, st: State, r: Record): Step {
    match r
    case SpanStart(_, _, _, _, _, _) => Start(tr, st, r)
    case SpanEvent(_, _, _, _) => Event(tr, st, r)
    case SpanEnd(_, _, _, _, _, _, _, _, _) => End(tr, st, r)
  }

  datatype ExportOutcome = ExportOutcome(st: State, exported: nat, code: Option<string>)

  function FailureCode(r: Record): string {
    match r
    case SpanStart(_, _, _, _, _, _) => "OTEL_SPAN_START_FAILED"
    case SpanEvent(_, _, _, _) => "OTEL_SPAN_EVENT_FAILED"
    case SpanEnd(_, _, _, _, _, _, _, _, _) => "OTEL_SPAN_END_FAILED"
  }

  /** Records are accepted in order; the first one that throws stops the batch. */
  function Export(tr: Tracer, st: State, records: seq<Record>): ExportOutcome
    decreases |records|
  {
    if records == [] then ExportOutcome(st, 0, None)
    else
      var s := Accept(tr, st, records[0]);
      if !s.ok then ExportOutcome(s.st, 0, Some(FailureCode(records[0])))
      else
        var rest := Export(tr, s.st, records[1..]);
        rest.(exported := rest.exported + 1)
  }

  /** Every open span in insertion order. */
  function FinalizeAll(tr: Tracer, st: State, keys: seq<Key>, timeMs: int): State
    decreases |keys|
  {
    if keys == [] then st
    else
      FinalizeAll(tr, if keys[0] in st.open.items then FinalizeSpan(tr, st, keys[0], timeMs) else st,
                  keys[1..], timeMs)
  }

  function Shutdown(tr: Tracer, st: State, timeMs: int): State {
    var s := FinalizeAll(tr, st, st.open.order, timeMs);
    s.(open := INIT.open, contexts := map[], traceKeys := map[], recents := INIT.recents)
  }
}
