/** The records the exporter consumes and the calls it makes on a tracer. */
module OtelRecords {
  import opened Collections

  /** The identity `traceId/spanId` of an OMA span, kept as a pair (see `SpanKeyTextInjective`). */
  datatype Key = Key(trace: string, span: string)

  function SpanKeyText(k: Key): string {
    k.trace + "/" + k.span
  }

  lemma FirstSlash(head: string, tail: string)
    requires '/' !in head
    ensures var s := head + "/" + tail;
            && s[|head|] == '/' && (forall i :: 0 <= i < |head| ==> s[i] != '/')
            && s[..|head|] == head && s[|head| + 1..] == tail
  {
  }

  lemma SlashSplit(h0: string, t0: string, h1: string, t1: string)
    requires '/' !in h0 && '/' !in h1
    ensures h0 + "/" + t0 == h1 + "/" + t1 <==> h0 == h1 && t0 == t1
  {
    var s := h0 + "/" + t0;
    if s == h1 + "/" + t1 {
      FirstSlash(h0, t0);
      FirstSlash(h1, t1);
    }
  }

  /** Pairs may stand for the concatenated text exactly because trace ids hold no slash. */
  lemma SpanKeyTextInjective(a: Key, b: Key)
    requires '/' !in a.trace && '/' !in b.trace
    ensures SpanKeyText(a) == SpanKeyText(b) <==> a == b
  {
    SlashSplit(a.trace, a.span, b.trace, b.span);
  }

  /** With a slash inside a trace id two different spans share one text key. */
  /** Two different trace ids can share the text of a key exactly when one is the other up to a
      slash. */
  lemma SlashedTraceIdsCollide(t: string, u: string)
    requires t != u
    ensures (exists x, y :: SpanKeyText(Key(t, x)) == SpanKeyText(Key(u, y))) <==> t + "/" <= u || u + "/" <= t
  {
    if x, y :| SpanKeyText(Key(t, x)) == SpanKeyText(Key(u, y)) {
      if |t| <= |u| { SlashOverlap(t, x, u, y); } else { SlashOverlap(u, y, t, x); }
    }
    if t + "/" <= u { SlashShared(t, u); }
    if u + "/" <= t { SlashShared(u, t); }
  }

  lemma SlashOverlap(t: string, x: string, u: string, y: string)
    requires t != u && |t| <= |u| && t + "/" + x == u + "/" + y
    ensures t + "/" <= u
  {
    assert (t + "/" + x)[..|t|] == t && (u + "/" + y)[..|t|] == u[..|t|];
    if |t| < |u| {
      assert (t + "/" + x)[|t|] == '/' && (u + "/" + y)[|t|] == u[|t|];
    }
  }

  lemma SlashShared(t: string, u: string)
    requires t + "/" <= u
    ensures exists x, y :: SpanKeyText(Key(t, x)) == SpanKeyText(Key(u, y))
    ensures exists x, y :: SpanKeyText(Key(u, x)) == SpanKeyText(Key(t, y))
  {
    var x := u[|t| + 1..] + "/";
    assert u == t + "/" + u[|t| + 1..];
    assert SpanKeyText(Key(t, x)) == SpanKeyText(Key(u, "")) by { assert t + "/" + x == u + "/" + ""; }
  }

  /** Whatever the exporter only copies (attribute bags, names, status text). */
  type Payload = int

  datatype Link = Link(target: Key, relation: string, payload: Payload)
  datatype LinkKey = LinkKey(target: Key, relation: string)

  function LinkKeyText(k: LinkKey): string {
    SpanKeyText(k.target) + "/" + k.relation
  }

  lemma LinkKeyTextInjective(a: LinkKey, b: LinkKey)
    requires '/' !in a.target.trace && '/' !in b.target.trace
    requires '/' !in a.target.span && '/' !in b.target.span
    ensures LinkKeyText(a) == LinkKeyText(b) <==> a == b
  {
    var u, v := a.target.span + "/" + a.relation, b.target.span + "/" + b.relation;
    assert LinkKeyText(a) == a.target.trace + "/" + u;
    assert LinkKeyText(b) == b.target.trace + "/" + v;
    SlashSplit(a.target.trace, u, b.target.trace, v);
    SlashSplit(a.target.span, a.relation, b.target.span, b.relation);
  }

  function KeyOf(l: Link): LinkKey {
    LinkKey(l.target, l.relation)
  }

  function LinkKeys(ls: seq<Link>): set<LinkKey> {
    set l | l in ls :: KeyOf(l)
  }

  datatype SpanKind = RunSpan | OtherSpan

  datatype Record =
    | SpanStart(key: Key, parentSpanId: Option<string>, kind: SpanKind, startMs: int,
                links: seq<Link>, payload: Payload)
    | SpanEvent(key: Key, name: string, timestampMs: int, payload: Payload)
    | SpanEnd(key: Key, parentSpanId: Option<string>, kind: SpanKind, startMs: int, endMs: int,
              status: Payload, error: Option<Payload>, links: seq<Link>, payload: Payload)

  /** The key of the parent a record names; an empty parent id counts as none. */
  function ParentKey(r: Record): Option<Key>
    requires !r.SpanEvent?
  {
    if r.parentSpanId.Some? && r.parentSpanId.value != ""
    then Some(Key(r.key.trace, r.parentSpanId.value)) else None
  }

  predicate IsRunEnd(r: Record) {
    r.SpanEnd? && r.kind == RunSpan
  }

  /** A span handle: the number of the `startSpan` call that returned it, and the key of the
      record it was started for. It also stands for the span's context. */
  datatype Span = Span(id: nat, key: Key)

  /** A link as handed to the tracer, with the context it was resolved to, if any. */
  datatype SentLink = SentLink(link: Link, context: Option<Span>)

  datatype Attributes =
    | OfEnd(record: Record)
    | OfError(error: Payload)
    | FirstChunk(milliseconds: int)
    | FirstChunkMs(milliseconds: int)
    | Incomplete

  datatype Status = Unset | Mapped(status: Payload)

  datatype Op =
    | StartSpan(span: Span, record: Record, incomplete: bool, parent: Option<Span>, links: seq<SentLink>)
    | AddEvent(span: Span, payload: Payload, timeMs: int)
    | SetAttributes(span: Span, attributes: Attributes)
    | AddLink(span: Span, sent: SentLink)
    | SetStatus(span: Span, status: Status)
    | EndSpan(span: Span, timeMs: int)

  /** One attempted tracer call; `ok` is false when it threw. */
  datatype Call = Call(op: Op, ok: bool)

  /** A tracer, as far as the exporter can tell: which of its attempted calls throw. */
  type Tracer = nat -> bool

  ghost predicate NeverThrows(tr: Tracer) {
    forall i :: !tr(i)
  }
}
