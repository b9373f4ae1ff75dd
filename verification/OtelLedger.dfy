/** The tracer's own view of the calls it received, and the law those calls obey. */
module OtelLedger {
  import opened Collections
  import opened OtelRecords
  import opened OtelSpec

  /** What became of one span: the record it was started from, the links it carries, whether
      `end` returned for it, whether cleanup marked it incomplete, and whether a cleanup call
      threw. */
  datatype SpanView = SpanView(span: Span, record: Record, parent: Option<Span>, links: set<LinkKey>,
                               ended: bool, marked: bool, lost: bool)
  {
    predicate Closed() { ended || lost }
  }

  function SentKeys(links: seq<SentLink>): set<LinkKey> {
    set s | s in links :: KeyOf(s.link)
  }

  function Touch(v: SpanView, c: Call): SpanView
    requires !c.op.StartSpan?
  {
    var marked := v.marked || (c.op.SetAttributes? && c.op.attributes.Incomplete?);
    v.(links := if c.ok && c.op.AddLink? then v.links + {KeyOf(c.op.sent.link)} else v.links,
       ended := v.ended || (c.ok && c.op.EndSpan?),
       marked := marked,
       lost := v.lost || (marked && !c.ok))
  }

  function Apply(spans: seq<SpanView>, c: Call): seq<SpanView> {
    if c.op.StartSpan? then
      if c.ok
      then spans + [SpanView(c.op.span, c.op.record, c.op.parent, SentKeys(c.op.links), false, false, false)]
      else spans
    else if c.op.span.id < |spans| then spans[c.op.span.id := Touch(spans[c.op.span.id], c)]
    else spans
  }

  /** All spans the tracer returned so far, in creation order. */
  function Replay(log: seq<Call>): seq<SpanView> {
    if log == [] then [] else Apply(Replay(log[..|log| - 1]), log[|log| - 1])
  }

  predicate Issued(spans: seq<SpanView>, s: Span) {
    s.id < |spans| && spans[s.id].span == s
  }

  /** A link that carries a context carries that of a span created before under the key the
      link names. */
  predicate Aimed(spans: seq<SpanView>, s: SentLink) {
    s.context.Some? ==> Issued(spans, s.context.value) && s.context.value.key == s.link.target
  }

  /** A call is lawful when it concerns a span that is still alive, its parent was created
      before under the parent key its record names, and its links are aimed and new to the
      span. */
  predicate Legal(spans: seq<SpanView>, c: Call) {
    if c.op.StartSpan? then
      && c.op.span.id == |spans|
      && !c.op.record.SpanEvent? && c.op.record.key == c.op.span.key
      && (c.op.parent.Some? ==>
            Issued(spans, c.op.parent.value) && ParentKey(c.op.record) == Some(c.op.parent.value.key))
      && (forall s :: s in c.op.links ==> Aimed(spans, s))
    else
      && Issued(spans, c.op.span)
      && !spans[c.op.span.id].Closed()
      && (c.op.AddLink? ==> KeyOf(c.op.sent.link) !in spans[c.op.span.id].links && Aimed(spans, c.op.sent))
  }

  predicate Lawful(log: seq<Call>) {
    log == [] || (Lawful(log[..|log| - 1]) && Legal(Replay(log[..|log| - 1]), log[|log| - 1]))
  }

  /** The calls and the open-span index tell the same story: the spans still alive are
      exactly the indexed ones, with the link keys and the start time the index remembers. */
  ghost predicate OpenIn(st: State, spans: seq<SpanView>, k: Key)
    requires k in st.open.items
  {
    var e := st.open.items[k];
    && e.span.key == k
    && Issued(spans, e.span)
    && !spans[e.span.id].Closed()
    && !spans[e.span.id].marked
    && spans[e.span.id].links == e.linkKeys
    && !spans[e.span.id].record.SpanEvent? && spans[e.span.id].record.startMs == e.startMs
  }

  ghost predicate Alive(st: State, v: SpanView) {
    v.span.key in st.open.items && st.open.items[v.span.key].span == v.span
  }

  ghost predicate Ledger(st: State) {
    var spans := Replay(st.log);
    && Lawful(st.log)
    && st.created == |spans|
    && st.open.Valid()
    && (forall k :: k in st.open.items ==> OpenIn(st, spans, k))
    && (forall n :: 0 <= n < |spans| ==>
          spans[n].span.id == n && (!spans[n].Closed() ==> Alive(st, spans[n])))
  }

  /** Every remembered context is a span the tracer returned for that very key. */
  ghost predicate Anchored(st: State) {
    var spans := Replay(st.log);
    && (forall k :: k in st.contexts ==> Issued(spans, st.contexts[k]) && st.contexts[k].key == k)
    && (forall k :: k in st.recents.items ==> Issued(spans, st.recents.items[k]) && st.recents.items[k].key == k)
    && (forall k :: k in st.open.items && k in st.contexts ==> st.open.items[k].span == st.contexts[k])
  }

  lemma AppendCall(log: seq<Call>, c: Call)
    ensures Replay(log + [c]) == Apply(Replay(log), c)
    ensures Lawful(log + [c]) == (Lawful(log) && Legal(Replay(log), c))
  {
  }

  /** A call that neither creates, links, ends nor marks leaves the tracer's view alone. */
  predicate Plain(op: Op) {
    op.AddEvent? || op.SetStatus? || (op.SetAttributes? && !op.attributes.Incomplete?)
  }

  lemma {:induction false} PlainCalls(tr: Tracer, st: State, k: Key, ops: seq<Op>)
    requires Ledger(st) && k in st.open.items
    requires forall op :: op in ops ==> Plain(op) && op.span == st.open.items[k].span
    ensures var s := InvokeAll(tr, st, ops);
            s.st == st.(log := s.st.log) && Replay(s.st.log) == Replay(st.log) && Ledger(s.st)
    decreases |ops|
  {
    if ops != [] {
      var s := Invoke(tr, st, ops[0]);
      AppendCall(st.log, Call(ops[0], s.ok));
      assert OpenIn(st, Replay(st.log), k);
      assert Replay(s.st.log) == Replay(st.log);
      forall j | j in st.open.items ensures OpenIn(s.st, Replay(s.st.log), j) {
        assert OpenIn(st, Replay(st.log), j);
      }
      if s.ok {
        PlainCalls(tr, s.st, k, ops[1..]);
      }
    }
  }

  /** Only the link keys of `k`'s entry, and the links of its span, may differ. */
  ghost predicate LinksOnly(st: State, st': State, k: Key)
    requires k in st.open.items
  {
    && k in st'.open.items
    && var e, e' := st.open.items[k], st'.open.items[k];
       && e' == e.(linkKeys := e'.linkKeys)
       && e.linkKeys <= e'.linkKeys
       && st' == st.(open := OrderedMap(st.open.order, st.open.items[k := e']), log := st'.log)
       && Issued(Replay(st.log), e.span)
       && Replay(st'.log) == Replay(st.log)[e.span.id := Replay(st.log)[e.span.id].(links := e'.linkKeys)]
  }

  lemma LinksOnlyKeepsLedger(st: State, st': State, k: Key)
    requires Ledger(st) && k in st.open.items && LinksOnly(st, st', k) && Lawful(st'.log)
    ensures Ledger(st')
  {
    var spans, spans' := Replay(st.log), Replay(st'.log);
    assert OpenIn(st, spans, k);
    forall j | j in st'.open.items ensures OpenIn(st', spans', j) {
      assert OpenIn(st, spans, j);
    }
    forall n | 0 <= n < |spans'|
      ensures spans'[n].span.id == n && (!spans'[n].Closed() ==> Alive(st', spans'[n]))
    {
      assert !spans[n].Closed() ==> Alive(st, spans[n]);
    }
  }

  /** What a step of `end` before `span.end` guarantees. */
  ghost predicate Described(st: State, st': State, k: Key, added: set<LinkKey>) {
    && k in st.open.items && k in st'.open.items
    && LinksOnly(st, st', k) && Ledger(st')
    && st'.open.items[k].span == st.open.items[k].span
    && st'.open.items[k].linkKeys == st.open.items[k].linkKeys + added
  }

  lemma DescribedSelf(st: State, k: Key)
    requires Ledger(st) && k in st.open.items
    ensures Described(st, st, k, {})
  {
  }

  lemma DescribedTrans(a: State, b: State, c: State, k: Key, added0: set<LinkKey>, added1: set<LinkKey>)
    requires Described(a, b, k, added0) && Described(b, c, k, added1)
    ensures Described(a, c, k, added0 + added1)
  {
    assert a.open.items[k := c.open.items[k]] == c.open.items;
  }

  lemma AnchoredStays(st: State, st': State, k: Key, added: set<LinkKey>)
    requires Anchored(st) && Described(st, st', k, added)
    ensures Anchored(st')
  {
  }

  lemma ResolvedIsAimed(st: State, l: Link)
    requires Anchored(st)
    ensures Aimed(Replay(st.log), Resolve(st, l))
  {
  }

  lemma DescribedOneLink(tr: Tracer, st: State, k: Key, l: Link)
    requires Ledger(st) && Anchored(st) && k in st.open.items && KeyOf(l) !in st.open.items[k].linkKeys
    ensures var s := Invoke(tr, st, AddLink(st.open.items[k].span, Resolve(st, l)));
            if s.ok then k in s.st.open.items && Described(st, WithLink(s.st, k, KeyOf(l)), k, {KeyOf(l)})
            else Described(st, s.st, k, {})
  {
    var e := st.open.items[k];
    var op := AddLink(e.span, Resolve(st, l));
    var s := Invoke(tr, st, op);
    ResolvedIsAimed(st, l);
    AppendCall(st.log, Call(op, s.ok));
    assert OpenIn(st, Replay(st.log), k);
    var st' := if s.ok then WithLink(s.st, k, KeyOf(l)) else s.st;
    assert LinksOnly(st, st', k) by { assert st.open.items[k := st'.open.items[k]] == st'.open.items; }
    LinksOnlyKeepsLedger(st, st', k);
  }

  lemma DescribedPlain(tr: Tracer, st: State, k: Key, ops: seq<Op>)
    requires Ledger(st) && k in st.open.items
    requires forall op :: op in ops ==> Plain(op) && op.span == st.open.items[k].span
    ensures Described(st, InvokeAll(tr, st, ops).st, k, {})
  {
    PlainCalls(tr, st, k, ops);
    DescribedSelf(st, k);
  }

  lemma {:induction false} EndLinks(tr: Tracer, st: State, k: Key, links: seq<Link>)
    requires Ledger(st) && Anchored(st) && k in st.open.items
    ensures var s := AddEndLinks(tr, st, k, links);
            && (s.ok ==> Described(st, s.st, k, LinkKeys(links)))
            && (exists added :: added <= LinkKeys(links) && Described(st, s.st, k, added))
    decreases |links|
  {
    hide Ledger, Anchored, Invoke, WithLink, LinksOnly;
    DescribedSelf(st, k);
    if links != [] {
      var lk := KeyOf(links[0]);
      assert LinkKeys(links) == {lk} + LinkKeys(links[1..]) by {
        assert links == [links[0]] + links[1..];
      }
      if lk in st.open.items[k].linkKeys {
        EndLinks(tr, st, k, links[1..]);
        var s := AddEndLinks(tr, st, k, links[1..]);
        assert st.open.items[k].linkKeys + LinkKeys(links) == st.open.items[k].linkKeys + LinkKeys(links[1..]);
      } else {
        var s := Invoke(tr, st, AddLink(st.open.items[k].span, Resolve(st, links[0])));
        DescribedOneLink(tr, st, k, links[0]);
        if s.ok {
          var st' := WithLink(s.st, k, lk);
          AnchoredStays(st, st', k, {lk});
          EndLinks(tr, st', k, links[1..]);
          var s2 := AddEndLinks(tr, st', k, links[1..]);
          var added :| added <= LinkKeys(links[1..]) && Described(st', s2.st, k, added);
          DescribedTrans(st, st', s2.st, k, {lk}, added);
          if s2.ok { DescribedTrans(st, st', s2.st, k, {lk}, LinkKeys(links[1..])); }
        }
      }
    }
  }

  /** All of `end` before `span.end` touches the indexes only through link keys. */
  lemma DescribeKeeps(tr: Tracer, st: State, r: Record)
    requires r.SpanEnd? && Ledger(st) && Anchored(st) && r.key in st.open.items
    ensures var s := Describe(tr, st, r);
            && (s.ok ==> Described(st, s.st, r.key, LinkKeys(r.links)))
            && (exists added :: added <= LinkKeys(r.links) && Described(st, s.st, r.key, added))
  {
    hide Ledger, Anchored, Invoke, LinksOnly;
    var k, span := r.key, st.open.items[r.key].span;
    var op := SetAttributes(span, OfEnd(r));
    var s := Invoke(tr, st, op);
    assert s == InvokeAll(tr, st, [op]) by { OneCall(tr, st, op); }
    DescribedPlain(tr, st, k, [op]);
    if s.ok {
      AnchoredStays(st, s.st, k, {});
      EndLinks(tr, s.st, k, r.links);
      var s2 := AddEndLinks(tr, s.st, k, r.links);
      var added :| added <= LinkKeys(r.links) && Described(s.st, s2.st, k, added);
      DescribedTrans(st, s.st, s2.st, k, {}, added);
      if s2.ok {
        DescribedTrans(st, s.st, s2.st, k, {}, LinkKeys(r.links));
        DescribedPlain(tr, s2.st, k, ClosingOps(span, r));
        DescribedTrans(st, s2.st, InvokeAll(tr, s2.st, ClosingOps(span, r)).st, k, {} + LinkKeys(r.links), {});
        assert {} + LinkKeys(r.links) + {} == LinkKeys(r.links);
      }
    }
  }

  lemma OneCall(tr: Tracer, st: State, op: Op)
    ensures InvokeAll(tr, st, [op]) == Invoke(tr, st, op)
  {
  }

  /** One span leaves the open index and is closed for the tracer; nothing else moves. */
  ghost predicate Retired(st: State, st': State, k: Key)
    requires k in st.open.items
  {
    && st' == st.(open := st.open.Remove(k), log := st'.log)
    && var n, spans, spans' := st.open.items[k].span.id, Replay(st.log), Replay(st'.log);
       && n < |spans| && |spans'| == |spans|
       && spans' == spans[n := spans'[n]]
       && spans'[n].Closed()
       && spans'[n] == spans[n].(ended := spans'[n].ended, marked := spans'[n].marked, lost := spans'[n].lost)
  }

  lemma RetiredKeepsLedger(st: State, st': State, k: Key)
    requires Ledger(st) && k in st.open.items && Retired(st, st', k) && Lawful(st'.log)
    ensures Ledger(st')
  {
    var spans, spans' := Replay(st.log), Replay(st'.log);
    assert OpenIn(st, spans, k);
    forall j | j in st'.open.items ensures OpenIn(st', spans', j) {
      assert OpenIn(st, spans, j);
    }
    forall n | 0 <= n < |spans'|
      ensures spans'[n].span.id == n && (!spans'[n].Closed() ==> Alive(st', spans'[n]))
    {
      assert !spans[n].Closed() ==> Alive(st, spans[n]);
    }
  }

  lemma FinalEnd(tr: Tracer, st: State, k: Key, timeMs: int)
    requires Ledger(st) && k in st.open.items
    ensures var s := Invoke(tr, st, EndSpan(st.open.items[k].span, timeMs));
            if s.ok then
              var st' := s.st.(open := s.st.open.Remove(k));
              Retired(st, st', k) && Ledger(st') && Replay(st'.log)[st.open.items[k].span.id].ended
            else s.st == st.(log := s.st.log) && Replay(s.st.log) == Replay(st.log) && Ledger(s.st)
  {
    var op := EndSpan(st.open.items[k].span, timeMs);
    var s := Invoke(tr, st, op);
    assert OpenIn(st, Replay(st.log), k);
    AppendCall(st.log, Call(op, s.ok));
    if s.ok {
      RetiredKeepsLedger(st, s.st.(open := s.st.open.Remove(k)), k);
    } else {
      assert Replay(s.st.log) == Replay(st.log);
      forall j | j in st.open.items ensures OpenIn(s.st, Replay(s.st.log), j) {
        assert OpenIn(st, Replay(st.log), j);
      }
    }
  }

  lemma OneTouch(tr: Tracer, st: State, op: Op)
    requires !op.StartSpan? && !op.AddLink?
    requires Lawful(st.log) && Issued(Replay(st.log), op.span) && !Replay(st.log)[op.span.id].Closed()
    ensures var s, spans := Invoke(tr, st, op), Replay(st.log);
            && s.st == st.(log := s.st.log) && Lawful(s.st.log)
            && Replay(s.st.log) == spans[op.span.id := Touch(spans[op.span.id], Call(op, s.ok))]
  {
  }

  lemma CleanupCalls(tr: Tracer, st: State, span: Span, timeMs: int)
    requires Lawful(st.log) && Issued(Replay(st.log), span) && !Replay(st.log)[span.id].Closed()
    ensures var s, v := InvokeAll(tr, st, CleanupOps(span, timeMs)), Replay(st.log)[span.id];
            && s.st == st.(log := s.st.log) && Lawful(s.st.log)
            && Replay(s.st.log) == Replay(st.log)[span.id := v.(marked := true, ended := s.ok, lost := !s.ok)]
  {
    hide Lawful, Replay, Invoke;
    var ops := CleanupOps(span, timeMs);
    OneTouch(tr, st, ops[0]);
    var s0 := Invoke(tr, st, ops[0]);
    assert InvokeAll(tr, st, ops) == if s0.ok then InvokeAll(tr, s0.st, ops[1..]) else s0;
    if s0.ok {
      OneTouch(tr, s0.st, ops[1]);
      var s1 := Invoke(tr, s0.st, ops[1]);
      assert InvokeAll(tr, s0.st, ops[1..]) == if s1.ok then InvokeAll(tr, s1.st, ops[2..]) else s1;
      if s1.ok {
        assert ops[2..] == [ops[2]];
        OneCall(tr, s1.st, ops[2]);
        OneTouch(tr, s1.st, ops[2]);
      }
    }
  }

  lemma {:induction false} QuietCalls(tr: Tracer, st: State, ops: seq<Op>)
    requires NeverThrows(tr)
    ensures InvokeAll(tr, st, ops).ok
    decreases |ops|
  {
    if ops != [] { QuietCalls(tr, Invoke(tr, st, ops[0]).st, ops[1..]); }
  }

  /** Cleanup closes the span whatever the tracer does: ended when no call threw, lost when
      one did. */
  lemma FinalizeSpanRetires(tr: Tracer, st: State, k: Key, timeMs: int)
    requires Ledger(st) && k in st.open.items
    ensures var st', n := FinalizeSpan(tr, st, k, timeMs), st.open.items[k].span.id;
            && Retired(st, st', k) && Ledger(st')
            && Replay(st'.log)[n].marked
            && (NeverThrows(tr) ==> Replay(st'.log)[n].ended && !Replay(st'.log)[n].lost)
  {
    assert OpenIn(st, Replay(st.log), k);
    CleanupCalls(tr, st, st.open.items[k].span, timeMs);
    RetiredKeepsLedger(st, FinalizeSpan(tr, st, k, timeMs), k);
    if NeverThrows(tr) { QuietCalls(tr, st, CleanupOps(st.open.items[k].span, timeMs)); }
  }
}
