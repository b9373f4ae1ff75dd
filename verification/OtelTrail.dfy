/** Which calls one record adds to the tracer's log. */
module OtelTrail {
  import opened Collections
  import opened OtelRecords
  import opened OtelSpec
  import opened OtelLedger
  import opened OtelInvariants

  ghost predicate Named(st: State) {
    forall k :: k in st.open.items ==> st.open.items[k].span.key == k
  }

  /** `st'` has all the calls of `st`, followed only by calls on spans of trace `t` that
      return or throw as the tracer says. */
  ghost predicate Trail(tr: Tracer, st: State, st': State, t: string) {
    && st.log <= st'.log
    && forall i :: |st.log| <= i < |st'.log| ==>
         st'.log[i].ok == !tr(i) && st'.log[i].op.span.key.trace == t
  }

  predicate Late(op: Op, timeMs: int) {
    !op.StartSpan? && (op.EndSpan? ==> op.timeMs == timeMs)
  }

  /** As `Trail`, and no span is created, and none is ended at another time. */
  ghost predicate Quietly(tr: Tracer, st: State, st': State, t: string, timeMs: int) {
    Trail(tr, st, st', t) && Named(st') && forall i :: |st.log| <= i < |st'.log| ==> Late(st'.log[i].op, timeMs)
  }

  lemma QuietlyTrans(tr: Tracer, a: State, b: State, c: State, t: string, timeMs: int)
    requires Quietly(tr, a, b, t, timeMs) && Quietly(tr, b, c, t, timeMs)
    ensures Quietly(tr, a, c, t, timeMs)
  {
  }

  lemma OneQuietly(tr: Tracer, st: State, op: Op, timeMs: int)
    requires Named(st) && Late(op, timeMs)
    ensures Quietly(tr, st, Invoke(tr, st, op).st, op.span.key.trace, timeMs)
  {
  }

  lemma {:induction false} OpsQuietly(tr: Tracer, st: State, ops: seq<Op>, t: string, timeMs: int)
    requires Named(st)
    requires forall op :: op in ops ==> Late(op, timeMs) && op.span.key.trace == t
    ensures Quietly(tr, st, InvokeAll(tr, st, ops).st, t, timeMs) && InvokeAll(tr, st, ops).st.open == st.open
    decreases |ops|
  {
    if ops != [] {
      var s := Invoke(tr, st, ops[0]);
      OneQuietly(tr, st, ops[0], timeMs);
      if s.ok {
        OpsQuietly(tr, s.st, ops[1..], t, timeMs);
        QuietlyTrans(tr, st, s.st, InvokeAll(tr, s.st, ops[1..]).st, t, timeMs);
      }
    }
  }

  lemma {:induction false} LinksQuietly(tr: Tracer, st: State, k: Key, links: seq<Link>, timeMs: int)
    requires Named(st) && k in st.open.items
    ensures var s := AddEndLinks(tr, st, k, links);
            && Quietly(tr, st, s.st, k.trace, timeMs) && k in s.st.open.items
    decreases |links|
  {
    if links != [] {
      if KeyOf(links[0]) in st.open.items[k].linkKeys {
        LinksQuietly(tr, st, k, links[1..], timeMs);
      } else {
        var op := AddLink(st.open.items[k].span, Resolve(st, links[0]));
        var s := Invoke(tr, st, op);
        OneQuietly(tr, st, op, timeMs);
        if s.ok {
          var st' := WithLink(s.st, k, KeyOf(links[0]));
          LinksQuietly(tr, st', k, links[1..], timeMs);
          QuietlyTrans(tr, st, st', AddEndLinks(tr, st', k, links[1..]).st, k.trace, timeMs);
        }
      }
    }
  }

  lemma SpanQuietly(tr: Tracer, st: State, k: Key, timeMs: int)
    requires Named(st)
    ensures Quietly(tr, st, FinalizeKey(tr, st, k, timeMs), k.trace, timeMs)
    ensures k in st.open.items ==> Quietly(tr, st, FinalizeSpan(tr, st, k, timeMs), k.trace, timeMs)
  {
    if k in st.open.items {
      OpsQuietly(tr, st, CleanupOps(st.open.items[k].span, timeMs), k.trace, timeMs);
    }
  }

  lemma {:induction false} KeysQuietly(tr: Tracer, st: State, keys: seq<Key>, timeMs: int, t: string)
    requires Named(st) && forall k :: k in keys ==> k.trace == t
    ensures Quietly(tr, st, FinalizeKeys(tr, st, keys, timeMs), t, timeMs)
    decreases |keys|
  {
    if keys != [] {
      var mid := FinalizeKey(tr, st, keys[0], timeMs);
      SpanQuietly(tr, st, keys[0], timeMs);
      KeysQuietly(tr, mid, keys[1..], timeMs, t);
      QuietlyTrans(tr, st, mid, FinalizeKeys(tr, mid, keys[1..], timeMs), t, timeMs);
    }
  }

  lemma DescribeQuietly(tr: Tracer, st: State, r: Record)
    requires r.SpanEnd? && Named(st) && r.key in st.open.items
    ensures Quietly(tr, st, Describe(tr, st, r).st, r.key.trace, r.endMs)
  {
    var span := st.open.items[r.key].span;
    var s := Invoke(tr, st, SetAttributes(span, OfEnd(r)));
    OneQuietly(tr, st, SetAttributes(span, OfEnd(r)), r.endMs);
    if s.ok {
      LinksQuietly(tr, s.st, r.key, r.links, r.endMs);
      var s2 := AddEndLinks(tr, s.st, r.key, r.links);
      QuietlyTrans(tr, st, s.st, s2.st, r.key.trace, r.endMs);
      if s2.ok {
        OpsQuietly(tr, s2.st, ClosingOps(span, r), r.key.trace, r.endMs);
        QuietlyTrans(tr, st, s2.st, Describe(tr, st, r).st, r.key.trace, r.endMs);
      }
    }
  }

  lemma CloseQuietly(tr: Tracer, st: State, r: Record)
    requires r.SpanEnd? && Named(st)
    requires forall t, k :: t in st.traceKeys && k in st.traceKeys[t] ==> k.trace == t
    ensures Quietly(tr, st, Close(tr, st, r), r.key.trace, r.endMs)
  {
    var st0 := st.(open := st.open.Remove(r.key));
    assert Quietly(tr, st, st0, r.key.trace, r.endMs);
    if IsRunEnd(r) && r.key.trace in st.traceKeys {
      var st1 := if r.key in st0.contexts
                 then st0.(recents := Remember(st0.recents, r.key, st0.contexts[r.key])) else st0;
      KeysQuietly(tr, st1, st.traceKeys[r.key.trace], r.endMs, r.key.trace);
    }
  }

  lemma ConcludeQuietly(tr: Tracer, st: State, r: Record)
    requires r.SpanEnd? && Sound(st) && r.key in st.open.items
    ensures Quietly(tr, st, Conclude(tr, st, r).st, r.key.trace, r.endMs)
  {
    hide Sound, Describe, Close, Quietly, Retired, EndedSpan, Described, Invoke;
    var span := st.open.items[r.key].span;
    SoundNamed(st);
    DescribeQuietly(tr, st, r);
    ConcludeStages(tr, st, r);
    var d := Describe(tr, st, r);
    if d.ok {
      SoundNamed(d.st);
      OneQuietly(tr, d.st, EndSpan(span, r.endMs), r.endMs);
      var e := Invoke(tr, d.st, EndSpan(span, r.endMs));
      QuietlyTrans(tr, st, d.st, e.st, r.key.trace, r.endMs);
      if e.ok {
        assert e.st.traceKeys == d.st.traceKeys && Named(e.st) by { InvokeKeeps(tr, d.st, EndSpan(span, r.endMs)); }
        CloseQuietly(tr, e.st, r);
        QuietlyTrans(tr, st, e.st, Close(tr, e.st, r), r.key.trace, r.endMs);
      }
    }
  }

  lemma InvokeKeeps(tr: Tracer, st: State, op: Op)
    requires Named(st)
    ensures Invoke(tr, st, op).st.traceKeys == st.traceKeys && Named(Invoke(tr, st, op).st)
  {
  }

  lemma SoundNamed(st: State)
    requires Sound(st)
    ensures Named(st)
    ensures forall t, k :: t in st.traceKeys && k in st.traceKeys[t] ==> k.trace == t
  {
  }

  /** A record adds calls of its own trace only. It creates at most its own span, if that is not
      known, with its first call; and every span it ends, cleanup included, it ends at its own
      end time. */
  ghost predicate Traced(tr: Tracer, st: State, st': State, r: Record) {
    && Trail(tr, st, st', r.key.trace)
    && (forall i :: |st.log| <= i < |st'.log| && st'.log[i].op.StartSpan? ==>
         && !r.SpanEvent? && i == |st.log| && !Known(st, r.key)
         && st'.log[i].op == StartOp(st, r, r.SpanEnd?))
    && (forall i :: |st.log| <= i < |st'.log| && st'.log[i].op.EndSpan? ==>
         r.SpanEnd? && st'.log[i].op.timeMs == r.endMs)
  }

  lemma BeginTraced(tr: Tracer, st: State, r: Record)
    requires !r.SpanEvent? && !Known(st, r.key)
    ensures Traced(tr, st, Begin(tr, st, r, r.SpanEnd?).st, r)
  {
  }

  /** What one record sends to the tracer. */
  lemma AcceptTraced(tr: Tracer, st: State, r: Record)
    requires Sound(st)
    ensures Traced(tr, st, Accept(tr, st, r).st, r)
  {
    hide Sound, Begin, Event, End;
    match r
    case SpanStart(_, _, _, _, _, _) => if !Known(st, r.key) { BeginTraced(tr, st, r); }
    case SpanEvent(_, _, _, _) => EventTraced(tr, st, r);
    case SpanEnd(_, _, _, _, _, _, _, _, _) => EndTraced(tr, st, r);
  }

  lemma EventTraced(tr: Tracer, st: State, r: Record)
    requires Sound(st) && r.SpanEvent?
    ensures Traced(tr, st, Event(tr, st, r).st, r)
  {
    hide Sound;
    SoundNamed(st);
    if r.key in st.open.items {
      // No end at time 0 and none at time 1: no end at all.
      OpsQuietly(tr, st, EventOps(st.open.items[r.key], r), r.key.trace, 0);
      OpsQuietly(tr, st, EventOps(st.open.items[r.key], r), r.key.trace, 1);
    }
  }

  lemma EndTraced(tr: Tracer, st: State, r: Record)
    requires Sound(st) && r.SpanEnd?
    ensures Traced(tr, st, End(tr, st, r).st, r)
  {
    hide Sound, Begin, Conclude;
    if r.key in st.open.items {
      ConcludeQuietly(tr, st, r);
    } else if !Known(st, r.key) {
      BeginKeeps(tr, st, r, true);
      BeginTraced(tr, st, r);
      var s := Begin(tr, st, r, true);
      if s.ok {
        BeginOpens(tr, st, r, true);
        ConcludeQuietly(tr, s.st, r);
        TracedThenQuietly(tr, st, s.st, Conclude(tr, s.st, r).st, r);
      }
    }
  }

  lemma TracedThenQuietly(tr: Tracer, a: State, b: State, c: State, r: Record)
    requires r.SpanEnd? && Traced(tr, a, b, r) && Quietly(tr, b, c, r.key.trace, r.endMs)
    ensures Traced(tr, a, c, r)
  {
  }

  lemma {:induction false} AllQuietly(tr: Tracer, st: State, keys: seq<Key>, timeMs: int)
    requires Named(st)
    ensures var st' := FinalizeAll(tr, st, keys, timeMs);
            && Named(st') && st.log <= st'.log
            && forall i :: |st.log| <= i < |st'.log| ==> st'.log[i].ok == !tr(i) && Late(st'.log[i].op, timeMs)
    decreases |keys|
  {
    if keys != [] {
      var mid := if keys[0] in st.open.items then FinalizeSpan(tr, st, keys[0], timeMs) else st;
      SpanQuietly(tr, st, keys[0], timeMs);
      AllQuietly(tr, mid, keys[1..], timeMs);
      var st' := FinalizeAll(tr, mid, keys[1..], timeMs);
      forall i | |st.log| <= i < |mid.log| ensures st'.log[i] == mid.log[i] {
      }
    }
  }
}
