/** Index agreement, span conservation and the parent forest, kept by every record however
    the tracer behaves. */
module OtelInvariants {
  import opened Collections
  import opened OtelRecords
  import opened OtelSpec
  import opened OtelLedger

  /** Every known key is listed under its trace, and nothing else is. */
  ghost predicate Listed(known: set<Key>, traceKeys: map<string, seq<Key>>) {
    && (forall k :: k in known ==> k.trace in traceKeys && k in traceKeys[k.trace])
    && (forall t, k :: t in traceKeys && k in traceKeys[t] ==> k.trace == t && k in known)
  }

  /** The four indexes agree with one another. */
  ghost predicate Indexed(st: State) {
    && st.recents.Valid()
    && |st.recents.order| <= 256
    && (forall k :: k in st.open.items ==> k in st.contexts)
    && Listed(st.contexts.Keys, st.traceKeys)
    && (forall t :: t in st.traceKeys ==> st.traceKeys[t] != [] && Distinct(st.traceKeys[t]))
    && (forall k :: k in st.recents.items ==> k !in st.contexts)
  }

  ghost predicate Sound(st: State) {
    Ledger(st) && Indexed(st) && Anchored(st)
  }

  lemma SoundFacts(st: State, k: Key)
    requires Sound(st)
    ensures st.created == |Replay(st.log)|
    ensures k in st.open.items ==> Known(st, k)
  {
  }

  lemma InitSound()
    ensures Sound(INIT)
  {
  }

  /** The tracer still knows every span it returned, under the same handle. */
  ghost predicate Remembers(before: seq<SpanView>, after: seq<SpanView>) {
    |before| <= |after| && forall n :: 0 <= n < |before| ==> after[n].span == before[n].span
  }

  lemma SameIndexes(st: State, st': State)
    requires Indexed(st) && Anchored(st)
    requires st'.contexts == st.contexts && st'.traceKeys == st.traceKeys && st'.recents == st.recents
    requires st'.open.items.Keys <= st.open.items.Keys
    requires forall k :: k in st'.open.items ==> st'.open.items[k].span == st.open.items[k].span
    requires Remembers(Replay(st.log), Replay(st'.log))
    ensures Indexed(st') && Anchored(st')
  {
  }

  // ---- creating a span --------------------------------------------------------------

  lemma SentKeysAreLinkKeys(st: State, r: Record, incomplete: bool)
    requires !r.SpanEvent?
    ensures SentKeys(StartOp(st, r, incomplete).links) == LinkKeys(r.links)
  {
    var sent := StartOp(st, r, incomplete).links;
    forall l | l in r.links ensures KeyOf(l) in SentKeys(sent) {
      var i :| 0 <= i < |r.links| && r.links[i] == l;
      assert sent[i].link == l && sent[i] in sent;
    }
  }

  lemma OneMoreSpan(st: State, st': State, k: Key, e: Entry, v: SpanView)
    requires Ledger(st) && k !in st.open.items && Lawful(st'.log)
    requires st'.created == st.created + 1 && st'.open == st.open.Put(k, e)
    requires Replay(st'.log) == Replay(st.log) + [v]
    requires v.span == e.span == Span(st.created, k) && v.links == e.linkKeys
    requires !v.Closed() && !v.marked && !v.record.SpanEvent? && v.record.startMs == e.startMs
    ensures Ledger(st')
  {
    var spans := Replay(st.log);
    forall j | j in st'.open.items ensures OpenIn(st', Replay(st'.log), j) {
      if j != k { assert OpenIn(st, spans, j); }
    }
    forall n | 0 <= n < |Replay(st'.log)|
      ensures Replay(st'.log)[n].span.id == n
      ensures !Replay(st'.log)[n].Closed() ==> Alive(st', Replay(st'.log)[n])
    {
      if n < |spans| { assert !spans[n].Closed() ==> Alive(st, spans[n]); }
    }
  }

  lemma SameLedger(st: State, st': State)
    requires Ledger(st) && st' == st.(log := st'.log)
    requires Lawful(st'.log) && Replay(st'.log) == Replay(st.log)
    ensures Ledger(st')
  {
  }

  /** The state after a successful `startSpan`, before anything is known of the calls. */
  ghost predicate Begun(st: State, st': State, r: Record, parent: Option<Span>)
    requires !r.SpanEvent?
  {
    var span := Span(st.created, r.key);
    && st' == Register(st, r.key, span)
                .(open := st.open.Put(r.key, Entry(span, r.startMs, LinkKeys(r.links))),
                  created := st.created + 1, log := st'.log)
    && Replay(st'.log) == Replay(st.log) + [SpanView(span, r, parent, LinkKeys(r.links), false, false, false)]
  }

  lemma {:induction false} BeginLedger(tr: Tracer, st: State, r: Record, incomplete: bool)
    requires !r.SpanEvent? && Ledger(st) && Anchored(st) && r.key !in st.open.items
    ensures var s := Begin(tr, st, r, incomplete);
            && Ledger(s.st)
            && (if s.ok then Begun(st, s.st, r, ParentSpan(st, r))
                else s.st == st.(log := s.st.log) && Replay(s.st.log) == Replay(st.log))
  {
    var op := StartOp(st, r, incomplete);
    var s := Begin(tr, st, r, incomplete);
    AppendCall(st.log, Call(op, s.ok));
    SentKeysAreLinkKeys(st, r, incomplete);
    assert Legal(Replay(st.log), Call(op, s.ok));
    if s.ok {
      var v := SpanView(op.span, r, op.parent, LinkKeys(r.links), false, false, false);
      OneMoreSpan(st, s.st, r.key, Entry(op.span, r.startMs, LinkKeys(r.links)), v);
    } else {
      SameLedger(st, s.st);
    }
  }

  lemma {:induction false} BegunIndexed(st: State, st': State, r: Record, parent: Option<Span>)
    requires !r.SpanEvent? && Indexed(st) && !Known(st, r.key) && Begun(st, st', r, parent)
    ensures Indexed(st')
  {
    hide Replay, Indexed;
    var keys := if r.key.trace in st.traceKeys then st.traceKeys[r.key.trace] else [];
    UnknownKey(st, r.key);
    OneMoreKey(st, st', r.key, keys);
  }

  lemma UnknownKey(st: State, k: Key)
    requires Indexed(st) && !Known(st, k)
    ensures k !in st.contexts && k !in st.recents.items
    ensures k.trace in st.traceKeys ==> k !in st.traceKeys[k.trace]
  {
  }

  lemma LongerDistinct(keys: seq<Key>, k: Key)
    requires k !in keys
    ensures keys == [] || Distinct(keys) ==> Distinct(keys + [k])
  {
  }

  lemma OneMoreListed(known: set<Key>, traceKeys: map<string, seq<Key>>, k: Key, keys: seq<Key>)
    requires Listed(known, traceKeys) && keys == if k.trace in traceKeys then traceKeys[k.trace] else []
    ensures Listed(known + {k}, traceKeys[k.trace := keys + [k]])
  {
    var more := traceKeys[k.trace := keys + [k]];
    forall t: string, j: Key | t in more && j in more[t] ensures j.trace == t && j in known + {k} {
      assert t != k.trace ==> more[t] == traceKeys[t];
    }
  }

  lemma OneMoreKey(st: State, st': State, k: Key, keys: seq<Key>)
    requires Indexed(st) && k !in st.recents.items && k !in keys
    requires keys == if k.trace in st.traceKeys then st.traceKeys[k.trace] else []
    requires st'.recents == st.recents && st'.traceKeys == st.traceKeys[k.trace := keys + [k]]
    requires st'.contexts.Keys == st.contexts.Keys + {k} && st'.open.items.Keys == st.open.items.Keys + {k}
    ensures Indexed(st')
  {
    hide OrderedMap<Key, Span>.Valid, Distinct, Listed;
    LongerDistinct(keys, k);
    OneMoreListed(st.contexts.Keys, st.traceKeys, k, keys);
    assert st'.contexts.Keys == st.contexts.Keys + {k};
  }

  lemma BegunAnchored(st: State, st': State, r: Record, parent: Option<Span>)
    requires !r.SpanEvent? && Anchored(st) && Begun(st, st', r, parent)
    requires st.created == |Replay(st.log)| && r.key !in st.recents.items
    ensures Anchored(st')
  {
  }

  lemma {:induction false} BeginKeeps(tr: Tracer, st: State, r: Record, incomplete: bool)
    requires !r.SpanEvent? && Sound(st) && !Known(st, r.key)
    ensures Sound(Begin(tr, st, r, incomplete).st)
  {
    hide Begin, Ledger, Indexed, Anchored;
    assert r.key !in st.open.items && st.created == |Replay(st.log)| by { SoundFacts(st, r.key); }
    BeginLedger(tr, st, r, incomplete);
    var s := Begin(tr, st, r, incomplete);
    if s.ok {
      BegunAnchored(st, s.st, r, ParentSpan(st, r));
      BegunIndexed(st, s.st, r, ParentSpan(st, r));
    } else {
      SameIndexes(st, s.st);
    }
  }

  // ---- ending spans -----------------------------------------------------------------

  ghost predicate Targeted(st: State, keys: seq<Key>, v: SpanView) {
    v.span.key in keys && Alive(st, v)
  }

  /** What finalising a list of keys does: those keys leave the open and context indexes,
      each span open under one of them is closed and marked incomplete, and no other span
      and no other index moves. */
  ghost predicate Swept(st: State, st': State, keys: seq<Key>, quiet: bool) {
    var spans, spans' := Replay(st.log), Replay(st'.log);
    && st' == st.(open := st'.open, contexts := st.contexts - (set k | k in keys), log := st'.log)
    && st'.open.items == st.open.items - (set k | k in keys)
    && |spans'| == |spans|
    && (forall n :: 0 <= n < |spans| ==>
          if Targeted(st, keys, spans[n]) then
            && spans'[n] == spans[n].(ended := spans'[n].ended, lost := spans'[n].lost, marked := true)
            && spans'[n].Closed()
            && (quiet ==> spans'[n].ended && !spans'[n].lost)
          else spans'[n] == spans[n])
  }

  lemma SweepOne(tr: Tracer, st: State, k: Key, timeMs: int)
    requires Ledger(st)
    ensures var st' := FinalizeKey(tr, st, k, timeMs); Ledger(st') && Swept(st, st', [k], NeverThrows(tr))
  {
    hide Lawful, Replay, InvokeAll;
    var st' := FinalizeKey(tr, st, k, timeMs);
    if k in st.open.items {
      FinalizeSpanRetires(tr, st, k, timeMs);
      assert OpenIn(st, Replay(st.log), k);
      var mid := FinalizeSpan(tr, st, k, timeMs);
      LedgerIgnoresContexts(mid, st');
      var spans := Replay(st.log);
      forall n | 0 <= n < |spans| && Targeted(st, [k], spans[n])
        ensures n == st.open.items[k].span.id
      {
      }
    } else {
      LedgerIgnoresContexts(st, st');
    }
  }

  lemma LedgerIgnoresContexts(st: State, st': State)
    requires Ledger(st) && st' == st.(contexts := st'.contexts, traceKeys := st'.traceKeys, recents := st'.recents)
    ensures Ledger(st')
  {
  }

  lemma SweptTrans(a: State, b: State, c: State, k: Key, keys: seq<Key>, quiet: bool)
    requires k !in keys && Swept(a, b, [k], quiet) && Swept(b, c, keys, quiet)
    ensures Swept(a, c, [k] + keys, quiet)
  {
  }

  lemma SweptNone(st: State, quiet: bool)
    ensures Swept(st, st, [], quiet)
  {
  }

  lemma {:induction false} SweepAll(tr: Tracer, st: State, keys: seq<Key>, timeMs: int)
    requires Ledger(st) && Distinct(keys)
    ensures var st' := FinalizeKeys(tr, st, keys, timeMs); Ledger(st') && Swept(st, st', keys, NeverThrows(tr))
    decreases |keys|
  {
    hide Ledger, Swept;
    if keys == [] {
      SweptNone(st, NeverThrows(tr));
    } else {
      var mid := FinalizeKey(tr, st, keys[0], timeMs);
      SweepOne(tr, st, keys[0], timeMs);
      SweepAll(tr, mid, keys[1..], timeMs);
      SweptTrans(st, mid, FinalizeKeys(tr, mid, keys[1..], timeMs), keys[0], keys[1..], NeverThrows(tr));
      assert keys == [keys[0]] + keys[1..];
    }
  }

  lemma {:induction false} EvictKeepsLast(m: OrderedMap<Key, Span>)
    requires m.Valid()
    ensures var e := Evict(m);
            && e.Valid() && e.order == LastN(m.order, MAX_RECENT_ROOT_CONTEXTS)
            && (forall k :: k in e.items ==> k in m.items && e.items[k] == m.items[k])
    decreases |m.order|
  {
    if |m.order| > MAX_RECENT_ROOT_CONTEXTS {
      var m' := OrderedMap(m.order[1..], m.items - {m.order[0]});
      assert m'.Valid() by {
        assert m.order == [m.order[0]] + m.order[1..];
        forall k ensures k in m'.order <==> k in m'.items {
          if k in m'.order { var i :| 0 <= i < |m'.order| && m'.order[i] == k; assert m.order[i + 1] == k; }
        }
      }
      EvictKeepsLast(m');
      assert LastN(m'.order, MAX_RECENT_ROOT_CONTEXTS) == LastN(m.order, MAX_RECENT_ROOT_CONTEXTS);
    }
  }

  /** Remembering a root that is not remembered yet: the delete that precedes the write
      removes nothing, and the oldest root leaves when 256 are exceeded. */
  lemma RememberNew(m: OrderedMap<Key, Span>, k: Key, span: Span)
    requires m.Valid() && k !in m.items
    ensures m.Remove(k) == m
    ensures var e := Remember(m, k, span);
            && e.Valid() && e.order == LastN(m.order + [k], MAX_RECENT_ROOT_CONTEXTS)
            && (forall j :: j in e.items ==>
                if j == k then e.items[j] == span else j in m.items && e.items[j] == m.items[j])
  {
    assert m.items - {k} == m.items;
    EvictKeepsLast(m.Put(k, span));
  }

  function Outside<V>(m: map<Key, V>, trace: string): map<Key, V> {
    map k | k in m && k.trace != trace :: m[k]
  }

  /** A run end takes every key of its trace out of the open, context and trace indexes,
      leaves every other trace's keys alone, and appends its own key to the recent roots. */
  ghost predicate RunClosed(st: State, st': State, root: Key) {
    && st'.open.items == Outside(st.open.items, root.trace)
    && st'.contexts == Outside(st.contexts, root.trace)
    && st'.traceKeys == st.traceKeys - {root.trace}
    && st'.recents.order == LastN(st.recents.order + [root], MAX_RECENT_ROOT_CONTEXTS)
    && (forall k :: k in st'.recents.items ==>
          k == root || (k in st.recents.items && st'.recents.items[k] == st.recents.items[k]))
    && (root in st'.recents.items && root in st.contexts ==> st'.recents.items[root] == st.contexts[root])
  }

  lemma RunClosedIndexed(st: State, st': State, root: Key)
    requires Indexed(st) && root in st.contexts && RunClosed(st, st', root) && st'.recents.Valid()
    ensures Indexed(st')
  {
  }

  lemma RunClosedAnchored(st: State, st': State, root: Key)
    requires Anchored(st) && root in st.contexts && RunClosed(st, st', root)
    requires Remembers(Replay(st.log), Replay(st'.log))
    ensures Anchored(st')
  {
    hide Replay, LastN;
  }

  ghost predicate RootRemembered(st: State, st1: State, root: Key)
    requires root in st.contexts
  {
    && st1 == st.(recents := st1.recents)
    && st1.recents.Valid()
    && st1.recents.order == LastN(st.recents.order + [root], MAX_RECENT_ROOT_CONTEXTS)
    && (forall k :: k in st1.recents.items ==>
          if k == root then st1.recents.items[k] == st.contexts[root]
          else k in st.recents.items && st1.recents.items[k] == st.recents.items[k])
  }

  lemma SweepClosesRun(st: State, st1: State, st2: State, root: Key, quiet: bool)
    requires Indexed(st) && root in st.contexts && RootRemembered(st, st1, root)
    requires Swept(st1, st2, st.traceKeys[root.trace], quiet)
    ensures var st' := st2.(traceKeys := st2.traceKeys - {root.trace});
            && RunClosed(st, st', root) && Indexed(st')
            && Remembers(Replay(st.log), Replay(st'.log))
            && Swept(st.(recents := st'.recents, traceKeys := st'.traceKeys), st', st.traceKeys[root.trace], quiet)
  {
    hide Replay, LastN;
    var keys := st.traceKeys[root.trace];
    var st' := st2.(traceKeys := st2.traceKeys - {root.trace});
    SweptOutside(st, st', root, keys);
    SweptAgain(st1, st2, st.(recents := st'.recents, traceKeys := st'.traceKeys), st', keys, quiet);
    RunClosedIndexed(st, st', root);
  }

  lemma SweptOutside(st: State, st': State, root: Key, keys: seq<Key>)
    requires Indexed(st) && root in st.contexts && keys == st.traceKeys[root.trace]
    requires st'.open.items == st.open.items - (set k | k in keys) && st'.contexts == st.contexts - (set k | k in keys)
    ensures st'.open.items == Outside(st.open.items, root.trace) && st'.contexts == Outside(st.contexts, root.trace)
  {
  }

  /** A sweep reads neither the recent roots nor the trace index. */
  lemma SweptAgain(a: State, b: State, a': State, b': State, keys: seq<Key>, quiet: bool)
    requires Swept(a, b, keys, quiet)
    requires a' == a.(recents := a'.recents, traceKeys := a'.traceKeys)
    requires b' == b.(recents := a'.recents, traceKeys := a'.traceKeys)
    ensures Swept(a', b', keys, quiet) && Remembers(Replay(a.log), Replay(b'.log))
  {
  }

  lemma {:induction false} CloseRun(tr: Tracer, st: State, r: Record)
    requires IsRunEnd(r) && Sound(st.(open := st.open.Remove(r.key))) && r.key in st.contexts
    ensures var st0, st' := st.(open := st.open.Remove(r.key)), Close(tr, st, r);
            && Sound(st') && RunClosed(st0, st', r.key)
            && r.key.trace in st.traceKeys
            && Swept(st0.(recents := st'.recents, traceKeys := st'.traceKeys), st', st.traceKeys[r.key.trace],
                NeverThrows(tr))
  {
    hide Ledger, Swept, RunClosed, Anchored;
    var st0 := st.(open := st.open.Remove(r.key));
    var k, keys := r.key, st0.traceKeys[r.key.trace];
    RememberNew(st0.recents, k, st0.contexts[k]);
    var st1 := st0.(recents := Remember(st0.recents, k, st0.contexts[k]));
    assert RootRemembered(st0, st1, k);
    LedgerIgnoresContexts(st0, st1);
    SweepAll(tr, st1, keys, r.endMs);
    var st2 := FinalizeKeys(tr, st1, keys, r.endMs);
    assert st2.traceKeys == st0.traceKeys by { SweepKeepsTraceKeys(st1, st2, keys, NeverThrows(tr)); }
    SweepClosesRun(st0, st1, st2, k, NeverThrows(tr));
    LedgerIgnoresContexts(st2, Close(tr, st, r));
    RunClosedAnchored(st0, Close(tr, st, r), k);
  }

  lemma SweepKeepsTraceKeys(st: State, st': State, keys: seq<Key>, quiet: bool)
    requires Swept(st, st', keys, quiet)
    ensures st'.traceKeys == st.traceKeys
  {
  }

  ghost predicate EndedSpan(st: State, k: Key, span: Span) {
    span.key == k && Issued(Replay(st.log), span) && Replay(st.log)[span.id].ended
  }

  lemma DescribedSound(st: State, st': State, k: Key, added: set<LinkKey>)
    requires Sound(st) && Described(st, st', k, added)
    ensures Sound(st')
  {
    SameIndexes(st, st');
  }

  /** The states `end` goes through for an open span: everything sent before `span.end`, the
      span ended and out of the open index, the trace closed when the span was a run. */
  lemma ConcludeStages(tr: Tracer, st: State, r: Record)
    requires r.SpanEnd? && Sound(st) && r.key in st.open.items
    ensures var d := Describe(tr, st, r);
            && Sound(d.st)
            && (d.ok ==> Described(st, d.st, r.key, LinkKeys(r.links)))
            && (d.ok ==>
                  var e := Invoke(tr, d.st, EndSpan(st.open.items[r.key].span, r.endMs));
                  if e.ok then
                    && r.key in e.st.contexts && Sound(e.st.(open := e.st.open.Remove(r.key)))
                    && Retired(d.st, e.st.(open := e.st.open.Remove(r.key)), r.key)
                    && EndedSpan(e.st, r.key, st.open.items[r.key].span)
                  else Sound(e.st))
  {
    hide Ledger, Indexed, Anchored, LinksOnly;
    DescribeKeeps(tr, st, r);
    var d := Describe(tr, st, r);
    var added :| Described(st, d.st, r.key, added);
    DescribedSound(st, d.st, r.key, added);
    if d.ok { EndedSound(tr, d.st, r.key, r.endMs); }
  }

  lemma {:induction false} EndedSound(tr: Tracer, st: State, k: Key, timeMs: int)
    requires Sound(st) && k in st.open.items
    ensures var e := Invoke(tr, st, EndSpan(st.open.items[k].span, timeMs));
            if e.ok then
              var st' := e.st.(open := e.st.open.Remove(k));
              && k in e.st.contexts && Sound(st') && Retired(st, st', k)
              && EndedSpan(e.st, k, st.open.items[k].span)
            else Sound(e.st)
  {
    FinalEnd(tr, st, k, timeMs);
    assert OpenIn(st, Replay(st.log), k);
    var e := Invoke(tr, st, EndSpan(st.open.items[k].span, timeMs));
    if e.ok { RetiredSound(st, e.st.(open := e.st.open.Remove(k)), k); }
    else { SameIndexes(st, e.st); }
  }

  lemma RetiredSound(st: State, st': State, k: Key)
    requires Sound(st) && k in st.open.items && Retired(st, st', k) && Ledger(st')
    ensures Sound(st')
  {
    SameIndexes(st, st');
  }

  lemma ConcludeKeeps(tr: Tracer, st: State, r: Record)
    requires r.SpanEnd? && Sound(st) && r.key in st.open.items
    ensures Sound(Conclude(tr, st, r).st)
  {
    hide Sound, Describe, Retired, Described, Invoke;
    ConcludeStages(tr, st, r);
    var d := Describe(tr, st, r);
    if d.ok {
      var e := Invoke(tr, d.st, EndSpan(st.open.items[r.key].span, r.endMs));
      if e.ok && IsRunEnd(r) { CloseRun(tr, e.st, r); }
    }
  }

  lemma EventKeeps(tr: Tracer, st: State, r: Record)
    requires r.SpanEvent? && Sound(st)
    ensures Sound(Event(tr, st, r).st)
  {
    if r.key in st.open.items {
      PlainCalls(tr, st, r.key, EventOps(st.open.items[r.key], r));
      SameIndexes(st, Event(tr, st, r).st);
    }
  }

  /** Index agreement and span conservation survive every record, accepted or not. */
  lemma AcceptKeeps(tr: Tracer, st: State, r: Record)
    requires Sound(st)
    ensures Sound(Accept(tr, st, r).st)
  {
    hide Sound, Begin, Conclude, Event;
    SoundFacts(st, r.key);
    match r
    case SpanStart(_, _, _, _, _, _) =>
      if !Known(st, r.key) { BeginKeeps(tr, st, r, false); }
    case SpanEvent(_, _, _, _) => EventKeeps(tr, st, r);
    case SpanEnd(_, _, _, _, _, _, _, _, _) =>
      if r.key in st.open.items {
        ConcludeKeeps(tr, st, r);
      } else if !Known(st, r.key) {
        BeginKeeps(tr, st, r, true);
        var s := Begin(tr, st, r, true);
        if s.ok {
          BeginOpens(tr, st, r, true);
          ConcludeKeeps(tr, s.st, r);
        }
      }
  }

  lemma BeginOpens(tr: Tracer, st: State, r: Record, incomplete: bool)
    requires !r.SpanEvent?
    ensures var s := Begin(tr, st, r, incomplete); s.ok ==> r.key in s.st.open.items && r.key in s.st.contexts
  {
  }

  // ---- shutdown ---------------------------------------------------------------------

  /** Every span of the given keys is closed; no index but the open one moves. */
  ghost predicate Drained(st: State, st': State, keys: seq<Key>, quiet: bool) {
    var spans, spans' := Replay(st.log), Replay(st'.log);
    && st' == st.(open := st'.open, log := st'.log)
    && st'.open.items == st.open.items - (set k | k in keys)
    && |spans'| == |spans|
    && (forall n :: 0 <= n < |spans| ==>
          if Targeted(st, keys, spans[n]) then
            && spans'[n].span == spans[n].span && spans'[n].Closed() && spans'[n].marked
            && (quiet ==> spans'[n].ended && !spans'[n].lost)
          else spans'[n] == spans[n])
  }

  lemma {:induction false} DrainAll(tr: Tracer, st: State, keys: seq<Key>, timeMs: int)
    requires Ledger(st)
    ensures var st' := FinalizeAll(tr, st, keys, timeMs); Ledger(st') && Drained(st, st', keys, NeverThrows(tr))
    decreases |keys|
  {
    hide Ledger, Drained;
    if keys == [] {
      DrainedNone(st, NeverThrows(tr));
    } else {
      var mid := if keys[0] in st.open.items then FinalizeSpan(tr, st, keys[0], timeMs) else st;
      DrainOne(tr, st, keys[0], timeMs);
      DrainAll(tr, mid, keys[1..], timeMs);
      DrainedTrans(st, mid, FinalizeAll(tr, mid, keys[1..], timeMs), keys[0], keys[1..], NeverThrows(tr));
      assert keys == [keys[0]] + keys[1..];
    }
  }

  lemma DrainedNone(st: State, quiet: bool)
    ensures Drained(st, st, [], quiet)
  {
  }

  lemma DrainOne(tr: Tracer, st: State, k: Key, timeMs: int)
    requires Ledger(st)
    ensures var st' := if k in st.open.items then FinalizeSpan(tr, st, k, timeMs) else st;
            Ledger(st') && Drained(st, st', [k], NeverThrows(tr))
  {
    if k in st.open.items {
      FinalizeSpanRetires(tr, st, k, timeMs);
      assert OpenIn(st, Replay(st.log), k);
    }
  }

  lemma DrainedTrans(a: State, b: State, c: State, k: Key, keys: seq<Key>, quiet: bool)
    requires Drained(a, b, [k], quiet) && Drained(b, c, keys, quiet)
    ensures Drained(a, c, [k] + keys, quiet)
  {
  }

  /** Shutdown empties all four indexes and leaves no span alive; with a tracer that does not
      throw every span ever created has been ended. */
  lemma {:induction false} ShutdownEndsAll(tr: Tracer, st: State, timeMs: int)
    requires Sound(st)
    ensures var st', spans := Shutdown(tr, st, timeMs), Replay(Shutdown(tr, st, timeMs).log);
            && Sound(st')
            && st' == INIT.(created := st.created, log := st'.log)
            && |spans| == st.created
            && (forall n :: 0 <= n < |spans| ==> spans[n].Closed())
            && (forall n :: 0 <= n < |spans| && NeverThrows(tr) && !Replay(st.log)[n].lost ==> spans[n].ended)
  {
    DrainAll(tr, st, st.open.order, timeMs);
    var mid, st' := FinalizeAll(tr, st, st.open.order, timeMs), Shutdown(tr, st, timeMs);
    assert mid.open.items == map[];
    assert Ledger(st') by {
      forall n | 0 <= n < |Replay(mid.log)| ensures Replay(mid.log)[n].Closed() {
        assert !Replay(mid.log)[n].Closed() ==> Alive(mid, Replay(mid.log)[n]);
      }
    }
    forall n | 0 <= n < |Replay(st.log)| && !Replay(st.log)[n].Closed()
      ensures Targeted(st, st.open.order, Replay(st.log)[n])
    {
      assert Alive(st, Replay(st.log)[n]);
    }
  }
}
