/** Failure and retry: whatever the tracer throws on the way, delivering the records until
    they are accepted leaves the indexes and the spans' links as if nothing had failed. */
module OtelRetry {
  import opened Collections
  import opened OtelRecords
  import opened OtelSpec
  import opened OtelLedger
  import opened OtelInvariants
  import opened OtelRuns
  import opened OtelHistory

  /** What a run leaves behind: the indexes and, per span in creation order, its handle and
      its links. The calls themselves are dropped. */
  datatype SpanLinks = SpanLinks(span: Span, links: set<LinkKey>)
  datatype Digest = Digest(st: State, spans: seq<SpanLinks>)

  ghost function DigestOf(st: State): Digest {
    var spans := Replay(st.log);
    Digest(st.(log := []), seq(|spans|, n requires 0 <= n < |spans| => SpanLinks(spans[n].span, spans[n].links)))
  }

  // ---- the reference machine: no tracer, no exceptions ----------------------------------

  ghost function CleanBegin(d: Digest, r: Record): Digest
    requires !r.SpanEvent?
  {
    var span := Span(d.st.created, r.key);
    var st := Register(d.st, r.key, span);
    Digest(st.(open := d.st.open.Put(r.key, Entry(span, r.startMs, LinkKeys(r.links))), created := st.created + 1),
           d.spans + [SpanLinks(span, LinkKeys(r.links))])
  }

  ghost function WithLinks(d: Digest, k: Key, added: set<LinkKey>): Digest
    requires k in d.st.open.items
  {
    var e := d.st.open.items[k];
    var e' := e.(linkKeys := e.linkKeys + added);
    Digest(d.st.(open := d.st.open.Put(k, e')),
           if e.span.id < |d.spans| then d.spans[e.span.id := SpanLinks(e.span, e'.linkKeys)] else d.spans)
  }

  ghost function RemoveAll<V>(m: OrderedMap<Key, V>, keys: seq<Key>): OrderedMap<Key, V>
    decreases |keys|
  {
    if keys == [] then m else RemoveAll(m.Remove(keys[0]), keys[1..])
  }

  ghost function CleanClose(d: Digest, r: Record): Digest
    requires r.SpanEnd?
  {
    var st := d.st.(open := d.st.open.Remove(r.key));
    if r.kind != RunSpan then d.(st := st)
    else
      var st := if r.key in st.contexts
                then st.(recents := Remember(st.recents, r.key, st.contexts[r.key])) else st;
      if r.key.trace !in st.traceKeys then d.(st := st)
      else
        var keys := st.traceKeys[r.key.trace];
        d.(st := st.(open := RemoveAll(st.open, keys), contexts := st.contexts - (set k | k in keys),
                     traceKeys := st.traceKeys - {r.key.trace}))
  }

  ghost function CleanConclude(d: Digest, r: Record): Digest
    requires r.SpanEnd? && r.key in d.st.open.items
  {
    CleanClose(WithLinks(d, r.key, LinkKeys(r.links)), r)
  }

  ghost function CleanAccept(d: Digest, r: Record): Digest {
    if r.SpanEvent? then d
    else if r.key in d.st.open.items then
      if r.SpanEnd? then CleanConclude(d, r) else d
    else if Known(d.st, r.key) then d
    else if r.SpanStart? then CleanBegin(d, r)
    else CleanConclude(CleanBegin(d, r), r)
  }

  ghost function CleanRun(d: Digest, rs: seq<Record>): Digest
    decreases |rs|
  {
    if rs == [] then d else CleanRun(CleanAccept(d, rs[0]), rs[1..])
  }

  // ---- one record against the reference machine -----------------------------------------

  lemma DigestDescribed(st: State, st': State, k: Key, added: set<LinkKey>)
    requires Ledger(st) && Described(st, st', k, added)
    ensures DigestOf(st') == WithLinks(DigestOf(st), k, added)
  {
  }

  lemma DigestRetired(st: State, st': State, k: Key)
    requires k in st.open.items && Retired(st, st', k)
    ensures DigestOf(st') == DigestOf(st).(st := st'.(log := []))
  {
  }

  lemma DigestSame(st: State, st': State)
    requires st' == st.(log := st'.log) && Replay(st'.log) == Replay(st.log)
    ensures DigestOf(st') == DigestOf(st)
  {
  }

  lemma DigestBegin(tr: Tracer, st: State, r: Record, incomplete: bool)
    requires !r.SpanEvent? && Sound(st) && !Known(st, r.key)
    ensures var s := Begin(tr, st, r, incomplete);
            DigestOf(s.st) == if s.ok then CleanBegin(DigestOf(st), r) else DigestOf(st)
  {
    hide Begin, Ledger, Anchored;
    SoundFacts(st, r.key);
    BeginLedger(tr, st, r, incomplete);
    var s := Begin(tr, st, r, incomplete);
    if s.ok {
      assert DigestOf(s.st).spans == CleanBegin(DigestOf(st), r).spans;
    }
  }

  lemma {:induction false} SweptOpen(tr: Tracer, st: State, keys: seq<Key>, timeMs: int)
    requires st.open.Valid()
    ensures var st' := FinalizeKeys(tr, st, keys, timeMs);
            st'.open == RemoveAll(st.open, keys) && st'.open.Valid()
    decreases |keys|
  {
    if keys != [] {
      var k, mid := keys[0], FinalizeKey(tr, st, keys[0], timeMs);
      assert mid.open == st.open.Remove(k) by { FinalizeKeyOpen(tr, st, k, timeMs); }
      SweptOpen(tr, mid, keys[1..], timeMs);
    }
  }

  lemma FinalizeKeyOpen(tr: Tracer, st: State, k: Key, timeMs: int)
    requires st.open.Valid()
    ensures FinalizeKey(tr, st, k, timeMs).open == st.open.Remove(k)
  {
    if k in st.open.items {
      CallsKeepOpen(tr, st, CleanupOps(st.open.items[k].span, timeMs));
    } else {
      assert st.open.items - {k} == st.open.items;
    }
  }

  lemma {:induction false} CallsKeepOpen(tr: Tracer, st: State, ops: seq<Op>)
    ensures InvokeAll(tr, st, ops).st.open == st.open
    decreases |ops|
  {
    if ops != [] {
      var s := Invoke(tr, st, ops[0]);
      if s.ok { CallsKeepOpen(tr, s.st, ops[1..]); }
    }
  }

  lemma DigestSwept(st: State, st': State, keys: seq<Key>, quiet: bool)
    requires Swept(st, st', keys, quiet) && st'.open == RemoveAll(st.open, keys)
    ensures DigestOf(st') == DigestOf(st).(st := st.(open := RemoveAll(st.open, keys),
                                                    contexts := st.contexts - (set k | k in keys), log := []))
  {
  }

  lemma DigestClose(tr: Tracer, st: State, r: Record)
    requires r.SpanEnd? && Sound(st.(open := st.open.Remove(r.key))) && r.key in st.contexts
    ensures DigestOf(Close(tr, st, r)) == CleanClose(DigestOf(st), r)
  {
    hide Ledger, Anchored, Swept, RemoveAll, FinalizeKeys, Remember;
    if IsRunEnd(r) {
      var st0, keys := st.(open := st.open.Remove(r.key)), st.traceKeys[r.key.trace];
      var st1 := st0.(recents := Remember(st0.recents, r.key, st0.contexts[r.key]));
      LedgerIgnoresContexts(st0, st1);
      SweepAll(tr, st1, keys, r.endMs);
      assert st1.open.Valid() by { LedgerOpen(st1); }
      SweptOpen(tr, st1, keys, r.endMs);
      DigestSwept(st1, FinalizeKeys(tr, st1, keys, r.endMs), keys, NeverThrows(tr));
    }
  }

  lemma LedgerOpen(st: State)
    requires Ledger(st)
    ensures st.open.Valid()
  {
  }

  /** Links added by a failed attempt are among those the retry would add. */
  lemma RetryAddsTheRest(d: Digest, r: Record, added: set<LinkKey>)
    requires r.SpanEnd? && r.key in d.st.open.items && added <= LinkKeys(r.links)
    ensures r.key in WithLinks(d, r.key, added).st.open.items
    ensures CleanConclude(WithLinks(d, r.key, added), r) == CleanConclude(d, r)
  {
    var all := LinkKeys(r.links);
    var e := d.st.open.items[r.key];
    assert e.linkKeys + added + all == e.linkKeys + all;
    assert WithLinks(WithLinks(d, r.key, added), r.key, all) == WithLinks(d, r.key, all);
  }

  lemma ConcludeRefines(tr: Tracer, st: State, r: Record)
    requires r.SpanEnd? && Sound(st) && r.key in st.open.items
    ensures var s := Conclude(tr, st, r);
            if s.ok then DigestOf(s.st) == CleanConclude(DigestOf(st), r)
            else r.key in s.st.open.items && CleanConclude(DigestOf(s.st), r) == CleanConclude(DigestOf(st), r)
  {
    hide Sound, Describe, Described, Retired, EndedSpan, Invoke, Close, DigestOf, CleanConclude, CleanClose;
    var k, span := r.key, st.open.items[r.key].span;
    assert k in DigestOf(st).st.open.items by { DigestOpens(st); }
    ConcludeStages(tr, st, r);
    var d := Describe(tr, st, r);
    var added := DescribeAdds(tr, st, r);
    RetryAddsTheRest(DigestOf(st), r, added);
    if d.ok {
      RetryAddsTheRest(DigestOf(st), r, LinkKeys(r.links));
      EndRefines(tr, st, d.st, r, span);
    }
  }

  lemma DigestOpens(st: State)
    ensures DigestOf(st).st == st.(log := [])
  {
  }

  lemma {:induction false} DescribeAdds(tr: Tracer, st: State, r: Record) returns (added: set<LinkKey>)
    requires r.SpanEnd? && Sound(st) && r.key in st.open.items
    ensures var d := Describe(tr, st, r);
            && added <= LinkKeys(r.links) && (d.ok ==> added == LinkKeys(r.links))
            && r.key in d.st.open.items && d.st.open.items[r.key].span == st.open.items[r.key].span
            && DigestOf(d.st) == WithLinks(DigestOf(st), r.key, added)
  {
    hide LinksOnly, Ledger, DigestOf, WithLinks;
    DescribeKeeps(tr, st, r);
    var d := Describe(tr, st, r);
    if d.ok { added := LinkKeys(r.links); }
    else { added :| added <= LinkKeys(r.links) && Described(st, d.st, r.key, added); }
    DigestOpens(st);
    DigestDescribed(st, d.st, r.key, added);
  }

  lemma {:induction false} EndRefines(tr: Tracer, st: State, mid: State, r: Record, span: Span)
    requires r.SpanEnd? && Sound(mid) && r.key in mid.open.items && mid.open.items[r.key].span == span
    requires r.key in DigestOf(st).st.open.items && DigestOf(mid) == WithLinks(DigestOf(st), r.key, LinkKeys(r.links))
    ensures var e := Invoke(tr, mid, EndSpan(span, r.endMs));
            if e.ok then DigestOf(Close(tr, e.st, r)) == CleanConclude(DigestOf(st), r)
            else r.key in e.st.open.items && DigestOf(e.st) == DigestOf(mid)
  {
    hide Ledger, Indexed, Anchored, Close, CleanClose, Retired;
    EndedSound(tr, mid, r.key, r.endMs);
    FinalEnd(tr, mid, r.key, r.endMs);
    var e := Invoke(tr, mid, EndSpan(span, r.endMs));
    if e.ok {
      DigestClose(tr, e.st, r);
      var st0 := e.st.(open := e.st.open.Remove(r.key));
      DigestRetired(mid, st0, r.key);
      assert DigestOf(e.st) == DigestOf(mid);
    } else {
      DigestSame(mid, e.st);
    }
  }

  /** A record that is accepted does to the digest what the reference machine does; one that
      throws leaves a digest from which the reference machine still gets to the same place. */
  lemma {:induction false} AcceptRefines(tr: Tracer, st: State, r: Record)
    requires Sound(st)
    ensures var s := Accept(tr, st, r);
            if s.ok then DigestOf(s.st) == CleanAccept(DigestOf(st), r)
            else CleanAccept(DigestOf(s.st), r) == CleanAccept(DigestOf(st), r)
  {
    hide Sound, Begin, Conclude, DigestOf, CleanConclude, CleanBegin;
    SoundFacts(st, r.key);
    DigestOpens(st);
    match r
    case SpanStart(_, _, _, _, _, _) => if !Known(st, r.key) { DigestBegin(tr, st, r, false); }
    case SpanEvent(_, _, _, _) =>
      if r.key in st.open.items {
        EventDigest(tr, st, r);
      }
    case SpanEnd(_, _, _, _, _, _, _, _, _) =>
      if r.key in st.open.items {
        ConcludeRefines(tr, st, r);
        DigestOpens(Conclude(tr, st, r).st);
      } else if !Known(st, r.key) {
        DigestBegin(tr, st, r, true);
        var s := Begin(tr, st, r, true);
        if s.ok {
          BeginKeeps(tr, st, r, true);
          BeginOpens(tr, st, r, true);
          DigestOpens(s.st);
          ConcludeRefines(tr, s.st, r);
          DigestOpens(Conclude(tr, s.st, r).st);
        }
      }
  }

  lemma EventDigest(tr: Tracer, st: State, r: Record)
    requires r.SpanEvent? && Sound(st) && r.key in st.open.items
    ensures DigestOf(Event(tr, st, r).st) == DigestOf(st)
  {
    PlainCalls(tr, st, r.key, EventOps(st.open.items[r.key], r));
    DigestSame(st, Event(tr, st, r).st);
  }

  // ---- whole deliveries -----------------------------------------------------------------

  /** At most `attempts` exports, each resuming after the records the previous one accepted. */
  function Deliver(tr: Tracer, st: State, rs: seq<Record>, attempts: nat): (State, seq<Record>)
    decreases attempts
  {
    if attempts == 0 || rs == [] then (st, rs)
    else
      var x := Export(tr, st, rs);
      Deliver(tr, x.st, if x.exported <= |rs| then rs[x.exported..] else [], attempts - 1)
  }

  lemma {:induction false} ExportRefines(tr: Tracer, st: State, rs: seq<Record>)
    requires Sound(st)
    ensures var x := Export(tr, st, rs);
            && Sound(x.st) && x.exported <= |rs|
            && CleanRun(DigestOf(x.st), rs[x.exported..]) == CleanRun(DigestOf(st), rs)
    decreases |rs|
  {
    hide Sound, Accept, DigestOf, CleanAccept;
    if rs != [] {
      var s := Accept(tr, st, rs[0]);
      AcceptKeeps(tr, st, rs[0]);
      AcceptRefines(tr, st, rs[0]);
      if s.ok {
        ExportRefines(tr, s.st, rs[1..]);
        var rest := Export(tr, s.st, rs[1..]);
        assert rs[1..][rest.exported..] == rs[rest.exported + 1..];
      } else {
        assert rs[0..] == rs;
      }
    }
  }

  lemma {:induction false} DeliverRefines(tr: Tracer, st: State, rs: seq<Record>, attempts: nat)
    requires Sound(st)
    ensures var (st', rest) := Deliver(tr, st, rs, attempts);
            CleanRun(DigestOf(st'), rest) == CleanRun(DigestOf(st), rs)
    decreases attempts
  {
    hide Sound, Export, DigestOf, CleanRun;
    if attempts > 0 && rs != [] {
      ExportRefines(tr, st, rs);
      var x := Export(tr, st, rs);
      DeliverRefines(tr, x.st, rs[x.exported..], attempts - 1);
    }
  }

  /** Once everything has been accepted, however many attempts failed and wherever they did,
      the four indexes and the links of every span are those of a delivery that never failed. */
  lemma {:induction false} RetriesConverge(tr: Tracer, calm: Tracer, st: State, rs: seq<Record>, attempts: nat)
    requires Sound(st) && NeverThrows(calm) && Deliver(tr, st, rs, attempts).1 == []
    ensures DigestOf(Deliver(tr, st, rs, attempts).0) == DigestOf(Export(calm, st, rs).st)
  {
    hide Sound, Export, DigestOf, Accept;
    DeliverRefines(tr, st, rs, attempts);
    ExportRefines(calm, st, rs);
    ExportCounts(calm, st, rs);
    var x := Export(calm, st, rs);
    if x.code != None { NeverThrowingAccepts(calm, Exec(calm, st, Offers(rs[..x.exported])), rs[x.exported]); }
    assert rs[x.exported..] == [];
  }

  /** One failed export, resumed once with a tracer that does not throw. */
  lemma {:induction false} ResumeAfterFailure(tr: Tracer, calm: Tracer, st: State, rs: seq<Record>)
    requires Sound(st) && NeverThrows(calm)
    ensures var x := Export(tr, st, rs);
            && x.exported <= |rs|
            && DigestOf(Export(calm, x.st, rs[x.exported..]).st) == DigestOf(Export(calm, st, rs).st)
  {
    hide Sound, Export, DigestOf, Accept;
    ExportRefines(tr, st, rs);
    var x := Export(tr, st, rs);
    CalmExport(calm, x.st, rs[x.exported..]);
    CalmExport(calm, st, rs);
  }

  lemma {:induction false} CalmExport(calm: Tracer, st: State, rs: seq<Record>)
    requires Sound(st) && NeverThrows(calm)
    ensures DigestOf(Export(calm, st, rs).st) == CleanRun(DigestOf(st), rs)
  {
    hide Sound, Export, DigestOf, Accept;
    ExportRefines(calm, st, rs);
    ExportCounts(calm, st, rs);
    var x := Export(calm, st, rs);
    if x.code != None { NeverThrowingAccepts(calm, Exec(calm, st, Offers(rs[..x.exported])), rs[x.exported]); }
    assert rs[x.exported..] == [];
  }
}
