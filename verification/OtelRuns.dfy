/** Properties of whole runs: any records, in any order and batching, for any tracer. */
module OtelRuns {
  import opened Collections
  import opened OtelRecords
  import opened OtelSpec
  import opened OtelLedger
  import opened OtelInvariants
  import opened OtelEffects

  /** A run offers records one by one (an export is a run of offers) and may shut down. */
  datatype Command = Offer(record: Record) | Stop(timeMs: int)

  function Do(tr: Tracer, st: State, c: Command): State {
    match c
    case Offer(r) => Accept(tr, st, r).st
    case Stop(timeMs) => Shutdown(tr, st, timeMs)
  }

  function Exec(tr: Tracer, st: State, cs: seq<Command>): State {
    if cs == [] then st else Do(tr, Exec(tr, st, cs[..|cs| - 1]), cs[|cs| - 1])
  }

  lemma {:induction false} ExecSound(tr: Tracer, st: State, cs: seq<Command>)
    requires Sound(st)
    ensures Sound(Exec(tr, st, cs))
  {
    hide Sound;
    if cs != [] {
      var mid := Exec(tr, st, cs[..|cs| - 1]);
      ExecSound(tr, st, cs[..|cs| - 1]);
      match cs[|cs| - 1]
      case Offer(r) => AcceptKeeps(tr, mid, r);
      case Stop(timeMs) => ShutdownEndsAll(tr, mid, timeMs);
    }
  }

  /** The four indexes agree after every command of every run, for every tracer. */
  lemma IndexAgreement(tr: Tracer, cs: seq<Command>)
    ensures Indexed(Exec(tr, INIT, cs))
  {
    InitSound();
    ExecSound(tr, INIT, cs);
  }

  // ---- export -----------------------------------------------------------------------

  function Offers(rs: seq<Record>): (cs: seq<Command>)
    ensures |cs| == |rs| && forall i :: 0 <= i < |rs| ==> cs[i] == Offer(rs[i])
  {
    seq(|rs|, i requires 0 <= i < |rs| => Offer(rs[i]))
  }

  lemma {:induction false} ExecAfter(tr: Tracer, st: State, c: Command, cs: seq<Command>)
    ensures Exec(tr, st, [c] + cs) == Exec(tr, Do(tr, st, c), cs)
  {
    hide Do;
    if cs == [] {
      assert ([c] + cs)[..0] == [];
    } else {
      ExecAfter(tr, st, c, cs[..|cs| - 1]);
      assert ([c] + cs)[..|cs|] == [c] + cs[..|cs| - 1];
    }
  }

  /** A batch that fails reports exactly the records before the failing one, names the kind
      of record that failed, and has offered nothing after it. */
  lemma {:induction false} ExportCounts(tr: Tracer, st: State, rs: seq<Record>)
    ensures var x := Export(tr, st, rs);
            && (forall i :: 0 <= i < x.exported <= |rs| ==> Accept(tr, Exec(tr, st, Offers(rs[..i])), rs[i]).ok)
            && (if x.code == None then x.exported == |rs| && x.st == Exec(tr, st, Offers(rs))
                else
                  && x.exported < |rs|
                  && var before := Exec(tr, st, Offers(rs[..x.exported]));
                     && !Accept(tr, before, rs[x.exported]).ok
                     && x.st == Accept(tr, before, rs[x.exported]).st
                     && x.code == Some(match rs[x.exported]
                                       case SpanStart(_, _, _, _, _, _) => "OTEL_SPAN_START_FAILED"
                                       case SpanEvent(_, _, _, _) => "OTEL_SPAN_EVENT_FAILED"
                                       case SpanEnd(_, _, _, _, _, _, _, _, _) => "OTEL_SPAN_END_FAILED"))
    decreases |rs|
  {
    hide Accept, Exec;
    NothingOffered(tr, st, rs);
    if rs != [] && Accept(tr, st, rs[0]).ok {
      var s := Accept(tr, st, rs[0]).st;
      ExportCounts(tr, s, rs[1..]);
      forall i | 0 < i <= |rs| ensures Exec(tr, st, Offers(rs[..i])) == Exec(tr, s, Offers(rs[1..][..i - 1])) {
        FirstOffered(tr, st, rs, i);
      }
      assert rs[1..][..|rs| - 1] == rs[1..] && rs[..|rs|] == rs;
    }
  }

  lemma NothingOffered(tr: Tracer, st: State, rs: seq<Record>)
    ensures Exec(tr, st, Offers(rs[..0])) == st
  {
  }

  lemma FirstOffered(tr: Tracer, st: State, rs: seq<Record>, i: nat)
    requires 0 < i <= |rs|
    ensures Exec(tr, st, Offers(rs[..i])) == Exec(tr, Accept(tr, st, rs[0]).st, Offers(rs[1..][..i - 1]))
  {
    hide Accept, Exec;
    assert Offers(rs[..i]) == [Offer(rs[0])] + Offers(rs[1..][..i - 1]);
    ExecAfter(tr, st, Offer(rs[0]), Offers(rs[1..][..i - 1]));
  }

  // ---- what a lawful log means --------------------------------------------------------

  lemma {:induction false} LawfulPrefix(log: seq<Call>, n: nat)
    requires Lawful(log) && n < |log|
    ensures Lawful(log[..n]) && Legal(Replay(log[..n]), log[n])
  {
    if n < |log| - 1 {
      LawfulPrefix(log[..|log| - 1], n);
      assert log[..|log| - 1][..n] == log[..n];
    }
  }

  lemma {:induction false} ViewsOnlyGrow(log: seq<Call>, m: nat, id: nat)
    requires Lawful(log) && m <= |log| && id < |Replay(log[..m])|
    ensures id < |Replay(log)|
    ensures var v, v' := Replay(log[..m])[id], Replay(log)[id];
            && v'.span == v.span && v'.parent == v.parent && v.links <= v'.links
            && (v.ended ==> v'.ended) && (v.Closed() ==> v'.Closed())
  {
    if m == |log| {
      assert log[..m] == log;
    } else {
      var shorter := log[..|log| - 1];
      assert shorter[..m] == log[..m];
      ViewsOnlyGrow(shorter, m, id);
    }
  }

  /** Once `end` has returned for a span, no later call concerns that span: it is ended at
      most once and never touched again. */
  lemma NoCallAfterEnd(log: seq<Call>, i: nat, j: nat)
    requires Lawful(log) && i < j < |log|
    requires log[i].ok && log[i].op.EndSpan?
    ensures log[j].op.span.id != log[i].op.span.id
  {
    var id := log[i].op.span.id;
    LawfulPrefix(log, i);
    LawfulPrefix(log, j);
    assert log[..j][..i + 1] == log[..i + 1] && log[..i + 1][..i] == log[..i];
    ViewsOnlyGrow(log[..j], i + 1, id);
  }

  predicate Delivers(c: Call, id: nat, lk: LinkKey) {
    && c.ok && c.op.span.id == id
    && ((c.op.AddLink? && KeyOf(c.op.sent.link) == lk) || (c.op.StartSpan? && lk in SentKeys(c.op.links)))
  }

  /** A link that reached a span, with its start or later, is never sent to it again, not
      even by the retry of an `end` that failed half-way. */
  lemma NoLinkTwice(log: seq<Call>, i: nat, j: nat, id: nat, lk: LinkKey)
    requires Lawful(log) && i < j < |log| && Delivers(log[i], id, lk)
    ensures !(log[j].op.AddLink? && log[j].op.span.id == id && KeyOf(log[j].op.sent.link) == lk)
  {
    LawfulPrefix(log, i);
    LawfulPrefix(log, j);
    assert log[..j][..i + 1] == log[..i + 1] && log[..i + 1][..i] == log[..i];
    ViewsOnlyGrow(log[..j], i + 1, id);
  }

  /** Every parent edge points to an earlier-created span of the same trace, so the span
      graph is a forest, whatever the order of the records. */
  lemma {:induction false} ParentForest(log: seq<Call>, n: nat)
    requires Lawful(log) && n < |Replay(log)| && Replay(log)[n].parent.Some?
    ensures var v, p := Replay(log)[n], Replay(log)[n].parent.value;
            && v.span.id == n && p.id < n && Replay(log)[p.id].span == p
            && p.key.trace == v.span.key.trace
  {
    var shorter := log[..|log| - 1];
    if n < |Replay(shorter)| {
      ParentForest(shorter, n);
    }
  }

  function SentBy(op: Op): seq<SentLink> {
    match op
    case StartSpan(_, _, _, _, links) => links
    case AddLink(_, sent) => [sent]
    case _ => []
  }

  /** A parent or link context handed to the tracer is that of a span created before, under the
      very key that the record's parent id or the link names. */
  lemma EdgesAreNamed(log: seq<Call>, i: nat)
    requires Lawful(log) && i < |log|
    ensures var op, before, spans := log[i].op, Replay(log[..i]), Replay(log);
            && |before| <= |spans|
            && (op.StartSpan? && op.parent.Some? ==>
                  var p := op.parent.value;
                  && !op.record.SpanEvent? && ParentKey(op.record) == Some(p.key)
                  && p.id < |before| && spans[p.id].span == p)
            && (forall s :: s in SentBy(op) && s.context.Some? ==>
                  var x := s.context.value;
                  x.key == s.link.target && x.id < |before| && spans[x.id].span == x)
  {
    hide Lawful;
    LawfulPrefix(log, i);
    var before := Replay(log[..i]);
    forall id: nat | id < |before| ensures id < |Replay(log)| && Replay(log)[id].span == before[id].span {
      ViewsOnlyGrow(log, i, id);
    }
    if |before| > 0 { ViewsOnlyGrow(log, i, |before| - 1); }
  }

  /** The laws above hold of every call of every run. */
  lemma CallsAreLawful(tr: Tracer, cs: seq<Command>)
    ensures Lawful(Exec(tr, INIT, cs).log)
  {
    InitSound();
    ExecSound(tr, INIT, cs);
  }
}
