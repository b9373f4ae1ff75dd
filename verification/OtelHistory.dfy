/** Conservation and duplicate suppression over whole runs. */
module OtelHistory {
  import opened Collections
  import opened OtelRecords
  import opened OtelSpec
  import opened OtelLedger
  import opened OtelInvariants
  import opened OtelEffects
  import opened OtelTrail
  import opened OtelRuns

  // ---- conservation -------------------------------------------------------------------

  /** Every recorded outcome is the one the tracer chose. */
  ghost predicate Recorded(tr: Tracer, st: State) {
    forall i :: 0 <= i < |st.log| ==> st.log[i].ok == !tr(i)
  }

  lemma {:induction false} ExecRecorded(tr: Tracer, cs: seq<Command>)
    ensures Recorded(tr, Exec(tr, INIT, cs))
  {
    hide Sound;
    InitSound();
    if cs != [] {
      var mid := Exec(tr, INIT, cs[..|cs| - 1]);
      ExecRecorded(tr, cs[..|cs| - 1]);
      ExecSound(tr, INIT, cs[..|cs| - 1]);
      match cs[|cs| - 1]
      case Offer(r) => AcceptTraced(tr, mid, r); RecordedTrail(tr, mid, Accept(tr, mid, r).st);
      case Stop(timeMs) =>
        SoundNamed(mid);
        AllQuietly(tr, mid, mid.open.order, timeMs);
        RecordedTrail(tr, mid, Shutdown(tr, mid, timeMs));
    }
  }

  lemma RecordedTrail(tr: Tracer, st: State, st': State)
    requires Recorded(tr, st) && st.log <= st'.log
    requires forall i :: |st.log| <= i < |st'.log| ==> st'.log[i].ok == !tr(i)
    ensures Recorded(tr, st')
  {
  }

  lemma {:induction false} NothingLost(log: seq<Call>, n: nat)
    requires forall i :: 0 <= i < |log| ==> log[i].ok
    requires n < |Replay(log)|
    ensures !Replay(log)[n].lost
  {
    var shorter := log[..|log| - 1];
    if n < |Replay(shorter)| { NothingLost(shorter, n); }
  }

  function Below(n: nat): (r: set<int>)
    ensures |r| == n && forall i :: i in r <==> 0 <= i < n
  {
    if n == 0 then {} else Below(n - 1) + {n - 1}
  }

  function ClosedIds(spans: seq<SpanView>): set<int> {
    set n | n in Below(|spans|) && spans[n].Closed()
  }

  /** A set of keys has as many members as its image under an injective naming. */
  lemma {:induction false} CountImage(keys: set<Key>, image: set<int>, name: map<Key, int>)
    requires name.Keys == keys && image == name.Values
    requires forall j, k :: j in keys && k in keys && name[j] == name[k] ==> j == k
    ensures |image| == |keys|
  {
    if keys != {} {
      var k :| k in keys;
      var rest := name - {k};
      forall i | i in image && i != name[k] ensures i in rest.Values {
        var j :| j in name && name[j] == i;
        assert rest[j] == i;
      }
      assert name[k] !in rest.Values;
      assert image == rest.Values + {name[k]};
      CountImage(keys - {k}, rest.Values, rest);
    }
  }

  function OpenNames(st: State): map<Key, int> {
    map k | k in st.open.items :: st.open.items[k].span.id
  }

  function OpenIds(st: State): set<int> {
    OpenNames(st).Values
  }

  lemma OpenIdsAreAlive(st: State)
    requires Ledger(st)
    ensures forall n :: n in OpenIds(st) <==> 0 <= n < |Replay(st.log)| && !Replay(st.log)[n].Closed()
    ensures |OpenIds(st)| == |st.open.items|
  {
    hide Replay, Lawful;
    var spans := Replay(st.log);
    forall k | k in st.open.items ensures OpenIn(st, spans, k) {
    }
    forall n | 0 <= n < |spans| && !spans[n].Closed() ensures n in OpenIds(st) {
      assert Alive(st, spans[n]);
      assert OpenNames(st)[spans[n].span.key] == n;
    }
    CountImage(st.open.items.Keys, OpenIds(st), OpenNames(st));
    assert |st.open.items.Keys| == |st.open.items|;
  }

  /** Spans created = spans closed + spans in the open index. */
  lemma OpenPlusClosed(st: State)
    requires Ledger(st)
    ensures |ClosedIds(Replay(st.log))| + |st.open.items| == st.created
  {
    hide Ledger;
    var spans := Replay(st.log);
    OpenIdsAreAlive(st);
    assert Below(|spans|) == ClosedIds(spans) + OpenIds(st);
    assert ClosedIds(spans) !! OpenIds(st);
    assert |spans| == st.created by { LedgerCount(st); }
  }

  lemma LedgerCount(st: State)
    requires Ledger(st)
    ensures |Replay(st.log)| == st.created
  {
  }

  /** Conservation over every run: every span created is open or closed, never both; closed
      means ended, or lost to a cleanup call that threw; a tracer that never throws loses none. */
  lemma {:induction false} SpanConservation(tr: Tracer, cs: seq<Command>)
    ensures var st, spans := Exec(tr, INIT, cs), Replay(Exec(tr, INIT, cs).log);
            && |spans| == st.created
            && |ClosedIds(spans)| + |st.open.items| == st.created
            && (forall n :: 0 <= n < |spans| ==> (Alive(st, spans[n]) <==> !spans[n].Closed()))
            && (NeverThrows(tr) ==> forall n :: 0 <= n < |spans| ==> !spans[n].lost)
  {
    var st := Exec(tr, INIT, cs);
    InitSound();
    ExecSound(tr, INIT, cs);
    OpenPlusClosed(st);
    forall n | 0 <= n < |Replay(st.log)| && Alive(st, Replay(st.log)[n])
      ensures !Replay(st.log)[n].Closed()
    {
      assert OpenIn(st, Replay(st.log), Replay(st.log)[n].span.key);
    }
    if NeverThrows(tr) {
      ExecRecorded(tr, cs);
      forall n: nat | n < |Replay(st.log)| ensures !Replay(st.log)[n].lost { NothingLost(st.log, n); }
    }
  }

  /** After a shutdown with a tracer that never throws, every span of the run has been ended
      (exactly once, by `NoCallAfterEnd`). */
  lemma ShutdownEndsEverySpan(tr: Tracer, cs: seq<Command>, timeMs: int)
    requires NeverThrows(tr)
    ensures var spans := Replay(Exec(tr, INIT, cs + [Stop(timeMs)]).log);
            forall n :: 0 <= n < |spans| ==> spans[n].ended
  {
    hide Sound, Replay, Shutdown;
    InitSound();
    ExecSound(tr, INIT, cs);
    SpanConservation(tr, cs);
    ShutdownEndsAll(tr, Exec(tr, INIT, cs), timeMs);
    assert (cs + [Stop(timeMs)])[..|cs|] == cs;
  }

  // ---- duplicates ---------------------------------------------------------------------

  /** A shutdown, or a run end of the trace that goes through. */
  predicate Closes(tr: Tracer, st: State, c: Command, t: string) {
    c.Stop? || (c.record.key.trace == t && Completes(tr, st, c.record))
  }

  /** No command closes the trace; run ends that throw or are dropped may be among them. */
  ghost predicate Unfinalised(tr: Tracer, st: State, cs: seq<Command>, t: string) {
    forall i :: 0 <= i < |cs| ==> !Closes(tr, Exec(tr, st, cs[..i]), cs[i], t)
  }

  lemma SettledStep(tr: Tracer, st: State, r: Record, k: Key)
    requires Sound(st) && k in st.contexts && !(r.key.trace == k.trace && Completes(tr, st, r))
    ensures var st' := Accept(tr, st, r).st;
            k in st'.contexts && (k !in st.open.items ==> k !in st'.open.items)
  {
    hide Sound;
    AcceptEffect(tr, st, r);
    var st' := Accept(tr, st, r).st;
    if r.key != k && !Completes(tr, st, r) {
      Elsewhere(st.contexts, st'.contexts, r.key, k);
      Elsewhere(st.open.items, st'.open.items, r.key, k);
    }
  }

  lemma {:induction false} Settled(tr: Tracer, st: State, cs: seq<Command>, k: Key)
    requires Sound(st) && k in st.contexts && Unfinalised(tr, st, cs, k.trace)
    ensures var st' := Exec(tr, st, cs);
            Sound(st') && k in st'.contexts && (k !in st.open.items ==> k !in st'.open.items)
  {
    hide Sound, Completes;
    if cs != [] {
      var shorter, c := cs[..|cs| - 1], cs[|cs| - 1];
      var mid := Exec(tr, st, shorter);
      forall i | 0 <= i < |shorter| ensures shorter[..i] == cs[..i] {
      }
      Settled(tr, st, shorter, k);
      assert !Closes(tr, mid, c, k.trace);
      SettledStep(tr, mid, c.record, k);
      AcceptKeeps(tr, mid, c.record);
    }
  }

  lemma {:induction false} AcceptedIsKnown(tr: Tracer, st: State, r: Record)
    requires Sound(st) && !r.SpanEvent? && !IsRunEnd(r) && r.key !in st.recents.items && Accept(tr, st, r).ok
    ensures var st' := Accept(tr, st, r).st;
            r.key in st'.contexts && (r.SpanEnd? ==> r.key !in st'.open.items)
  {
    hide Sound, Begin, Touched, RunFinished;
    SoundFacts(st, r.key);
    if r.SpanEnd? {
      var s := if r.key in st.open.items then Step(st, true) else Begin(tr, st, r, true);
      if r.key in st.open.items || !Known(st, r.key) {
        if r.key !in st.open.items { BeginKeeps(tr, st, r, true); BeginOpens(tr, st, r, true); }
        EndedIsKnown(tr, s.st, r);
      }
    } else if !Known(st, r.key) {
      BeginOpens(tr, st, r, false);
    }
  }

  lemma EndedIsKnown(tr: Tracer, st: State, r: Record)
    requires r.SpanEnd? && !IsRunEnd(r) && Sound(st) && r.key in st.open.items && Conclude(tr, st, r).ok
    ensures var st' := Conclude(tr, st, r).st; r.key in st'.contexts && r.key !in st'.open.items
  {
    hide Sound, Describe, Described, Retired, EndedSpan, Invoke;
    ConcludeStages(tr, st, r);
  }

  /** Redelivering the start of a span, or the end of a span that has ended, makes no tracer
      call and changes nothing as long as its trace is unfinalised. */
  lemma DuplicateSuppressed(tr: Tracer, st: State, r: Record, cs: seq<Command>, again: Record)
    requires Sound(st) && !r.SpanEvent? && !IsRunEnd(r)
    requires r.key !in st.recents.items && Accept(tr, st, r).ok
    requires Unfinalised(tr, Accept(tr, st, r).st, cs, r.key.trace)
    requires again.key == r.key && (again.SpanStart? || (again.SpanEnd? && r.SpanEnd?))
    ensures var late := Exec(tr, Accept(tr, st, r).st, cs);
            Accept(tr, late, again) == Step(late, true)
  {
    AcceptedIsKnown(tr, st, r);
    AcceptKeeps(tr, st, r);
    Settled(tr, Accept(tr, st, r).st, cs, r.key);
  }

  /** The roots whose run ends went through since the last shutdown, oldest first. */
  function RunEnds(tr: Tracer, cs: seq<Command>): seq<Key> {
    if cs == [] then []
    else
      match cs[|cs| - 1]
      case Stop(_) => []
      case Offer(r) =>
        var before := RunEnds(tr, cs[..|cs| - 1]);
        if Completes(tr, Exec(tr, INIT, cs[..|cs| - 1]), r) then before + [r.key] else before
  }

  /** The recent roots are exactly the last 256 completed run ends since shutdown, in order. */
  lemma {:induction false} RecentsAreLastRunEnds(tr: Tracer, cs: seq<Command>)
    ensures Exec(tr, INIT, cs).recents.order == LastN(RunEnds(tr, cs), 256)
  {
    hide Sound;
    InitSound();
    if cs != [] {
      var mid := Exec(tr, INIT, cs[..|cs| - 1]);
      RecentsAreLastRunEnds(tr, cs[..|cs| - 1]);
      ExecSound(tr, INIT, cs[..|cs| - 1]);
      match cs[|cs| - 1]
      case Offer(r) =>
        AcceptEffect(tr, mid, r);
        if Completes(tr, mid, r) {
          LastNAppend(RunEnds(tr, cs[..|cs| - 1]), r.key, 256);
        }
      case Stop(timeMs) => ShutdownEndsAll(tr, mid, timeMs);
    }
  }

  /** A run end that goes through, in any run, is that of a root not remembered: the delete that
      precedes the write never removes anything. */
  lemma RunEndIsNew(tr: Tracer, cs: seq<Command>, r: Record)
    requires Completes(tr, Exec(tr, INIT, cs), r)
    ensures var st := Exec(tr, INIT, cs); r.key !in st.recents.items && st.recents.Remove(r.key) == st.recents
  {
    hide Accept;
    var st := Exec(tr, INIT, cs);
    InitSound();
    ExecSound(tr, INIT, cs);
    assert st.recents.items - {r.key} == st.recents.items;
  }

  /** A start or end of a root among the last 256 finished runs is dropped without a call. */
  lemma {:induction false} RecentRootSuppressed(tr: Tracer, cs: seq<Command>, again: Record)
    requires !again.SpanEvent?
    requires again.key in LastN(RunEnds(tr, cs), 256)
    ensures var st := Exec(tr, INIT, cs); Accept(tr, st, again) == Step(st, true)
  {
    var st := Exec(tr, INIT, cs);
    InitSound();
    ExecSound(tr, INIT, cs);
    RecentsAreLastRunEnds(tr, cs);
    assert again.key in st.recents.items;
  }

  // ---- exactly which spans are known, and which redeliveries are dropped ------------------

  /** How many spans had been created when the trace was last closed. */
  function Base(tr: Tracer, cs: seq<Command>, t: string): nat {
    if cs == [] then 0
    else
      var init, c := cs[..|cs| - 1], cs[|cs| - 1];
      if Closes(tr, Exec(tr, INIT, init), c, t) then |Replay(Exec(tr, INIT, cs).log)| else Base(tr, init, t)
  }

  /** The contexts of the trace are those of its spans from number `base` on, one for each key. */
  ghost predicate Current(st: State, t: string, base: nat) {
    var spans := Replay(st.log);
    && (forall k: Key :: k.trace == t && k in st.contexts ==> st.contexts[k].id >= base)
    && (forall n :: base <= n < |spans| && spans[n].span.key.trace == t ==>
          spans[n].span.key in st.contexts && st.contexts[spans[n].span.key].id == n)
  }

  /** Any record but a completed run end of the trace. */
  lemma CurrentStep(tr: Tracer, st: State, r: Record, t: string, base: nat)
    requires Sound(st) && Current(st, t, base) && base <= |Replay(st.log)|
    requires !(r.key.trace == t && Completes(tr, st, r))
    ensures Current(Accept(tr, st, r).st, t, base) && |Replay(st.log)| <= |Replay(Accept(tr, st, r).st.log)|
  {
    hide Sound, Accept, Replay, Completes;
    var st' := Accept(tr, st, r).st;
    var spans, spans' := Replay(st.log), Replay(st'.log);
    AcceptEffect(tr, st, r);
    if !Completes(tr, st, r) {
      forall k: Key | k.trace == t && k != r.key
        ensures (k in st'.contexts <==> k in st.contexts) && (k in st.contexts ==> st'.contexts[k] == st.contexts[k])
      {
        Elsewhere(st.contexts, st'.contexts, r.key, k);
      }
    }
  }

  /** A command that closes the trace leaves nothing of it known. */
  lemma CurrentClosed(tr: Tracer, st: State, c: Command, t: string)
    requires Sound(st) && Closes(tr, st, c, t)
    ensures Current(Do(tr, st, c), t, |Replay(Do(tr, st, c).log)|)
  {
    hide Sound, Accept, Shutdown, Replay, Completes;
    match c
    case Offer(r) => AcceptEffect(tr, st, r);
    case Stop(timeMs) => ShutdownEndsAll(tr, st, timeMs);
  }

  lemma {:induction false} StaysCurrent(tr: Tracer, cs: seq<Command>, t: string)
    ensures var st := Exec(tr, INIT, cs);
            Sound(st) && Current(st, t, Base(tr, cs, t)) && Base(tr, cs, t) <= |Replay(st.log)|
  {
    hide Sound, Current, Do, Replay, Closes;
    InitSound();
    ExecSound(tr, INIT, cs);
    if cs == [] {
      NothingCurrent(t);
    } else {
      var init, c := cs[..|cs| - 1], cs[|cs| - 1];
      StaysCurrent(tr, init, t);
      var st := Exec(tr, INIT, init);
      if Closes(tr, st, c, t) { CurrentClosed(tr, st, c, t); } else { CurrentOffered(tr, st, c, t, Base(tr, init, t)); }
    }
  }

  lemma CurrentOffered(tr: Tracer, st: State, c: Command, t: string, base: nat)
    requires Sound(st) && Current(st, t, base) && base <= |Replay(st.log)| && !Closes(tr, st, c, t)
    ensures Current(Do(tr, st, c), t, base) && base <= |Replay(Do(tr, st, c).log)|
  {
    hide Sound, Current, Accept, Replay;
    CurrentStep(tr, st, c.record, t, base);
  }

  lemma NothingCurrent(t: string)
    ensures Current(INIT, t, 0)
  {
  }

  /** The tracer was given a span of `k` since the trace was last closed. */
  ghost predicate Recreated(tr: Tracer, cs: seq<Command>, k: Key, closed: bool) {
    var spans := Replay(Exec(tr, INIT, cs).log);
    exists n :: Base(tr, cs, k.trace) <= n < |spans| && spans[n].span.key == k && (closed ==> spans[n].Closed())
  }

  /** For any tracer and any run, late records and shutdowns included: the known keys are those that
      got a span since their trace was last closed, the open ones those whose span is not closed. */
  lemma KnownExactly(tr: Tracer, cs: seq<Command>, k: Key)
    ensures var st := Exec(tr, INIT, cs);
            && (k in st.contexts <==> Recreated(tr, cs, k, false))
            && (k in st.contexts && k !in st.open.items <==> Recreated(tr, cs, k, true))
  {
    hide Exec, Replay, Base, Sound;
    var st := Exec(tr, INIT, cs);
    StaysCurrent(tr, cs, k.trace);
    KeySpan(st, k);
  }

  lemma KeySpan(st: State, k: Key)
    requires Sound(st)
    ensures k in st.contexts ==>
            var spans, id := Replay(st.log), st.contexts[k].id;
            id < |spans| && spans[id].span.key == k && (k in st.open.items <==> !spans[id].Closed())
  {
    if k in st.open.items { assert OpenIn(st, Replay(st.log), k); }
  }

  /** A start does nothing exactly when its key is known, an end exactly when its key is known and
      not open. */
  lemma DroppedExactly(tr: Tracer, st: State, r: Record)
    requires Sound(st) && !r.SpanEvent?
    ensures Accept(tr, st, r) == Step(st, true) <==> Known(st, r.key) && (r.SpanEnd? ==> r.key !in st.open.items)
  {
    hide Sound, Begin, Conclude;
    SoundFacts(st, r.key);
    RememberedIsFinished(st, r.key);
    if !(Known(st, r.key) && (r.SpanEnd? ==> r.key !in st.open.items)) && Accept(tr, st, r).ok {
      if IsRunEnd(r) {
        RunEndMoves(tr, st, r);
      } else {
        AcceptedIsKnown(tr, st, r);
      }
    }
  }

  lemma RunEndMoves(tr: Tracer, st: State, r: Record)
    requires Sound(st) && Completes(tr, st, r)
    ensures Accept(tr, st, r).st != st
  {
    hide Accept;
    AcceptEffect(tr, st, r);
    var order := Accept(tr, st, r).st.recents.order;
    assert order[|order| - 1] == (st.recents.order + [r.key])[|st.recents.order|] == r.key;
  }

  /** When a start or end delivered again does nothing, in any run with any tracer: exactly when its
      root is among the last 256 finished runs, or its key got a span since its trace was last
      closed, which for an end must be closed. */
  lemma RedeliveryExactly(tr: Tracer, cs: seq<Command>, again: Record)
    requires !again.SpanEvent?
    ensures var st := Exec(tr, INIT, cs);
            Accept(tr, st, again) == Step(st, true) <==>
            again.key in LastN(RunEnds(tr, cs), 256)
            || Recreated(tr, cs, again.key, again.SpanEnd?)
  {
    hide Exec, Recreated, RunEnds, Accept, Sound, LastN;
    var st := Exec(tr, INIT, cs);
    InitSound();
    ExecSound(tr, INIT, cs);
    DroppedExactly(tr, st, again);
    RecentsAreLastRunEnds(tr, cs);
    KnownExactly(tr, cs, again.key);
    RememberedIsFinished(st, again.key);
  }

  lemma RememberedIsFinished(st: State, k: Key)
    requires Sound(st)
    ensures k in st.recents.items <==> k in st.recents.order
    ensures k in st.recents.items ==> k !in st.contexts && k !in st.open.items
  {
  }

  /** For any tracer and any run: the open, context and trace indexes are all empty exactly when every
      span ever created is older than the last closing of its trace. */
  lemma EmptyExactly(tr: Tracer, cs: seq<Command>)
    ensures var st := Exec(tr, INIT, cs); var spans := Replay(st.log);
            (st.open.items == map[] && st.contexts == map[] && st.traceKeys == map[]) <==>
            forall n :: 0 <= n < |spans| ==> n < Base(tr, cs, spans[n].span.key.trace)
  {
    hide Exec, Replay, Base, Sound;
    var st := Exec(tr, INIT, cs);
    var spans := Replay(st.log);
    InitSound();
    ExecSound(tr, INIT, cs);
    EmptyTogether(st);
    if k :| k in st.contexts { var _ := RecentSpan(tr, cs, k); }
    if n :| 0 <= n < |spans| && n >= Base(tr, cs, spans[n].span.key.trace) { RecentKnown(tr, cs, n); }
  }

  lemma RecentSpan(tr: Tracer, cs: seq<Command>, k: Key) returns (n: nat)
    requires k in Exec(tr, INIT, cs).contexts
    ensures var spans := Replay(Exec(tr, INIT, cs).log);
            n < |spans| && n >= Base(tr, cs, spans[n].span.key.trace)
  {
    hide Exec, Replay, Base;
    KnownExactly(tr, cs, k);
    var spans := Replay(Exec(tr, INIT, cs).log);
    n :| Base(tr, cs, k.trace) <= n < |spans| && spans[n].span.key == k;
  }

  lemma RecentKnown(tr: Tracer, cs: seq<Command>, n: nat)
    requires n < |Replay(Exec(tr, INIT, cs).log)| && n >= Base(tr, cs, Replay(Exec(tr, INIT, cs).log)[n].span.key.trace)
    ensures Exec(tr, INIT, cs).contexts != map[]
  {
    hide Exec, Replay, Base;
    var k := Replay(Exec(tr, INIT, cs).log)[n].span.key;
    assert Recreated(tr, cs, k, false);
    KnownExactly(tr, cs, k);
  }

  lemma EmptyTogether(st: State)
    requires Sound(st)
    ensures st.traceKeys != map[] || st.open.items != map[] ==> st.contexts != map[]
  {
    if t :| t in st.traceKeys { assert st.traceKeys[t][0] in st.contexts; }
    if k :| k in st.open.items { assert k in st.contexts; }
  }

  // ---- tracers that never throw ----------------------------------------------------------

  lemma NeverThrowingAccepts(tr: Tracer, st: State, r: Record)
    requires NeverThrows(tr)
    ensures Accept(tr, st, r).ok
  {
    match r
    case SpanStart(_, _, _, _, _, _) =>
    case SpanEvent(_, _, _, _) =>
      if r.key in st.open.items { QuietCalls(tr, st, EventOps(st.open.items[r.key], r)); }
    case SpanEnd(_, _, _, _, _, _, _, _, _) =>
      if r.key in st.open.items {
        NeverThrowingConcludes(tr, st, r);
      } else if !Known(st, r.key) {
        NeverThrowingConcludes(tr, Begin(tr, st, r, true).st, r);
      }
  }

  lemma {:induction false} NeverThrowingLinks(tr: Tracer, st: State, k: Key, links: seq<Link>)
    requires NeverThrows(tr) && k in st.open.items
    ensures AddEndLinks(tr, st, k, links).ok
    decreases |links|
  {
    if links != [] {
      if KeyOf(links[0]) in st.open.items[k].linkKeys { NeverThrowingLinks(tr, st, k, links[1..]); }
      else {
        var s := Invoke(tr, st, AddLink(st.open.items[k].span, Resolve(st, links[0])));
        NeverThrowingLinks(tr, WithLink(s.st, k, KeyOf(links[0])), k, links[1..]);
      }
    }
  }

  lemma NeverThrowingConcludes(tr: Tracer, st: State, r: Record)
    requires NeverThrows(tr) && r.SpanEnd? && r.key in st.open.items
    ensures Conclude(tr, st, r).ok
  {
    var span := st.open.items[r.key].span;
    var s := Invoke(tr, st, SetAttributes(span, OfEnd(r)));
    NeverThrowingLinks(tr, s.st, r.key, r.links);
    QuietCalls(tr, AddEndLinks(tr, s.st, r.key, r.links).st, ClosingOps(span, r));
  }
}
