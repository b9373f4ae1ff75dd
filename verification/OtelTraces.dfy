/** One trace within a run: when it leaves the indexes, which spans it gets and which parent
    edges they have. */
module OtelTraces {
  import opened Collections
  import opened OtelRecords
  import opened OtelSpec
  import opened OtelLedger
  import opened OtelInvariants
  import opened OtelEffects
  import opened OtelTrail
  import opened OtelRuns
  import opened OtelHistory

  // ---- any tracer: a trace is indexed from its first span to its completed run end -------------

  function Before(tr: Tracer, rs: seq<Record>, j: nat): State
    requires j <= |rs|
  {
    Exec(tr, INIT, Offers(rs[..j]))
  }

  function After(tr: Tracer, rs: seq<Record>): State {
    Exec(tr, INIT, Offers(rs))
  }

  /** A run end of the trace went through. */
  ghost predicate RunCompleted(tr: Tracer, rs: seq<Record>, t: string) {
    exists j :: 0 <= j < |rs| && rs[j].key.trace == t && Completes(tr, Before(tr, rs, j), rs[j])
  }

  /** No record of the trace follows its completed run end. */
  ghost predicate NothingFollows(tr: Tracer, rs: seq<Record>, t: string) {
    forall i, j :: 0 <= i < j < |rs| && rs[i].key.trace == t && Completes(tr, Before(tr, rs, i), rs[i]) ==>
      rs[j].key.trace != t
  }

  ghost predicate HasSpan(spans: seq<SpanView>, k: Key) {
    exists n :: 0 <= n < |spans| && spans[n].span.key == k
  }

  ghost predicate Unindexed(st: State, t: string) {
    t !in st.traceKeys && forall k: Key :: k.trace == t ==> k !in st.contexts && k !in st.open.items
  }

  /** Before its run end a trace is not remembered, and exactly its spans are known. */
  ghost predicate InProgress(st: State, t: string) {
    && (forall k: Key :: k.trace == t ==> k !in st.recents.items)
    && (forall k: Key :: k.trace == t ==> (k in st.contexts <==> HasSpan(Replay(st.log), k)))
  }

  ghost predicate UniqueSpans(spans: seq<SpanView>, t: string) {
    forall m, n :: 0 <= m < n < |spans| && spans[m].span.key.trace == t ==> spans[m].span.key != spans[n].span.key
  }

  lemma AfterLast(tr: Tracer, rs: seq<Record>, r: Record)
    ensures After(tr, rs + [r]) == Accept(tr, After(tr, rs), r).st
    ensures Sound(After(tr, rs))
  {
    hide Sound, Accept;
    assert Offers(rs + [r])[..|rs|] == Offers(rs);
    InitSound();
    ExecSound(tr, INIT, Offers(rs));
  }

  lemma BeforeStep(tr: Tracer, rs: seq<Record>, r: Record, j: nat)
    requires j <= |rs|
    ensures Before(tr, rs + [r], j) == Before(tr, rs, j) && Before(tr, rs, |rs|) == After(tr, rs)
  {
    hide Exec;
    assert (rs + [r])[..j] == rs[..j] && rs[..|rs|] == rs;
  }

  lemma CompletedStep(tr: Tracer, rs: seq<Record>, r: Record, t: string)
    ensures RunCompleted(tr, rs + [r], t) <==>
            RunCompleted(tr, rs, t) || (r.key.trace == t && Completes(tr, After(tr, rs), r))
    ensures NothingFollows(tr, rs + [r], t) ==>
            NothingFollows(tr, rs, t) && (r.key.trace == t ==> !RunCompleted(tr, rs, t))
  {
    hide Completes, Before, After;
    var rs' := rs + [r];
    forall j | 0 <= j <= |rs| ensures Before(tr, rs', j) == Before(tr, rs, j) { BeforeStep(tr, rs, r, j); }
    BeforeStep(tr, rs, r, |rs|);
    assert rs'[|rs|] == r;
    assert forall j :: 0 <= j < |rs| ==> rs'[j] == rs[j];
    if RunCompleted(tr, rs, t) {
      var j :| 0 <= j < |rs| && rs[j].key.trace == t && Completes(tr, Before(tr, rs, j), rs[j]);
      assert rs'[j].key.trace == t && Completes(tr, Before(tr, rs', j), rs'[j]);
    }
  }

  /** A known key has a span. */
  lemma KnownHasSpan(st: State, k: Key)
    requires Sound(st) && k in st.contexts
    ensures HasSpan(Replay(st.log), k)
  {
    assert Replay(st.log)[st.contexts[k].id].span.key == k;
  }

  lemma SpansKnown(st: State, t: string)
    requires Sound(st)
    requires forall n :: 0 <= n < |Replay(st.log)| && Replay(st.log)[n].span.key.trace == t ==>
        Replay(st.log)[n].span.key in st.contexts
    ensures forall k: Key :: k.trace == t ==> (k in st.contexts <==> HasSpan(Replay(st.log), k))
  {
    hide Sound, Replay;
    forall k: Key | k in st.contexts ensures HasSpan(Replay(st.log), k) { KnownHasSpan(st, k); }
  }

  lemma UniqueStep(tr: Tracer, st: State, r: Record, t: string)
    requires Sound(st) && UniqueSpans(Replay(st.log), t)
    requires r.key.trace == t ==> InProgress(st, t)
    ensures UniqueSpans(Replay(Accept(tr, st, r).st.log), t)
  {
    hide Sound, Accept, Replay;
    AcceptEffect(tr, st, r);
    var spans, spans' := Replay(st.log), Replay(Accept(tr, st, r).st.log);
    forall m, n | 0 <= m < n < |spans'| && spans'[m].span.key.trace == t
      ensures spans'[m].span.key != spans'[n].span.key
    {
      assert m < |spans| && spans'[m].span == spans[m].span;
      assert HasSpan(spans, spans[m].span.key);
    }
  }

  lemma RecentsAfterRun(tr: Tracer, st: State, r: Record, st': State)
    requires Sound(st) && Completes(tr, st, r) && st' == Accept(tr, st, r).st
    ensures forall k :: k in st'.recents.items ==> k in st.recents.items || k == r.key
  {
    AcceptEffect(tr, st, r);
    AcceptKeeps(tr, st, r);
    forall k | k in st'.recents.items ensures k in st.recents.items || k == r.key {
      assert k in st'.recents.order;
      assert k in st.recents.order + [r.key];
    }
  }

  lemma InProgressStep(tr: Tracer, st: State, r: Record, t: string)
    requires Sound(st) && InProgress(st, t) && !(r.key.trace == t && Completes(tr, st, r))
    ensures InProgress(Accept(tr, st, r).st, t)
  {
    hide Sound, Accept, Replay, Completes;
    var st' := Accept(tr, st, r).st;
    var spans, spans' := Replay(st.log), Replay(st'.log);
    AcceptKeeps(tr, st, r);
    AcceptEffect(tr, st, r);
    if Completes(tr, st, r) { RecentsAfterRun(tr, st, r, st'); }
    forall n | 0 <= n < |spans'| && spans'[n].span.key.trace == t ensures spans'[n].span.key in st'.contexts {
      if n < |spans| {
        assert HasSpan(spans, spans[n].span.key) && spans'[n].span == spans[n].span;
        if !Completes(tr, st, r) && spans[n].span.key != r.key {
          Elsewhere(st.contexts, st'.contexts, r.key, spans[n].span.key);
        }
      }
    }
    SpansKnown(st', t);
  }

  lemma UnindexedStep(tr: Tracer, st: State, r: Record, t: string)
    requires Sound(st)
    requires if r.key.trace == t then Completes(tr, st, r) else Unindexed(st, t)
    ensures Unindexed(Accept(tr, st, r).st, t)
  {
    hide Sound, Accept, Replay, Completes;
    var st' := Accept(tr, st, r).st;
    AcceptEffect(tr, st, r);
    if !Completes(tr, st, r) {
      assert t in st'.traceKeys <==> t in st'.traceKeys - {r.key.trace};
      assert t in st.traceKeys <==> t in st.traceKeys - {r.key.trace};
      forall k: Key | k.trace == t ensures k !in st'.contexts && k !in st'.open.items {
        Elsewhere(st.contexts, st'.contexts, r.key, k);
        Elsewhere(st.open.items, st'.open.items, r.key, k);
      }
    }
  }

  /** Every trace is in progress until its run end goes through and out of the indexes from then
      on; and no key of it gets two spans, so its spans can be named by their keys. Holds for any
      tracer, throwing or not. */
  lemma {:induction false} OneSpanPerKey(tr: Tracer, rs: seq<Record>, t: string)
    requires NothingFollows(tr, rs, t)
    ensures var st := After(tr, rs);
            && UniqueSpans(Replay(st.log), t)
            && if RunCompleted(tr, rs, t) then Unindexed(st, t) else InProgress(st, t)
  {
    hide Sound, Accept, Completes, NothingFollows, RunCompleted, After, InProgress, Unindexed, Replay;
    if rs == [] {
      NothingYet(tr, t);
    } else {
      var shorter, r := rs[..|rs| - 1], rs[|rs| - 1];
      var st := After(tr, shorter);
      assert rs == shorter + [r];
      CompletedStep(tr, shorter, r, t);
      OneSpanPerKey(tr, shorter, t);
      AfterLast(tr, shorter, r);
      UniqueStep(tr, st, r, t);
      if RunCompleted(tr, rs, t) { UnindexedStep(tr, st, r, t); } else { InProgressStep(tr, st, r, t); }
    }
  }

  lemma NothingYet(tr: Tracer, t: string)
    ensures !RunCompleted(tr, [], t) && InProgress(After(tr, []), t) && Replay(After(tr, []).log) == []
  {
    assert After(tr, []) == INIT by { assert Offers([]) == []; }
  }

  /** When a trace is out of the indexes, for any tracer: exactly when its run end went through,
      or it never got a span. */
  lemma ClearedExactly(tr: Tracer, rs: seq<Record>, t: string)
    requires NothingFollows(tr, rs, t)
    ensures Unindexed(After(tr, rs), t) <==>
            RunCompleted(tr, rs, t) || forall k: Key :: k.trace == t ==> !HasSpan(Replay(After(tr, rs).log), k)
  {
    hide NothingFollows, RunCompleted, HasSpan, Replay, Exec;
    OneSpanPerKey(tr, rs, t);
    var st := After(tr, rs);
    InitSound();
    ExecSound(tr, INIT, Offers(rs));
    if t in st.traceKeys { assert st.traceKeys[t][0].trace == t && st.traceKeys[t][0] in st.contexts; }
  }

  /** When all three indexes are empty, for any tracer: exactly when every trace that ever got a
      span had its run end go through. */
  lemma AllClearedExactly(tr: Tracer, rs: seq<Record>)
    requires forall t :: NothingFollows(tr, rs, t)
    ensures var st := After(tr, rs);
            (st.open.items == map[] && st.contexts == map[] && st.traceKeys == map[]) <==>
            forall k :: HasSpan(Replay(st.log), k) ==> RunCompleted(tr, rs, k.trace)
  {
    hide NothingFollows, RunCompleted, HasSpan, Replay, After;
    var st := After(tr, rs);
    forall t ensures Unindexed(st, t) <==>
                     RunCompleted(tr, rs, t) || forall k: Key :: k.trace == t ==> !HasSpan(Replay(st.log), k)
    {
      ClearedExactly(tr, rs, t);
    }
    if forall k :: HasSpan(Replay(st.log), k) ==> RunCompleted(tr, rs, k.trace) {
      forall t ensures Unindexed(st, t) {
        assert forall k: Key :: k.trace == t && HasSpan(Replay(st.log), k) ==> RunCompleted(tr, rs, k.trace);
      }
      forall k: Key ensures k !in st.contexts && k !in st.open.items { assert Unindexed(st, k.trace); }
      forall t ensures t !in st.traceKeys { assert Unindexed(st, t); }
      assert st.open.items == map[] && st.contexts == map[] && st.traceKeys == map[];
    } else {
      var k :| HasSpan(Replay(st.log), k) && !RunCompleted(tr, rs, k.trace);
      assert !Unindexed(st, k.trace);
    }
  }

  // ---- a tracer that never throws: the records alone decide --------------------------------------

  ghost predicate HasRunEnded(rs: seq<Record>, trace: string) {
    exists i :: 0 <= i < |rs| && IsRunEnd(rs[i]) && rs[i].key.trace == trace
  }

  /** No record of the trace follows its run end. */
  ghost predicate EndsWithRunEnd(rs: seq<Record>, t: string) {
    forall i, j :: 0 <= i < j < |rs| && IsRunEnd(rs[i]) && rs[i].key.trace == t ==> rs[j].key.trace != t
  }

  ghost predicate Mentions(rs: seq<Record>, k: Key) {
    exists i :: 0 <= i < |rs| && rs[i].key == k && !rs[i].SpanEvent?
  }

  ghost predicate Ends(rs: seq<Record>, k: Key) {
    exists i :: 0 <= i < |rs| && rs[i].key == k && rs[i].SpanEnd?
  }

  /** What the indexes hold of a running trace: the contexts are the spans its records mention,
      the open ones those not ended. */
  ghost predicate Tracks(rs: seq<Record>, st: State, t: string) {
    forall k: Key :: k.trace == t ==>
      && k !in st.recents.items
      && (k in st.contexts <==> Mentions(rs, k))
      && (k in st.open.items <==> Mentions(rs, k) && !Ends(rs, k))
  }

  lemma HasRunEndedStep(rs: seq<Record>, r: Record, trace: string)
    ensures HasRunEnded(rs + [r], trace) <==> HasRunEnded(rs, trace) || (IsRunEnd(r) && r.key.trace == trace)
  {
    var rs' := rs + [r];
    if HasRunEnded(rs, trace) {
      var i :| 0 <= i < |rs| && IsRunEnd(rs[i]) && rs[i].key.trace == trace;
      assert rs'[i] == rs[i];
    }
    if IsRunEnd(r) && r.key.trace == trace { assert rs'[|rs|] == r; }
  }

  lemma MentionsStep(rs: seq<Record>, r: Record, k: Key)
    ensures Mentions(rs + [r], k) <==> Mentions(rs, k) || (r.key == k && !r.SpanEvent?)
    ensures Ends(rs + [r], k) <==> Ends(rs, k) || (r.key == k && r.SpanEnd?)
    ensures Ends(rs, k) ==> Mentions(rs, k)
  {
    var rs' := rs + [r];
    assert rs'[|rs|] == r;
    if Mentions(rs, k) {
      var i :| 0 <= i < |rs| && rs[i].key == k && !rs[i].SpanEvent?;
      assert rs'[i] == rs[i];
    }
    if Ends(rs, k) {
      var i :| 0 <= i < |rs| && rs[i].key == k && rs[i].SpanEnd?;
      assert rs'[i] == rs[i];
    }
  }

  /** What a non-throwing record does to the membership of its own key. */
  lemma OwnKey(tr: Tracer, st: State, r: Record)
    requires NeverThrows(tr) && Sound(st) && !IsRunEnd(r) && r.key !in st.recents.items
    ensures var st' := Accept(tr, st, r).st;
            && (r.key in st'.contexts <==> r.key in st.contexts || !r.SpanEvent?)
            && (r.key in st'.open.items <==>
                  !r.SpanEnd? && (r.key in st.open.items || (r.SpanStart? && r.key !in st.contexts)))
  {
    hide Sound, Conclude;
    NeverThrowingAccepts(tr, st, r);
    SoundFacts(st, r.key);
    match r
    case SpanStart(_, _, _, _, _, _) => if !Known(st, r.key) { BeginOpens(tr, st, r, false); }
    case SpanEvent(_, _, _, _) => OwnKeyOfEvent(tr, st, r);
    case SpanEnd(_, _, _, _, _, _, _, _, _) => AcceptedIsKnown(tr, st, r);
  }

  lemma OwnKeyOfEvent(tr: Tracer, st: State, r: Record)
    requires r.SpanEvent? && Sound(st)
    ensures var st' := Event(tr, st, r).st; st'.contexts == st.contexts && st'.open == st.open
  {
    if r.key in st.open.items { PlainCalls(tr, st, r.key, EventOps(st.open.items[r.key], r)); }
  }

  lemma {:induction false} TracksStep(tr: Tracer, st: State, rs: seq<Record>, r: Record, t: string)
    requires NeverThrows(tr) && Sound(st) && Tracks(rs, st, t)
    requires !(IsRunEnd(r) && r.key.trace == t)
    ensures Tracks(rs + [r], Accept(tr, st, r).st, t)
  {
    hide Sound, Accept, Mentions, Ends, Completes;
    var rs', st' := rs + [r], Accept(tr, st, r).st;
    AcceptEffect(tr, st, r);
    if Completes(tr, st, r) { RecentsAfterRun(tr, st, r, st'); }
    if r.key.trace == t { OwnKey(tr, st, r); }
    forall k: Key | k.trace == t
      ensures k !in st'.recents.items
      ensures k in st'.contexts <==> Mentions(rs', k)
      ensures k in st'.open.items <==> Mentions(rs', k) && !Ends(rs', k)
    {
      MentionsStep(rs, r, k);
      CompletesIsRunEnd(tr, st, r);
      if k != r.key && !Completes(tr, st, r) {
        Elsewhere(st.contexts, st'.contexts, r.key, k);
        Elsewhere(st.open.items, st'.open.items, r.key, k);
      }
    }
  }

  lemma CompletesIsRunEnd(tr: Tracer, st: State, r: Record)
    ensures Completes(tr, st, r) ==> IsRunEnd(r)
  {
  }

  lemma {:induction false} RunningIsTracked(tr: Tracer, rs: seq<Record>, t: string)
    requires NeverThrows(tr) && !HasRunEnded(rs, t)
    ensures Tracks(rs, After(tr, rs), t)
  {
    hide Sound, Accept, Tracks, HasRunEnded, After;
    if rs == [] {
      TracksNothing(tr, t);
    } else {
      var shorter, r := rs[..|rs| - 1], rs[|rs| - 1];
      assert rs == shorter + [r];
      HasRunEndedStep(shorter, r, t);
      RunningIsTracked(tr, shorter, t);
      AfterLast(tr, shorter, r);
      TracksStep(tr, After(tr, shorter), shorter, r, t);
    }
  }

  lemma TracksNothing(tr: Tracer, t: string)
    ensures Tracks([], After(tr, []), t)
  {
    assert After(tr, []) == INIT by { assert Offers([]) == []; }
  }

  lemma NotEndedBefore(rs: seq<Record>, t: string, j: nat)
    requires EndsWithRunEnd(rs, t) && j < |rs| && rs[j].key.trace == t
    ensures !HasRunEnded(rs[..j], t)
  {
  }

  lemma EndsLast(tr: Tracer, rs: seq<Record>, t: string)
    requires EndsWithRunEnd(rs, t)
    ensures NothingFollows(tr, rs, t)
  {
    hide Before;
  }

  /** A run end goes through exactly when it is the first end of its span. */
  lemma FirstEndCompletes(tr: Tracer, rs: seq<Record>, t: string, j: nat)
    requires NeverThrows(tr) && EndsWithRunEnd(rs, t)
    requires j < |rs| && IsRunEnd(rs[j]) && rs[j].key.trace == t
    ensures Completes(tr, Before(tr, rs, j), rs[j]) <==> !Ends(rs[..j], rs[j].key)
  {
    hide Accept, Mentions, Ends, Exec;
    NotEndedBefore(rs, t, j);
    RunningIsTracked(tr, rs[..j], t);
    NeverThrowingAccepts(tr, Before(tr, rs, j), rs[j]);
    MentionsStep(rs[..j], rs[j], rs[j].key);
  }

  ghost predicate EndsFirst(rs: seq<Record>, j: nat)
    requires j < |rs|
  {
    IsRunEnd(rs[j]) && !Ends(rs[..j], rs[j].key)
  }

  lemma CompletedExactly(tr: Tracer, rs: seq<Record>, t: string)
    requires NeverThrows(tr) && EndsWithRunEnd(rs, t)
    ensures RunCompleted(tr, rs, t) <==> exists j :: 0 <= j < |rs| && rs[j].key.trace == t && EndsFirst(rs, j)
  {
    hide Before, Completes, Ends;
    forall j | 0 <= j < |rs| && rs[j].key.trace == t
      ensures Completes(tr, Before(tr, rs, j), rs[j]) <==> EndsFirst(rs, j)
    {
      CompletesIsRunEnd(tr, Before(tr, rs, j), rs[j]);
      if IsRunEnd(rs[j]) { FirstEndCompletes(tr, rs, t, j); }
    }
  }

  /** Spans stay, and records bring spans of their own key only. */
  lemma {:induction false} SpansComeFromRecords(tr: Tracer, rs: seq<Record>, k: Key)
    ensures HasSpan(Replay(After(tr, rs).log), k) ==> exists i :: 0 <= i < |rs| && rs[i].key == k
    ensures forall j :: 0 <= j <= |rs| && HasSpan(Replay(Before(tr, rs, j).log), k) ==>
        HasSpan(Replay(After(tr, rs).log), k)
  {
    hide Sound, Accept, Replay, After, Before, Completes;
    if rs == [] {
      NothingYet(tr, k.trace);
      BeforeAll(tr, rs);
    } else {
      var shorter, r := rs[..|rs| - 1], rs[|rs| - 1];
      assert rs == shorter + [r];
      SpansComeFromRecords(tr, shorter, k);
      AfterLast(tr, shorter, r);
      SpanStep(tr, After(tr, shorter), r, k);
      BeforeAll(tr, rs);
      forall j | 0 <= j <= |rs| && HasSpan(Replay(Before(tr, rs, j).log), k)
        ensures HasSpan(Replay(After(tr, rs).log), k)
      {
        if j < |rs| { BeforeStep(tr, shorter, r, j); }
      }
      assert rs[|rs| - 1] == r && forall i :: 0 <= i < |shorter| ==> rs[i] == shorter[i];
    }
  }

  lemma BeforeAll(tr: Tracer, rs: seq<Record>)
    ensures Before(tr, rs, |rs|) == After(tr, rs)
  {
    assert rs[..|rs|] == rs;
  }

  lemma SpanStep(tr: Tracer, st: State, r: Record, k: Key)
    requires Sound(st)
    ensures HasSpan(Replay(st.log), k) ==> HasSpan(Replay(Accept(tr, st, r).st.log), k)
    ensures HasSpan(Replay(Accept(tr, st, r).st.log), k) ==> HasSpan(Replay(st.log), k) || r.key == k
  {
    hide Sound, Accept, Replay;
    AcceptEffect(tr, st, r);
    var spans, spans' := Replay(st.log), Replay(Accept(tr, st, r).st.log);
    if HasSpan(spans, k) {
      var n :| 0 <= n < |spans| && spans[n].span.key == k;
      assert spans'[n].span.key == k;
    }
    if HasSpan(spans', k) {
      var n :| 0 <= n < |spans'| && spans'[n].span.key == k;
      assert n < |spans| ==> spans[n].span.key == k;
    }
  }

  /** A key gets a span exactly when a start or end record mentions it. */
  lemma MentionedHaveSpans(tr: Tracer, rs: seq<Record>, k: Key)
    requires NeverThrows(tr) && EndsWithRunEnd(rs, k.trace) && Mentions(rs, k)
    ensures HasSpan(Replay(After(tr, rs).log), k)
  {
    hide Sound, Accept, Replay, After, Before, Completes, HasSpan, EndsWithRunEnd, HasRunEnded;
    var j :| 0 <= j < |rs| && rs[j].key == k && !rs[j].SpanEvent?;
    var shorter, r := rs[..j], rs[j];
    NotEndedBefore(rs, k.trace, j);
    RunningIsTracked(tr, shorter, k.trace);
    AfterLast(tr, shorter, r);
    assert rs[..j + 1] == shorter + [r];
    BeforeAfter(tr, rs, j + 1);
    var st := After(tr, shorter);
    AcceptKeeps(tr, st, r);
    SpansComeFromRecords(tr, rs, k);
    if k in st.contexts {
      KnownHasSpan(st, k);
      SpanStep(tr, st, r, k);
    } else if IsRunEnd(r) {
      FirstRunEndHasSpan(tr, st, r);
    } else {
      OwnKey(tr, st, r);
      KnownHasSpan(Accept(tr, st, r).st, k);
    }
  }

  lemma BeforeAfter(tr: Tracer, rs: seq<Record>, j: nat)
    requires j <= |rs|
    ensures Before(tr, rs, j) == After(tr, rs[..j])
  {
  }

  lemma FirstRunEndHasSpan(tr: Tracer, st: State, r: Record)
    requires NeverThrows(tr) && Sound(st) && IsRunEnd(r) && !Known(st, r.key)
    ensures HasSpan(Replay(Accept(tr, st, r).st.log), r.key)
  {
    hide Sound, Accept, Replay;
    NeverThrowingAccepts(tr, st, r);
    AcceptEffect(tr, st, r);
  }

  /** No run end repeats the end of a span. */
  ghost predicate RunEndsAreFirst(rs: seq<Record>) {
    forall i, j :: 0 <= i < j < |rs| && rs[i].SpanEnd? && IsRunEnd(rs[j]) ==> rs[i].key != rs[j].key
  }

  /** A run end that repeats the end of its span is dropped, and its trace stays indexed. */
  lemma RepeatedRootEndLeaves(tr: Tracer, rs: seq<Record>, i: nat, j: nat)
    requires NeverThrows(tr) && i < j < |rs| && rs[i].SpanEnd? && IsRunEnd(rs[j]) && rs[i].key == rs[j].key
    requires EndsWithRunEnd(rs, rs[j].key.trace)
    ensures rs[j].key in After(tr, rs).contexts
  {
    hide After, Replay, HasSpan, RunCompleted;
    var k := rs[j].key;
    EndsLast(tr, rs, k.trace);
    OneSpanPerKey(tr, rs, k.trace);
    MentionedHaveSpans(tr, rs, k);
    CompletedExactly(tr, rs, k.trace);
    forall m | 0 <= m < |rs| && rs[m].key.trace == k.trace ensures !EndsFirst(rs, m) {
      if m == j { assert rs[..j][i] == rs[i]; }
    }
  }

  /** When every trace seen has had its run end, and nothing of it after, the open, context and
      trace indexes are empty exactly when every run end was the first end of its span. */
  lemma FinishedRunsLeaveNothing(tr: Tracer, rs: seq<Record>)
    requires NeverThrows(tr) && forall t :: EndsWithRunEnd(rs, t)
    requires forall i :: 0 <= i < |rs| ==> HasRunEnded(rs, rs[i].key.trace)
    ensures var st := After(tr, rs);
            (st.open.items == map[] && st.contexts == map[] && st.traceKeys == map[]) <==> RunEndsAreFirst(rs)
  {
    hide After, Replay, HasSpan, RunCompleted, EndsWithRunEnd, NothingFollows;
    forall t ensures NothingFollows(tr, rs, t) { EndsLast(tr, rs, t); }
    AllClearedExactly(tr, rs);
    if RunEndsAreFirst(rs) {
      forall k | HasSpan(Replay(After(tr, rs).log), k) ensures RunCompleted(tr, rs, k.trace) {
        SpansComeFromRecords(tr, rs, k);
        var j :| 0 <= j < |rs| && IsRunEnd(rs[j]) && rs[j].key.trace == k.trace;
        assert EndsFirst(rs, j);
        CompletedExactly(tr, rs, k.trace);
      }
    } else {
      var i, j :| 0 <= i < j < |rs| && rs[i].SpanEnd? && IsRunEnd(rs[j]) && rs[i].key == rs[j].key;
      RepeatedRootEndLeaves(tr, rs, i, j);
    }
  }

  // ---- parent edges -----------------------------------------------------------------------------

  /** The first start or end record of a key. */
  function FirstIndex(rs: seq<Record>, k: Key): (f: nat)
    ensures f <= |rs|
  {
    if rs == [] then 0
    else
      var f := FirstIndex(rs[..|rs| - 1], k);
      if f < |rs| - 1 then f
      else if rs[|rs| - 1].key == k && !rs[|rs| - 1].SpanEvent? then |rs| - 1 else |rs|
  }

  lemma {:induction false} FirstIndexIs(rs: seq<Record>, k: Key)
    ensures var f := FirstIndex(rs, k);
            && (f < |rs| <==> Mentions(rs, k))
            && (f < |rs| ==> rs[f].key == k && !rs[f].SpanEvent?)
            && !Mentions(rs[..f], k)
  {
    if rs != [] {
      var shorter, r := rs[..|rs| - 1], rs[|rs| - 1];
      FirstIndexIs(shorter, k);
      assert rs == shorter + [r];
      if FirstIndex(shorter, k) < |shorter| {
        assert rs[..FirstIndex(shorter, k)] == shorter[..FirstIndex(shorter, k)];
      }
      MentionsStep(shorter, r, k);
    }
  }

  /** For any tracer: a span is started from a record of its key, and gets a parent exactly when
      the record names one that has a span by then. */
  ghost predicate StartsFrom(log: seq<Call>, i: nat, rs: seq<Record>)
    requires i < |log| && log[i].op.StartSpan?
  {
    var op := log[i].op;
    && !op.record.SpanEvent? && op.record in rs && op.record.key == op.span.key
    && (op.parent.Some? <==>
          && op.record.parentSpanId.Some? && op.record.parentSpanId.value != ""
          && HasSpan(Replay(log[..i]), Key(op.record.key.trace, op.record.parentSpanId.value)))
  }

  lemma {:induction false} StartsAreRecords(tr: Tracer, rs: seq<Record>, t: string)
    requires NothingFollows(tr, rs, t)
    ensures var log := After(tr, rs).log;
            forall i :: 0 <= i < |log| && log[i].op.StartSpan? && log[i].op.span.key.trace == t ==>
                StartsFrom(log, i, rs)
  {
    hide Sound, Accept, NothingFollows, RunCompleted, After, InProgress, Unindexed, Replay, Completes;
    if rs == [] {
      assert After(tr, []).log == [] by { NothingCalled(tr); }
    } else {
      var shorter, r := rs[..|rs| - 1], rs[|rs| - 1];
      var st := After(tr, shorter);
      var log := After(tr, rs).log;
      assert rs == shorter + [r];
      CompletedStep(tr, shorter, r, t);
      StartsAreRecords(tr, shorter, t);
      OneSpanPerKey(tr, shorter, t);
      AfterLast(tr, shorter, r);
      AcceptTraced(tr, st, r);
      forall i | 0 <= i < |log| && log[i].op.StartSpan? && log[i].op.span.key.trace == t
        ensures StartsFrom(log, i, rs)
      {
        if i < |st.log| {
          assert log[i] == st.log[i] && log[..i] == st.log[..i];
          assert StartsFrom(st.log, i, shorter);
        } else {
          assert log[..i] == st.log;
          StartParent(st, r, t);
        }
      }
    }
  }

  lemma NothingCalled(tr: Tracer)
    ensures After(tr, []).log == []
  {
    assert Offers([]) == [];
  }

  lemma StartParent(st: State, r: Record, t: string)
    requires !r.SpanEvent? && r.key.trace == t && InProgress(st, t)
    ensures var op := StartOp(st, r, r.SpanEnd?);
            && op.record == r && op.span.key == r.key
            && (op.parent.Some? <==> ParentKey(r).Some? && HasSpan(Replay(st.log), ParentKey(r).value))
  {
    hide HasSpan, Replay;
  }

  /** With a tracer that never throws, the record a span is started from is the first of its key,
      and its parent is found exactly when it was mentioned before. */
  ghost predicate StartsFirst(op: Op, rs: seq<Record>)
    requires op.StartSpan?
  {
    var k := op.span.key;
    var f := FirstIndex(rs, k);
    && f < |rs| && op.record == rs[f] && !op.record.SpanEvent?
    && (op.parent.Some? <==> ParentKey(rs[f]).Some? && Mentions(rs[..f], ParentKey(rs[f]).value))
  }

  lemma {:induction false} StartsAreFirst(tr: Tracer, rs: seq<Record>, t: string)
    requires NeverThrows(tr) && EndsWithRunEnd(rs, t)
    ensures var log := After(tr, rs).log;
            forall i :: 0 <= i < |log| && log[i].op.StartSpan? && log[i].op.span.key.trace == t ==>
                StartsFirst(log[i].op, rs)
  {
    hide Sound, Accept, Tracks, After, Replay, HasRunEnded, StartsFirst;
    if rs == [] {
      NothingCalled(tr);
    } else {
      var shorter, r := rs[..|rs| - 1], rs[|rs| - 1];
      var st := After(tr, shorter);
      var log := After(tr, rs).log;
      assert rs == shorter + [r];
      StartsAreFirst(tr, shorter, t);
      AfterLast(tr, shorter, r);
      AcceptTraced(tr, st, r);
      forall i | 0 <= i < |log| && log[i].op.StartSpan? && log[i].op.span.key.trace == t
        ensures StartsFirst(log[i].op, rs)
      {
        if i < |st.log| {
          assert log[i] == st.log[i];
          FirstStays(shorter, r, log[i].op);
        } else {
          NotEndedBefore(rs, t, |shorter|);
          RunningIsTracked(tr, shorter, t);
          NewStart(st, shorter, r, t);
        }
      }
    }
  }

  lemma FirstStays(shorter: seq<Record>, r: Record, op: Op)
    requires op.StartSpan? && StartsFirst(op, shorter)
    ensures StartsFirst(op, shorter + [r])
  {
    hide Mentions;
    var rs := shorter + [r];
    assert rs[..|rs| - 1] == shorter;
    var f := FirstIndex(shorter, op.span.key);
    assert rs[..f] == shorter[..f];
  }

  lemma NewStart(st: State, shorter: seq<Record>, r: Record, t: string)
    requires !r.SpanEvent? && r.key.trace == t && Tracks(shorter, st, t) && !Known(st, r.key)
    ensures var op := StartOp(st, r, r.SpanEnd?); op.span.key == r.key && StartsFirst(op, shorter + [r])
  {
    hide Mentions, Ends;
    var rs := shorter + [r];
    assert rs[..|rs| - 1] == shorter;
    FirstIndexIs(shorter, r.key);
    assert FirstIndex(rs, r.key) == |shorter|;
  }

  // ---- from calls to the spans the tracer holds ------------------------------------------------

  predicate StartedAt(log: seq<Call>, i: nat, n: nat) {
    && i < |log| && log[i].ok && log[i].op.StartSpan?
    && n < |Replay(log)| && Replay(log)[n].span == log[i].op.span && Replay(log)[n].parent == log[i].op.parent
  }

  lemma {:induction false} SpanWasStarted(log: seq<Call>, n: nat)
    requires n < |Replay(log)|
    ensures exists i :: StartedAt(log, i, n)
  {
    var shorter := log[..|log| - 1];
    if n < |Replay(shorter)| {
      SpanWasStarted(shorter, n);
      var i :| StartedAt(shorter, i, n);
      assert StartedAt(log, i, n);
    } else {
      assert StartedAt(log, |log| - 1, n);
    }
  }

  /** The tracer holds a span of `k` whose parent is a span of `p`. */
  ghost predicate Edge(spans: seq<SpanView>, k: Key, p: Key) {
    exists n :: 0 <= n < |spans| && spans[n].span.key == k && spans[n].parent.Some? && spans[n].parent.value.key == p
  }

  ghost function StartOfSpan(log: seq<Call>, n: nat): (i: nat)
    requires n < |Replay(log)|
    ensures StartedAt(log, i, n)
  {
    SpanWasStarted(log, n);
    var i: nat :| StartedAt(log, i, n);
    i
  }

  /** A successful start of a span of `k` from the record `r`. */
  predicate StartsKey(c: Call, k: Key, r: Record) {
    c.ok && c.op.StartSpan? && c.op.span.key == k && c.op.record == r
  }

  /** The spans of a trace are those its records mention, one each, started from the first record
      of the key. */
  lemma SpansAreRecords(tr: Tracer, rs: seq<Record>, k: Key)
    requires NeverThrows(tr) && EndsWithRunEnd(rs, k.trace)
    ensures var st, f := After(tr, rs), FirstIndex(rs, k); var spans := Replay(st.log);
            && (Mentions(rs, k) <==> HasSpan(spans, k))
            && (forall m, n ::
                  0 <= m < |spans| && 0 <= n < |spans| && spans[m].span.key == k == spans[n].span.key ==> m == n)
            && (Mentions(rs, k) ==> f < |rs| && exists c :: c in st.log && StartsKey(c, k, rs[f]))
  {
    hide After, Replay, Mentions, EndsWithRunEnd, NothingFollows;
    var st := After(tr, rs);
    EndsLast(tr, rs, k.trace);
    OneSpanPerKey(tr, rs, k.trace);
    FirstIndexIs(rs, k);
    if Mentions(rs, k) { MentionedHaveSpans(tr, rs, k); }
    if HasSpan(Replay(st.log), k) {
      var n: nat :| n < |Replay(st.log)| && Replay(st.log)[n].span.key == k;
      var i := FirstStart(tr, rs, n);
      assert StartsKey(st.log[i], k, rs[FirstIndex(rs, k)]);
    }
  }

  /** The call that started a span. */
  ghost function FirstStart(tr: Tracer, rs: seq<Record>, n: nat): (i: nat)
    requires NeverThrows(tr) && n < |Replay(After(tr, rs).log)|
    requires EndsWithRunEnd(rs, Replay(After(tr, rs).log)[n].span.key.trace)
    ensures var log := After(tr, rs).log; StartedAt(log, i, n) && StartsFirst(log[i].op, rs)
  {
    hide After, Replay, Mentions, EndsWithRunEnd, StartsFirst;
    StartsAreFirst(tr, rs, Replay(After(tr, rs).log)[n].span.key.trace);
    StartOfSpan(After(tr, rs).log, n)
  }

  /** The parent that the first record of a key names. */
  function NamedParent(rs: seq<Record>, k: Key): Option<Key> {
    var f := FirstIndex(rs, k);
    if f < |rs| && !rs[f].SpanEvent? then ParentKey(rs[f]) else None
  }

  lemma ParentOfSpan(tr: Tracer, rs: seq<Record>, n: nat)
    requires NeverThrows(tr) && n < |Replay(After(tr, rs).log)|
    requires EndsWithRunEnd(rs, Replay(After(tr, rs).log)[n].span.key.trace)
    ensures var v := Replay(After(tr, rs).log)[n];
            var named := NamedParent(rs, v.span.key);
            && (v.parent.Some? <==> named.Some? && Mentions(rs[..FirstIndex(rs, v.span.key)], named.value))
            && (v.parent.Some? ==> named == Some(v.parent.value.key))
  {
    hide After, Replay, Mentions, EndsWithRunEnd;
    var i := FirstStart(tr, rs, n);
    AfterIsLawful(tr, rs);
    EdgesAreNamed(After(tr, rs).log, i);
  }

  lemma AfterIsLawful(tr: Tracer, rs: seq<Record>)
    ensures Lawful(After(tr, rs).log)
  {
    CallsAreLawful(tr, Offers(rs));
  }

  /** With a tracer that never throws and the run end last, and whatever the order of the other
      records: the tracer's parent edges are exactly those the first records of the keys name,
      where the parent was mentioned before. */
  lemma ParentEdgesExactly(tr: Tracer, rs: seq<Record>, k: Key, p: Key)
    requires NeverThrows(tr) && EndsWithRunEnd(rs, k.trace)
    ensures Edge(Replay(After(tr, rs).log), k, p) <==>
            NamedParent(rs, k) == Some(p) && Mentions(rs[..FirstIndex(rs, k)], p)
  {
    hide After, Replay, Mentions, EndsWithRunEnd;
    var spans := Replay(After(tr, rs).log);
    SpansAreRecords(tr, rs, k);
    FirstIndexIs(rs, k);
    forall n: nat | n < |spans| && spans[n].span.key == k
      ensures spans[n].parent.Some? <==>
          NamedParent(rs, k).Some? && Mentions(rs[..FirstIndex(rs, k)], NamedParent(rs, k).value)
      ensures spans[n].parent.Some? ==> NamedParent(rs, k) == Some(spans[n].parent.value.key)
    {
      ParentOfSpan(tr, rs, n);
    }
  }

  /** A parent that a key's first record names was mentioned before that record. */
  ghost predicate ParentsFirst(rs: seq<Record>, t: string) {
    forall k: Key :: k.trace == t && NamedParent(rs, k).Some? ==>
      Mentions(rs[..FirstIndex(rs, k)], NamedParent(rs, k).value)
  }

  /** The parent edges of a trace are all those its first records name exactly when parents come
      first. */
  lemma ParentEdgesFaithful(tr: Tracer, rs: seq<Record>, t: string)
    requires NeverThrows(tr) && EndsWithRunEnd(rs, t)
    ensures ParentsFirst(rs, t) <==>
            forall k: Key, p: Key :: k.trace == t ==>
                (Edge(Replay(After(tr, rs).log), k, p) <==> NamedParent(rs, k) == Some(p))
  {
    hide After, Replay, Mentions, EndsWithRunEnd, Edge, NamedParent;
    forall k: Key, p: Key | k.trace == t
      ensures Edge(Replay(After(tr, rs).log), k, p) <==>
              NamedParent(rs, k) == Some(p) && Mentions(rs[..FirstIndex(rs, k)], p)
    {
      ParentEdgesExactly(tr, rs, k, p);
    }
    if k: Key :|
      k.trace == t && NamedParent(rs, k).Some? && !Mentions(rs[..FirstIndex(rs, k)], NamedParent(rs, k).value)
    {
      assert !Edge(Replay(After(tr, rs).log), k, NamedParent(rs, k).value);
    }
  }
}
