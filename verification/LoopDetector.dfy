/** The sliding-window loop detector, proved against the unbounded history of a conversation. */
module LoopDetector {
  import opened Collections
  import opened LoopText
  import opened LoopSort
  import opened LoopSignature

  datatype Config = Config(maxRepetitions: Option<int>, loopDetectionWindow: Option<int>)

  /** What the detector reports; its `detail` text is made of these parts. */
  datatype Info = ToolRepetition(repetitions: nat, names: seq<Text>) | TextRepetition(repetitions: nat)

  // ---- the unbounded history ------------------------------------------------------------

  datatype Turn = ToolTurn(blocks: seq<Block>) | TextTurn(text: Text)

  /** The tool turns that count: those with at least one call. */
  function ToolTurns(turns: seq<Turn>): seq<seq<Block>> {
    if turns == [] then []
    else
      var last := turns[|turns| - 1];
      ToolTurns(turns[..|turns| - 1]) + if last.ToolTurn? && last.blocks != [] then [last.blocks] else []
  }

  /** The texts that count: those that are not all white space. */
  function TextTurns(turns: seq<Turn>): seq<Text> {
    if turns == [] then []
    else
      var last := turns[|turns| - 1];
      TextTurns(turns[..|turns| - 1]) + if last.TextTurn? && Normalise(last.text) != [] then [last.text] else []
  }

  function Signatures(ts: seq<seq<Block>>, le: (Text, Text) -> bool): seq<Text> {
    seq(|ts|, i requires 0 <= i < |ts| => Signature(ts[i], le))
  }

  function Normals(ts: seq<Text>): seq<Text> {
    seq(|ts|, i requires 0 <= i < |ts| => Normalise(ts[i]))
  }

  /** The length of the run of equal entries at the end. */
  function TailRun(s: seq<Text>): nat {
    if |s| < 2 then |s|
    else if s[|s| - 2] == s[|s| - 1] then TailRun(s[..|s| - 1]) + 1
    else 1
  }

  /** The last `m` entries are there and equal. */
  ghost predicate EndsAlike(s: seq<Text>, m: nat) {
    m <= |s| && forall i :: |s| - m <= i < |s| ==> s[i] == s[|s| - 1]
  }

  /** The run is the longest stretch of equal entries at the end. */
  lemma {:induction false} TailRunReaches(s: seq<Text>, m: nat)
    ensures TailRun(s) >= m <==> EndsAlike(s, m)
    decreases |s|
  {
    if m >= 2 && |s| >= 2 {
      var rest := s[..|s| - 1];
      TailRunReaches(rest, m - 1);
      if m <= |s| {
        assert EndsAlike(s, m) ==> s[|s| - 2] == s[|s| - 1];
        assert s[|s| - 2] == s[|s| - 1] ==> (EndsAlike(s, m) <==> EndsAlike(rest, m - 1));
      }
    }
  }

  /** A window shows the run at its end as long as the window, and no longer. */
  lemma {:induction false} WindowRun(s: seq<Text>, n: nat)
    ensures TailRun(LastN(s, n)) == Min(TailRun(s), n)
    decreases |s|
  {
    if 2 <= n < |s| {
      assert LastN(s[..|s| - 1], n - 1) == LastN(s, n)[..n - 1];
      WindowRun(s[..|s| - 1], n - 1);
    } else if |s| <= n {
      RunFits(s);
    }
  }

  lemma {:induction false} RunFits(s: seq<Text>)
    ensures TailRun(s) <= |s| && (s != [] ==> TailRun(s) >= 1)
  {
    if s != [] { RunFits(s[..|s| - 1]); }
  }

  /** Each turn counts for one history, or for none. */
  lemma TurnsGrow(turns: seq<Turn>, t: Turn, le: (Text, Text) -> bool)
    ensures var tools, texts := Signatures(ToolTurns(turns), le), Normals(TextTurns(turns));
            && Signatures(ToolTurns(turns + [t]), le)
               == tools + (if t.ToolTurn? && t.blocks != [] then [Signature(t.blocks, le)] else [])
            && Normals(TextTurns(turns + [t]))
               == texts + (if t.TextTurn? && Normalise(t.text) != [] then [Normalise(t.text)] else [])
  {
  }

  // ---- the detector ---------------------------------------------------------------------

  class LoopDetector {
    const maxRepeats: int
    const windowSize: int
    const le: (Text, Text) -> bool

    var toolSignatures: seq<Text>
    var textOutputs: seq<Text>

    /** Every turn ever recorded. */
    ghost var turns: seq<Turn>

    /** The buffers are windows on the whole history. */
    ghost predicate Valid()
      reads this
    {
      && windowSize >= maxRepeats
      && toolSignatures == LastN(Signatures(ToolTurns(turns), le), Max(windowSize, 0))
      && textOutputs == LastN(Normals(TextTurns(turns)), Max(windowSize, 0))
    }

    constructor (config: Config, le: (Text, Text) -> bool)
      ensures Valid() && turns == [] && this.le == le
      ensures maxRepeats == if config.maxRepetitions.Some? then config.maxRepetitions.value else 3
      ensures windowSize
          == Max(if config.loopDetectionWindow.Some? then config.loopDetectionWindow.value else 4, maxRepeats)
    {
      var repeats := if config.maxRepetitions.Some? then config.maxRepetitions.value else 3;
      var requested := if config.loopDetectionWindow.Some? then config.loopDetectionWindow.value else 4;
      maxRepeats := repeats;
      windowSize := Max(requested, repeats);
      this.le := le;
      toolSignatures, textOutputs := [], [];
      turns := [];
    }

    /** With a negative window the trimming loop does not end (`TrimmingEnds`). */
    method RecordToolCalls(blocks: seq<Block>) returns (info: Option<Info>)
      requires Valid() && (windowSize >= 0 || blocks == [])
      modifies this
      ensures Valid() && turns == old(turns) + [ToolTurn(blocks)]
      ensures textOutputs == old(textOutputs)
      ensures blocks == [] ==> info == None && toolSignatures == old(toolSignatures)
      ensures blocks != [] ==>
        var run := TailRun(Signatures(ToolTurns(turns), le));
        info == if run >= maxRepeats then Some(ToolRepetition(Min(run, windowSize), Names(blocks))) else None
    {
      hide ToolTurns, TextTurns, Signature, TailRun, LastN, Normals, Names;
      TurnsGrow(turns, ToolTurn(blocks), le);
      ghost var before := Signatures(ToolTurns(turns), le);
      turns := turns + [ToolTurn(blocks)];
      if blocks == [] {
        return None;
      }
      var signature := Signature(blocks, le);
      var count;
      toolSignatures, count := Observe(toolSignatures, signature, windowSize, before);
      info := if count >= maxRepeats then Some(ToolRepetition(count, Names(blocks))) else None;
    }

    method RecordText(text: Text) returns (info: Option<Info>)
      requires Valid() && (windowSize >= 0 || Normalise(text) == [])
      modifies this
      ensures Valid() && turns == old(turns) + [TextTurn(text)]
      ensures toolSignatures == old(toolSignatures)
      ensures Normalise(text) == [] ==> info == None && textOutputs == old(textOutputs)
      ensures Normalise(text) != [] ==>
        var run := TailRun(Normals(TextTurns(turns)));
        info == if run >= maxRepeats then Some(TextRepetition(Min(run, windowSize))) else None
    {
      hide ToolTurns, TextTurns, Normalise, TailRun, LastN, Signatures;
      TurnsGrow(turns, TextTurn(text), le);
      ghost var before := Normals(TextTurns(turns));
      turns := turns + [TextTurn(text)];
      var normalised := Normalise(text);
      if normalised == [] {
        return None;
      }
      var count;
      textOutputs, count := Observe(textOutputs, normalised, windowSize, before);
      info := if count >= maxRepeats then Some(TextRepetition(count)) else None;
    }
  }

  function Names(blocks: seq<Block>): (names: seq<Text>)
    ensures |names| == |blocks| && forall i :: 0 <= i < |blocks| ==> names[i] == blocks[i].name
  {
    seq(|blocks|, i requires 0 <= i < |blocks| => blocks[i].name)
  }

  /** Enters an entry in a window on a history and counts the run the window ends with. */
  method Observe(buffer: seq<Text>, entry: Text, windowSize: int, ghost history: seq<Text>)
    returns (r: seq<Text>, count: nat)
    requires windowSize >= 0 && buffer == LastN(history, windowSize)
    ensures r == LastN(history + [entry], windowSize)
    ensures count == Min(TailRun(history + [entry]), windowSize)
  {
    hide TailRun, LastN;
    r := Push(buffer, entry, windowSize);
    LastNAppend(history, entry, windowSize);
    count := ConsecutiveRepeats(r);
    WindowRun(history + [entry], windowSize);
  }

  method Push(buffer: seq<Text>, entry: Text, windowSize: int) returns (r: seq<Text>)
    requires windowSize >= 0
    ensures r == LastN(buffer + [entry], windowSize)
  {
    r := buffer + [entry];
    while |r| > windowSize
      invariant |r| <= |buffer| + 1 && (|r| == |buffer| + 1 || |r| >= windowSize)
      invariant r == (buffer + [entry])[|buffer| + 1 - |r|..]
    {
      r := r[1..];
    }
  }

  /** The buffer after the trimming loop has gone round `k` times; shifting an empty array does
      nothing. */
  function Shifted(buffer: seq<Text>, k: nat): (r: seq<Text>)
    ensures |r| == Max(|buffer| - k, 0)
  {
    if k == 0 || buffer == [] then buffer else Shifted(buffer[1..], k - 1)
  }

  /** The trimming loop ends exactly when the window is not negative. */
  lemma TrimmingEnds(buffer: seq<Text>, windowSize: int)
    ensures windowSize >= 0 <==> exists k: nat :: |Shifted(buffer, k)| <= windowSize
  {
    if windowSize >= 0 { assert |Shifted(buffer, |buffer|)| <= windowSize; }
  }

  method ConsecutiveRepeats(buffer: seq<Text>) returns (count: nat)
    ensures count == TailRun(buffer)
  {
    if |buffer| == 0 {
      return 0;
    }
    var last := buffer[|buffer| - 1];
    count := 0;
    var i := |buffer| - 1;
    while i >= 0
      invariant -1 <= i < |buffer| && count == |buffer| - 1 - i
      invariant forall k :: i < k < |buffer| ==> buffer[k] == last
    {
      if buffer[i] == last {
        count := count + 1;
      } else {
        break;
      }
      i := i - 1;
    }
    TailRunReaches(buffer, count);
    TailRunReaches(buffer, count + 1);
  }

  // ---- what a report means ----------------------------------------------------------------

  /** The last `m` turns, if there are that many, have no `__proto__` keys. */
  ghost predicate EndsPlain(ts: seq<seq<Block>>, m: nat) {
    forall i :: 0 <= i < |ts| && |ts| - m <= i ==> PlainTurn(ts[i])
  }

  /** The last `m` turns asked for the same calls, up to the order of calls and of keys. */
  ghost predicate SameCalls(ts: seq<seq<Block>>, m: nat) {
    m <= |ts| && forall i :: |ts| - m <= i < |ts| ==> multiset(Calls(ts[i])) == multiset(Calls(ts[|ts| - 1]))
  }

  /** Whatever the collation ties, a reported tool loop of turns without `__proto__` keys is one. */
  lemma ToolLoopIsReal(ts: seq<seq<Block>>, le: (Text, Text) -> bool, m: nat)
    requires forall i :: 0 <= i < |ts| ==> Usable(ts[i])
    requires EndsPlain(ts, m) && TailRun(Signatures(ts, le)) >= m
    ensures SameCalls(ts, m)
  {
    hide Signature, Calls, Usable, PlainTurn;
    TailRunReaches(Signatures(ts, le), m);
    forall i | |ts| - m <= i < |ts| ensures multiset(Calls(ts[i])) == multiset(Calls(ts[|ts| - 1])) {
      assert Signature(ts[i], le) == Signatures(ts, le)[i] == Signatures(ts, le)[|ts| - 1]
          == Signature(ts[|ts| - 1], le);
      SignatureSound(ts[i], ts[|ts| - 1], le);
    }
  }

  /** With a collation that ties only on equal strings every tool loop is reported; and of turns
      without `__proto__` keys nothing else is. */
  lemma ToolLoopMeaning(ts: seq<seq<Block>>, le: (Text, Text) -> bool, m: nat)
    requires forall i :: 0 <= i < |ts| ==> Usable(ts[i])
    requires Preorder(le) && forall a, b :: le(a, b) && le(b, a) ==> a == b
    ensures SameCalls(ts, m) ==> TailRun(Signatures(ts, le)) >= m
    ensures EndsPlain(ts, m) ==> (TailRun(Signatures(ts, le)) >= m <==> SameCalls(ts, m))
  {
    hide Signature, Calls, Usable, Preorder, PlainTurn;
    TailRunReaches(Signatures(ts, le), m);
    forall i | 0 <= i < |ts|
      ensures Signatures(ts, le)[i] == Signature(ts[i], le)
      ensures multiset(Calls(ts[i])) == multiset(Calls(ts[|ts| - 1])) ==>
          Signature(ts[i], le) == Signature(ts[|ts| - 1], le)
    {
      SignatureExact(ts[i], ts[|ts| - 1], le);
    }
    if EndsPlain(ts, m) && TailRun(Signatures(ts, le)) >= m { ToolLoopIsReal(ts, le, m); }
  }

  /** A turn can be taken for the repetition of another one that asked for something else, itself
      without `__proto__` keys, exactly when it has such a key. */
  lemma FalseLoopsExactly(bs: seq<Block>, le: (Text, Text) -> bool)
    requires Usable(bs)
    ensures PlainTurn(bs) <==>
            forall cs :: Usable(cs) && PlainTurn(cs) && TailRun(Signatures([cs, bs], le)) >= 2 ==>
                SameCalls([cs, bs], 2)
  {
    hide Signature, Calls, Usable, PlainTurn;
    forall cs ensures TailRun(Signatures([cs, bs], le)) >= 2 <==> Signature(cs, le) == Signature(bs, le) {
      TailRunReaches(Signatures([cs, bs], le), 2);
      assert Signatures([cs, bs], le)[0] == Signature(cs, le) && Signatures([cs, bs], le)[1] == Signature(bs, le);
    }
    forall cs ensures SameCalls([cs, bs], 2) <==> multiset(Calls(cs)) == multiset(Calls(bs)) {
      assert [cs, bs][0] == cs && [cs, bs][1] == bs;
    }
    SignatureTells(bs, le);
  }

  /** A text loop is reported exactly when the last `m` texts with words have the same words. */
  lemma TextLoopMeaning(ts: seq<Text>, m: nat)
    ensures TailRun(Normals(ts)) >= m <==>
            m <= |ts| && forall i :: |ts| - m <= i < |ts| ==> Words(ts[i]) == Words(ts[|ts| - 1])
  {
    hide Normalise, Words;
    TailRunReaches(Normals(ts), m);
    forall i | 0 <= i < |ts|
      ensures Normals(ts)[i] == Normalise(ts[i])
      ensures Normalise(ts[i]) == Normalise(ts[|ts| - 1]) <==> Words(ts[i]) == Words(ts[|ts| - 1])
    {
      SameTextSameWords(ts[i], ts[|ts| - 1]);
    }
  }
}
