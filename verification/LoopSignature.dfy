/** `sortKeys` and the signature of a turn's tool calls: what a signature identifies. */
module LoopSignature {
  import opened LoopText
  import opened LoopJson
  import opened LoopSort

  // ---- sortKeys -----------------------------------------------------------------------

  /** `__proto__`: assigning it on an object literal sets the prototype and adds no key. */
  const PROTO: Text := [95, 95, 112, 114, 111, 116, 111, 95, 95]

  /** The value of a decimal text. */
  function Decimal(t: Text): int {
    if t == [] then 0 else Decimal(t[..|t| - 1]) * 10 + ((t[|t| - 1] as int) - 48)
  }

  /** Keys that JavaScript enumerates first, in numeric order. */
  predicate IsIndex(t: Text) {
    && t != []
    && (forall i :: 0 <= i < |t| ==> 48 <= t[i] <= 57)
    && (t[0] == 48 ==> |t| == 1)
    && Decimal(t) < 0xFFFF_FFFF
  }

  predicate KeyBefore(a: Member, b: Member) { TextLe(a.key, b.key) }
  predicate IndexBefore(a: Member, b: Member) { Decimal(a.key) <= Decimal(b.key) }
  predicate Indexed(m: Member) { IsIndex(m.key) }
  predicate Named(m: Member) { !IsIndex(m.key) }
  predicate Assignable(m: Member) { m.key != PROTO }

  /** The order in which an object lists members added in the order `ms`. */
  function Enumerate(ms: seq<Member>): seq<Member> {
    SortBy(Keep(ms, Indexed), IndexBefore) + Keep(ms, Named)
  }

  /** The members of the object the loop over the sorted keys builds. */
  function Arrange(ms: seq<Member>): seq<Member> {
    Enumerate(Keep(SortBy(ms, KeyBefore), Assignable))
  }

  function SortKeys(v: Json): Json
    decreases v, 1
  {
    match v
    case Arr(items) => Arr(seq(|items|, i requires 0 <= i < |items| => SortKeys(items[i])))
    case Obj(ms) => Obj(Arrange(SortedValues(ms)))
    case _ => v
  }

  /** The members with the keys of their values sorted. */
  function SortedValues(ms: seq<Member>): (r: seq<Member>)
    ensures |r| == |ms|
    ensures forall i :: 0 <= i < |ms| ==> r[i] == Member(ms[i].key, SortKeys(ms[i].value))
    decreases ms, 0
  {
    seq(|ms|, i requires 0 <= i < |ms| => Member(ms[i].key, SortKeys(ms[i].value)))
  }

  // ---- meaning ------------------------------------------------------------------------

  /** A JSON value with objects as dictionaries: key order is not part of it. */
  datatype Meaning =
    | MNull | MBool(value: bool) | MNumber(text: Text) | MStr(text: Text)
    | MArr(items: seq<Meaning>) | MObj(members: map<Text, Meaning>)

  /** The meaning of a value whose objects do not show the `hidden` keys. */
  function Denote(v: Json, hidden: set<Text>): Meaning
    decreases v, 1
  {
    match v
    case Null => MNull
    case Bool(b) => MBool(b)
    case Number(t) => MNumber(t)
    case Str(t) => MStr(t)
    case Arr(items) => MArr(seq(|items|, i requires 0 <= i < |items| => Denote(items[i], hidden)))
    case Obj(ms) => MObj(DenoteMembers(ms, hidden))
  }

  function DenoteMembers(ms: seq<Member>, hidden: set<Text>): map<Text, Meaning>
    decreases ms, 0
  {
    if ms == [] then map[]
    else
      var rest := DenoteMembers(ms[1..], hidden);
      if ms[0].key in hidden then rest else rest[ms[0].key := Denote(ms[0].value, hidden)]
  }

  ghost predicate DistinctKeys(ms: seq<Member>) {
    forall i, j :: 0 <= i < j < |ms| ==> ms[i].key != ms[j].key
  }

  lemma {:induction false} MembersDomain(ms: seq<Member>, hidden: set<Text>, k: Text)
    ensures k in DenoteMembers(ms, hidden) <==> k !in hidden && exists i :: 0 <= i < |ms| && ms[i].key == k
    decreases |ms|
  {
    if ms != [] {
      MembersDomain(ms[1..], hidden, k);
      if k in DenoteMembers(ms[1..], hidden) {
        var i :| 0 <= i < |ms[1..]| && ms[1..][i].key == k;
        assert ms[i + 1].key == k;
      }
      if i :| 0 <= i < |ms| && ms[i].key == k {
        assert i > 0 ==> ms[1..][i - 1].key == k;
      }
    }
  }

  lemma {:induction false} MemberMeaning(ms: seq<Member>, hidden: set<Text>, i: nat)
    requires DistinctKeys(ms) && i < |ms| && ms[i].key !in hidden
    ensures ms[i].key in DenoteMembers(ms, hidden)
    ensures DenoteMembers(ms, hidden)[ms[i].key] == Denote(ms[i].value, hidden)
    decreases |ms|
  {
    if i > 0 { MemberMeaning(ms[1..], hidden, i - 1); }
  }

  // ---- what Arrange keeps ---------------------------------------------------------------

  lemma Twice<T>(s: seq<T>, i: nat, j: nat)
    requires i < j < |s| && s[i] == s[j]
    ensures multiset(s)[s[i]] >= 2
  {
    assert s == s[..j] + ([s[j]] + s[j + 1..]);
    assert s[i] in s[..j];
  }

  lemma {:induction false} CountDistinct(ms: seq<Member>, x: Member)
    requires DistinctKeys(ms)
    ensures multiset(ms)[x] == if x in ms then 1 else 0
    decreases |ms|
  {
    if ms != [] {
      CountDistinct(ms[1..], x);
      assert ms == [ms[0]] + ms[1..];
    }
  }

  lemma EnumerateCount(ms: seq<Member>, x: Member)
    ensures multiset(Enumerate(ms))[x] == multiset(ms)[x]
  {
    SortPermutes(Keep(ms, Indexed), IndexBefore);
    KeepElements(ms, Indexed, x);
    KeepElements(ms, Named, x);
  }

  lemma ArrangeCount(ms: seq<Member>, x: Member)
    requires DistinctKeys(ms)
    ensures multiset(Arrange(ms))[x] == if x in ms && x.key != PROTO then 1 else 0
  {
    var sorted := SortBy(ms, KeyBefore);
    EnumerateCount(Keep(sorted, Assignable), x);
    KeepElements(sorted, Assignable, x);
    SortPermutes(ms, KeyBefore);
    CountDistinct(ms, x);
  }

  /** The loop keeps every member but `__proto__`, and no key appears twice. */
  lemma ArrangeKeeps(ms: seq<Member>)
    requires DistinctKeys(ms)
    ensures DistinctKeys(Arrange(ms))
    ensures forall x :: x in Arrange(ms) <==> x in ms && x.key != PROTO
  {
    hide Arrange;
    var e := Arrange(ms);
    forall x ensures x in e <==> x in ms && x.key != PROTO {
      ArrangeCount(ms, x);
      assert x in e <==> x in multiset(e);
    }
    forall i, j | 0 <= i < j < |e| ensures e[i].key != e[j].key {
      if e[i].key == e[j].key {
        assert e[i] in ms && e[j] in ms;
        ArrangeCount(ms, e[i]);
        Twice(e, i, j);
      }
    }
  }

  lemma KeyOrder()
    ensures Preorder(KeyBefore)
  {
    forall x: Member, y: Member ensures KeyBefore(x, y) || KeyBefore(y, x) { TextLeTotal(x.key, y.key); }
    forall x: Member, y: Member, z: Member | KeyBefore(x, y) && KeyBefore(y, z) ensures KeyBefore(x, z) {
      TextLeTrans(x.key, y.key, z.key);
    }
  }

  /** Key order of the argument is lost. */
  lemma ArrangeCanonical(ms: seq<Member>, ns: seq<Member>)
    requires DistinctKeys(ms) && DistinctKeys(ns)
    requires forall x: Member :: x.key != PROTO ==> (x in ms <==> x in ns)
    ensures Arrange(ms) == Arrange(ns)
  {
    hide Preorder, SortBy, Keep, KeyBefore;
    KeyOrder();
    var a, b := SortBy(ms, KeyBefore), SortBy(ns, KeyBefore);
    SortSorts(ms, KeyBefore);
    SortSorts(ns, KeyBefore);
    SortPermutes(ms, KeyBefore);
    SortPermutes(ns, KeyBefore);
    KeepSorted(a, Assignable, KeyBefore);
    KeepSorted(b, Assignable, KeyBefore);
    forall x ensures multiset(Keep(a, Assignable))[x] == multiset(Keep(b, Assignable))[x] {
      KeepElements(a, Assignable, x);
      KeepElements(b, Assignable, x);
      CountDistinct(ms, x);
      CountDistinct(ns, x);
    }
    assert multiset(Keep(a, Assignable)) == multiset(Keep(b, Assignable));
    KeptTies(ms, a);
    SortedUnique(Keep(a, Assignable), Keep(b, Assignable), KeyBefore);
  }

  lemma KeptTies(ms: seq<Member>, a: seq<Member>)
    requires DistinctKeys(ms) && multiset(a) == multiset(ms)
    ensures TiesAreEqual(Keep(a, Assignable), KeyBefore)
  {
    var k := Keep(a, Assignable);
    forall i, j | 0 <= i < |k| && 0 <= j < |k| && KeyBefore(k[i], k[j]) && KeyBefore(k[j], k[i]) ensures k[i] == k[j] {
      TextLeTotal(k[i].key, k[j].key);
      KeepElements(a, Assignable, k[i]);
      KeepElements(a, Assignable, k[j]);
      assert k[i] in multiset(k) && k[j] in multiset(k);
      assert k[i] in ms && k[j] in ms;
    }
  }

  // ---- sortKeys keeps the meaning and is canonical -----------------------------------------

  /** Sorting the keys changes nothing but the key order and the loss of `__proto__` keys. */
  lemma {:induction false} SortKeysMeaning(v: Json)
    requires WellFormed(v)
    ensures WellFormed(SortKeys(v)) && Denote(SortKeys(v), {}) == Denote(v, {PROTO})
  {
    match v
    case Arr(items) =>
      forall i | 0 <= i < |items|
        ensures WellFormed(SortKeys(items[i])) && Denote(SortKeys(items[i]), {}) == Denote(items[i], {PROTO})
      { SortKeysMeaning(items[i]); }
    case Obj(ms) =>
      forall i | 0 <= i < |ms|
        ensures WellFormed(SortKeys(ms[i].value)) && Denote(SortKeys(ms[i].value), {}) == Denote(ms[i].value, {PROTO})
      { SortKeysMeaning(ms[i].value); }
      ArrangedMeaning(ms);
    case _ =>
  }

  lemma {:induction false} ArrangedMeaning(ms: seq<Member>)
    requires DistinctKeys(ms)
    requires forall i :: 0 <= i < |ms| ==>
      WellFormed(SortKeys(ms[i].value)) && Denote(SortKeys(ms[i].value), {}) == Denote(ms[i].value, {PROTO})
    ensures WellFormed(Obj(Arrange(SortedValues(ms))))
    ensures DenoteMembers(Arrange(SortedValues(ms)), {}) == DenoteMembers(ms, {PROTO})
  {
    hide Arrange, Denote, DenoteMembers, SortKeys, SortedValues, WellFormed, DistinctKeys;
    var e := Arrange(SortedValues(ms));
    var left, right := DenoteMembers(e, {}), DenoteMembers(ms, {PROTO});
    SortedValuesKeys(ms);
    ArrangeKeeps(SortedValues(ms));
    forall i | 0 <= i < |e| ensures WellFormed(e[i].value) { var _ := SourceOf(ms, e[i]); }
    WellFormedObject(e);
    forall k ensures k in left <==> k in right { ArrangedDomain(ms, e, k); }
    forall k | k in left ensures left[k] == right[k] { ArrangedValue(ms, e, k); }
  }

  lemma SortedValuesKeys(ms: seq<Member>)
    requires DistinctKeys(ms)
    ensures DistinctKeys(SortedValues(ms))
  {
  }

  lemma WellFormedObject(ms: seq<Member>)
    requires DistinctKeys(ms) && forall i :: 0 <= i < |ms| ==> WellFormed(ms[i].value)
    ensures WellFormed(Obj(ms))
  {
  }

  lemma {:induction false} ArrangedValue(ms: seq<Member>, e: seq<Member>, k: Text)
    requires DistinctKeys(ms) && DistinctKeys(e)
    requires forall x :: x in e <==> x in SortedValues(ms) && x.key != PROTO
    requires forall i :: 0 <= i < |ms| ==> Denote(SortKeys(ms[i].value), {}) == Denote(ms[i].value, {PROTO})
    requires k in DenoteMembers(e, {})
    ensures k in DenoteMembers(ms, {PROTO}) && DenoteMembers(e, {})[k] == DenoteMembers(ms, {PROTO})[k]
  {
    hide Denote, DenoteMembers, SortKeys, SortedValues, DistinctKeys;
    MembersDomain(e, {}, k);
    var i :| 0 <= i < |e| && e[i].key == k;
    var j := SourceOf(ms, e[i]);
    MemberMeaning(e, {}, i);
    MemberMeaning(ms, {PROTO}, j);
  }

  ghost function SourceOf(ms: seq<Member>, x: Member): (j: nat)
    requires x in SortedValues(ms)
    ensures j < |ms| && x == Member(ms[j].key, SortKeys(ms[j].value))
  {
    var j: nat :| j < |ms| && SortedValues(ms)[j] == x;
    j
  }

  lemma ArrangedDomain(ms: seq<Member>, e: seq<Member>, k: Text)
    requires forall x :: x in e <==> x in SortedValues(ms) && x.key != PROTO
    ensures k in DenoteMembers(e, {}) <==> k in DenoteMembers(ms, {PROTO})
  {
    hide DenoteMembers, SortKeys;
    MembersDomain(e, {}, k);
    MembersDomain(ms, {PROTO}, k);
    if k in DenoteMembers(e, {}) {
      var i :| 0 <= i < |e| && e[i].key == k;
      var j := SourceOf(ms, e[i]);
      assert ms[j].key == k;
    }
    if k in DenoteMembers(ms, {PROTO}) {
      var i :| 0 <= i < |ms| && ms[i].key == k;
      assert SortedValues(ms)[i] in e;
    }
  }

  /** Two values have the same sorted form exactly when they mean the same, `__proto__` keys
      aside. */
  lemma SortKeysCanonical(v: Json, w: Json)
    requires WellFormed(v) && WellFormed(w)
    ensures SortKeys(v) == SortKeys(w) <==> Denote(v, {PROTO}) == Denote(w, {PROTO})
  {
    SortKeysMeaning(v);
    SortKeysMeaning(w);
    if Denote(v, {PROTO}) == Denote(w, {PROTO}) { SameSortedForm(v, w, {PROTO}); }
  }

  /** The sorted form depends on the meaning only, `__proto__` keys counted or not. */
  lemma {:induction false} SameSortedForm(v: Json, w: Json, hidden: set<Text>)
    requires hidden <= {PROTO} && WellFormed(v) && WellFormed(w) && Denote(v, hidden) == Denote(w, hidden)
    ensures SortKeys(v) == SortKeys(w)
    decreases v
  {
    match v
    case Arr(items) =>
      var a, b := Denote(v, hidden).items, Denote(w, hidden).items;
      assert |a| == |items| && |b| == |w.items|;
      forall i | 0 <= i < |items| ensures SortKeys(items[i]) == SortKeys(w.items[i]) {
        assert a[i] == b[i];
        SameSortedForm(items[i], w.items[i], hidden);
      }
    case Obj(ms) =>
      forall i, j | 0 <= i < |ms| && 0 <= j < |w.members| && ms[i].key == w.members[j].key != PROTO
        ensures SortedValues(ms)[i] == SortedValues(w.members)[j]
      {
        MemberMeaning(ms, hidden, i);
        MemberMeaning(w.members, hidden, j);
        SameSortedForm(ms[i].value, w.members[j].value, hidden);
      }
      SameMembers(ms, w.members, hidden);
      ArrangeCanonical(SortedValues(ms), SortedValues(w.members));
    case _ =>
  }

  /** Members with the same key, if it is assignable, have the same sorted value. */
  ghost predicate Agree(ms: seq<Member>, ns: seq<Member>) {
    forall i, j :: 0 <= i < |ms| && 0 <= j < |ns| && ms[i].key == ns[j].key != PROTO ==>
        SortedValues(ms)[i] == SortedValues(ns)[j]
  }

  lemma {:induction false} SameMembers(ms: seq<Member>, ns: seq<Member>, hidden: set<Text>)
    requires hidden <= {PROTO} && DenoteMembers(ms, hidden) == DenoteMembers(ns, hidden) && Agree(ms, ns)
    ensures forall x: Member :: x.key != PROTO ==> (x in SortedValues(ms) <==> x in SortedValues(ns))
  {
    hide DenoteMembers, SortKeys, SortedValues, Agree;
    assert Agree(ns, ms) by { AgreeBack(ms, ns); }
    forall x: Member | x.key != PROTO ensures x in SortedValues(ms) <==> x in SortedValues(ns) {
      if x in SortedValues(ms) { SharedMember(ms, ns, x, hidden); }
      if x in SortedValues(ns) { SharedMember(ns, ms, x, hidden); }
    }
  }

  lemma AgreeBack(ms: seq<Member>, ns: seq<Member>)
    requires Agree(ms, ns)
    ensures Agree(ns, ms)
  {
  }

  lemma SharedMember(ms: seq<Member>, ns: seq<Member>, x: Member, hidden: set<Text>)
    requires hidden <= {PROTO} && DenoteMembers(ms, hidden) == DenoteMembers(ns, hidden) && Agree(ms, ns)
    requires x in SortedValues(ms) && x.key != PROTO
    ensures x in SortedValues(ns)
  {
    hide DenoteMembers, SortKeys, SortedValues;
    var i := SourceOf(ms, x);
    var j := WithKey(ms, ns, i, hidden);
    assert SortedValues(ms)[i] == SortedValues(ns)[j];
  }

  ghost function WithKey(ms: seq<Member>, ns: seq<Member>, i: nat, hidden: set<Text>): (j: nat)
    requires hidden <= {PROTO} && DenoteMembers(ms, hidden) == DenoteMembers(ns, hidden)
    requires i < |ms| && ms[i].key != PROTO
    ensures j < |ns| && ns[j].key == ms[i].key
  {
    MembersDomain(ms, hidden, ms[i].key);
    MembersDomain(ns, hidden, ms[i].key);
    var j: nat :| j < |ns| && ns[j].key == ms[i].key;
    j
  }

  /** No object in the value has a `__proto__` key. */
  predicate ProtoFree(v: Json) {
    match v
    case Arr(items) => forall i :: 0 <= i < |items| ==> ProtoFree(items[i])
    case Obj(ms) => forall i :: 0 <= i < |ms| ==> ms[i].key != PROTO && ProtoFree(ms[i].value)
    case _ => true
  }

  /** Sorting the keys loses something exactly when there is a `__proto__` key. */
  lemma {:induction false} ProtoKeysAreLost(v: Json)
    requires WellFormed(v)
    ensures Denote(SortKeys(v), {}) == Denote(v, {}) <==> ProtoFree(v)
  {
    SortKeysMeaning(v);
    HiddenIsLost(v);
  }

  lemma {:induction false} HiddenIsLost(v: Json)
    requires WellFormed(v)
    ensures Denote(v, {PROTO}) == Denote(v, {}) <==> ProtoFree(v)
  {
    match v
    case Arr(items) =>
      var a, b := Denote(v, {PROTO}).items, Denote(v, {}).items;
      forall i | 0 <= i < |items| ensures a[i] == b[i] <==> ProtoFree(items[i]) { HiddenIsLost(items[i]); }
      assert a == b <==> forall i :: 0 <= i < |items| ==> a[i] == b[i];
    case Obj(ms) =>
      var a, b := DenoteMembers(ms, {PROTO}), DenoteMembers(ms, {});
      forall i | 0 <= i < |ms|
        ensures Denote(ms[i].value, {PROTO}) == Denote(ms[i].value, {}) <==> ProtoFree(ms[i].value)
      {
        HiddenIsLost(ms[i].value);
      }
      HiddenMembers(ms);
    case _ =>
  }

  lemma HiddenMembers(ms: seq<Member>)
    requires DistinctKeys(ms)
    ensures DenoteMembers(ms, {PROTO}) == DenoteMembers(ms, {}) <==>
            forall i :: 0 <= i < |ms| ==> ms[i].key != PROTO && Denote(ms[i].value, {PROTO}) == Denote(ms[i].value, {})
  {
    hide Denote, DenoteMembers;
    var a, b := DenoteMembers(ms, {PROTO}), DenoteMembers(ms, {});
    forall k ensures k in b ==> exists i :: 0 <= i < |ms| && ms[i].key == k { MembersDomain(ms, {}, k); }
    forall k ensures k in a ==> k in b { MembersDomain(ms, {PROTO}, k); MembersDomain(ms, {}, k); }
    forall i | 0 <= i < |ms|
      ensures ms[i].key in b && b[ms[i].key] == Denote(ms[i].value, {})
      ensures if ms[i].key == PROTO then PROTO !in a else ms[i].key in a && a[ms[i].key] == Denote(ms[i].value, {PROTO})
    {
      MemberMeaning(ms, {}, i);
      if ms[i].key == PROTO { MembersDomain(ms, {PROTO}, PROTO); } else { MemberMeaning(ms, {PROTO}, i); }
    }
  }

  // ---- the signature of a turn --------------------------------------------------------------

  datatype Block = Block(name: Text, input: Json)

  const NAME: Text := [110, 97, 109, 101]
  const INPUT: Text := [105, 110, 112, 117, 116]

  /** What a call asks for: the tool and the meaning of its input. */
  datatype Asked = Asked(name: Text, input: Meaning)

  ghost predicate Usable(bs: seq<Block>) {
    forall i :: 0 <= i < |bs| ==> WellFormed(bs[i].input)
  }

  /** No input of the turn has a `__proto__` key anywhere. */
  ghost predicate PlainTurn(bs: seq<Block>) {
    forall i :: 0 <= i < |bs| ==> ProtoFree(bs[i].input)
  }

  function Items(bs: seq<Block>): (r: seq<Block>)
    ensures |r| == |bs|
    ensures forall i :: 0 <= i < |bs| ==> r[i] == Block(bs[i].name, SortKeys(bs[i].input))
  {
    seq(|bs|, i requires 0 <= i < |bs| => Block(bs[i].name, SortKeys(bs[i].input)))
  }

  /** The calls of a turn as they would be if objects had no `hidden` keys. */
  function CallsWithout(bs: seq<Block>, hidden: set<Text>): (r: seq<Asked>)
    ensures |r| == |bs|
    ensures forall i :: 0 <= i < |bs| ==> r[i] == Asked(bs[i].name, Denote(bs[i].input, hidden))
  {
    seq(|bs|, i requires 0 <= i < |bs| => Asked(bs[i].name, Denote(bs[i].input, hidden)))
  }

  /** The calls of a turn, inputs in full. */
  function Calls(bs: seq<Block>): seq<Asked> { CallsWithout(bs, {}) }

  function VisibleCalls(bs: seq<Block>): seq<Asked> { CallsWithout(bs, {PROTO}) }

  /** The comparator: by name, then by printed input; `le` is the collation order. */
  function ByCall(le: (Text, Text) -> bool): (Block, Block) -> bool {
    (a: Block, b: Block) =>
      if le(a.name, b.name) && le(b.name, a.name) then le(Print(a.input), Print(b.input)) else le(a.name, b.name)
  }

  function ItemJson(b: Block): Json {
    Obj([Member(NAME, Str(b.name)), Member(INPUT, b.input)])
  }

  function AsJson(bs: seq<Block>): Json {
    Arr(seq(|bs|, i requires 0 <= i < |bs| => ItemJson(bs[i])))
  }

  function Signature(bs: seq<Block>, le: (Text, Text) -> bool): Text {
    Print(AsJson(SortBy(Items(bs), ByCall(le))))
  }

  lemma CallOrder(le: (Text, Text) -> bool)
    requires Preorder(le)
    ensures Preorder(ByCall(le))
  {
    var below := ByCall(le);
    forall a, b ensures below(a, b) || below(b, a) { assert le(a.name, b.name) || le(b.name, a.name); }
    forall a, b, c | below(a, b) && below(b, c) ensures below(a, c) { CallTransitive(le, a, b, c); }
  }

  lemma CallTransitive(le: (Text, Text) -> bool, a: Block, b: Block, c: Block)
    requires Preorder(le) && ByCall(le)(a, b) && ByCall(le)(b, c)
    ensures ByCall(le)(a, c)
  {
  }

  lemma SortedItems(bs: seq<Block>, le: (Text, Text) -> bool)
    requires Usable(bs)
    ensures WellFormed(AsJson(SortBy(Items(bs), ByCall(le))))
  {
    hide SortKeys, SortBy, ByCall;
    var s := SortBy(Items(bs), ByCall(le));
    SortPermutes(Items(bs), ByCall(le));
    forall i | 0 <= i < |s| ensures WellFormed(ItemJson(s[i])) {
      assert s[i] in multiset(Items(bs));
      var j :| 0 <= j < |bs| && Items(bs)[j] == s[i];
      SortKeysMeaning(bs[j].input);
      assert NAME[0] != INPUT[0];
    }
  }

  /** A signature determines the sorted items. */
  lemma SignatureItems(bs: seq<Block>, cs: seq<Block>, le: (Text, Text) -> bool)
    requires Usable(bs) && Usable(cs)
    ensures Signature(bs, le) == Signature(cs, le) <==> SortBy(Items(bs), ByCall(le)) == SortBy(Items(cs), ByCall(le))
  {
    hide SortBy, ByCall, Print;
    var s, t := SortBy(Items(bs), ByCall(le)), SortBy(Items(cs), ByCall(le));
    SortedItems(bs, le);
    SortedItems(cs, le);
    StringifyInjective(AsJson(s), AsJson(t));
    if AsJson(s) == AsJson(t) {
      assert |AsJson(s).items| == |s| && |AsJson(t).items| == |t|;
      forall i | 0 <= i < |s| ensures s[i] == t[i] {
        assert ItemJson(s[i]) == AsJson(s).items[i] == AsJson(t).items[i] == ItemJson(t[i]);
        ItemUnique(s[i], t[i]);
      }
    }
  }

  lemma ItemUnique(a: Block, b: Block)
    requires ItemJson(a) == ItemJson(b)
    ensures a == b
  {
  }

  function Drop<T>(s: seq<T>, j: nat): (r: seq<T>)
    requires j < |s|
    ensures |r| == |s| - 1
    ensures forall k :: 0 <= k < |r| ==> r[k] == s[if k < j then k else k + 1]
    ensures multiset(s) == multiset(r) + multiset{s[j]}
  {
    assert s == s[..j] + ([s[j]] + s[j + 1..]);
    s[..j] + s[j + 1..]
  }

  /** Sequences with the same elements keep them when equal elements are replaced alike. */
  lemma {:induction false} Transfer<A, B>(a: seq<A>, a': seq<B>, b: seq<A>, b': seq<B>)
    requires |a| == |a'| && |b| == |b'| && multiset(a) == multiset(b)
    requires forall i, j :: 0 <= i < |a| && 0 <= j < |b| && a[i] == b[j] ==> a'[i] == b'[j]
    ensures multiset(a') == multiset(b')
    decreases |a|
  {
    hide Drop;
    if a == [] {
      assert |multiset(b)| == 0;
    } else {
      assert a[0] in multiset(b);
      var j :| 0 <= j < |b| && b[j] == a[0];
      assert multiset(Drop(a, 0)) == multiset(a) - multiset{a[0]};
      assert multiset(Drop(b, j)) == multiset(b) - multiset{a[0]};
      assert a'[0] == b'[j];
      Transfer(Drop(a, 0), Drop(a', 0), Drop(b, j), Drop(b', j));
    }
  }

  lemma ItemsAreCalls(bs: seq<Block>, cs: seq<Block>)
    requires Usable(bs) && Usable(cs)
    ensures multiset(Items(bs)) == multiset(Items(cs)) <==> multiset(VisibleCalls(bs)) == multiset(VisibleCalls(cs))
  {
    hide SortKeys, Denote;
    forall i, j | 0 <= i < |bs| && 0 <= j < |cs|
      ensures Items(bs)[i] == Items(cs)[j] <==> VisibleCalls(bs)[i] == VisibleCalls(cs)[j]
    {
      SortKeysCanonical(bs[i].input, cs[j].input);
    }
    if multiset(Items(bs)) == multiset(Items(cs)) {
      Transfer(Items(bs), VisibleCalls(bs), Items(cs), VisibleCalls(cs));
    }
    if multiset(VisibleCalls(bs)) == multiset(VisibleCalls(cs)) {
      Transfer(VisibleCalls(bs), Items(bs), VisibleCalls(cs), Items(cs));
    }
  }

  lemma FullCallsAreVisible(bs: seq<Block>, cs: seq<Block>)
    requires Usable(bs) && Usable(cs) && multiset(Calls(bs)) == multiset(Calls(cs))
    ensures multiset(Items(bs)) == multiset(Items(cs))
  {
    hide SortKeys, Denote;
    forall i, j | 0 <= i < |bs| && 0 <= j < |cs| && Calls(bs)[i] == Calls(cs)[j] ensures Items(bs)[i] == Items(cs)[j] {
      SameSortedForm(bs[i].input, cs[j].input, {});
    }
    Transfer(Calls(bs), Items(bs), Calls(cs), Items(cs));
  }

  lemma PlainCallsAreVisible(bs: seq<Block>)
    requires Usable(bs) && PlainTurn(bs)
    ensures Calls(bs) == VisibleCalls(bs)
  {
    hide Denote, ProtoFree;
    forall i | 0 <= i < |bs| ensures Calls(bs)[i] == VisibleCalls(bs)[i] { HiddenIsLost(bs[i].input); }
  }

  lemma SignatureVisible(bs: seq<Block>, cs: seq<Block>, le: (Text, Text) -> bool)
    requires Usable(bs) && Usable(cs) && Signature(bs, le) == Signature(cs, le)
    ensures multiset(VisibleCalls(bs)) == multiset(VisibleCalls(cs))
  {
    hide Signature, SortBy;
    SignatureItems(bs, cs, le);
    SortPermutes(Items(bs), ByCall(le));
    SortPermutes(Items(cs), ByCall(le));
    ItemsAreCalls(bs, cs);
  }

  /** Equal signatures of turns without `__proto__` keys come from turns that ask for the same
      calls, as often each, whatever the collation. */
  lemma SignatureSound(bs: seq<Block>, cs: seq<Block>, le: (Text, Text) -> bool)
    requires Usable(bs) && Usable(cs) && PlainTurn(bs) && PlainTurn(cs) && Signature(bs, le) == Signature(cs, le)
    ensures multiset(Calls(bs)) == multiset(Calls(cs))
  {
    hide Signature, Calls, VisibleCalls;
    SignatureVisible(bs, cs, le);
    PlainCallsAreVisible(bs);
    PlainCallsAreVisible(cs);
  }

  /** A turn is recognised however its calls and keys are ordered exactly when its comparator
      does not tie two different items. */
  lemma {:induction false} SignatureComplete(bs: seq<Block>, le: (Text, Text) -> bool)
    requires Usable(bs) && Preorder(le)
    ensures TiesAreEqual(Items(bs), ByCall(le)) <==>
            forall cs :: Usable(cs) && multiset(Calls(cs)) == multiset(Calls(bs)) ==>
                Signature(cs, le) == Signature(bs, le)
  {
    hide Signature, SortBy, Preorder, Usable, Calls;
    CallOrder(le);
    OrderIrrelevant(Items(bs), ByCall(le));
    if TiesAreEqual(Items(bs), ByCall(le)) {
      forall cs | Usable(cs) && multiset(Calls(cs)) == multiset(Calls(bs))
        ensures Signature(cs, le) == Signature(bs, le)
      {
        FullCallsAreVisible(cs, bs);
        SignatureItems(cs, bs, le);
      }
    } else {
      var i :| 0 <= i < |bs| && SortBy(ToFront(Items(bs), i), ByCall(le)) != SortBy(Items(bs), ByCall(le));
      CallToFront(bs, i);
      SignatureItems(ToFront(bs, i), bs, le);
    }
  }

  lemma CallToFront(bs: seq<Block>, i: nat)
    requires Usable(bs) && i < |bs|
    ensures Usable(ToFront(bs, i)) && Items(ToFront(bs, i)) == ToFront(Items(bs), i)
    ensures multiset(Calls(ToFront(bs, i))) == multiset(Calls(bs))
  {
    hide SortKeys, Denote, Items, CallsWithout, WellFormed;
    assert Items(ToFront(bs, i)) == ToFront(Items(bs), i);
    assert Calls(ToFront(bs, i)) == ToFront(Calls(bs), i);
    ToFrontElements(Calls(bs), i);
  }

  /** With a collation that ties only on equal strings, signatures are equal exactly when the calls
      are, `__proto__` keys aside. */
  lemma {:induction false} SignatureVisibleExact(bs: seq<Block>, cs: seq<Block>, le: (Text, Text) -> bool)
    requires Usable(bs) && Usable(cs) && Preorder(le)
    requires forall a, b :: le(a, b) && le(b, a) ==> a == b
    ensures Signature(bs, le) == Signature(cs, le) <==> multiset(VisibleCalls(bs)) == multiset(VisibleCalls(cs))
  {
    hide Signature, Preorder, SortKeys, Print, VisibleCalls, SortBy, ToFront;
    var s := Items(bs);
    forall i, j | 0 <= i < |s| && 0 <= j < |s| && ByCall(le)(s[i], s[j]) && ByCall(le)(s[j], s[i])
      ensures s[i] == s[j]
    {
      SortKeysMeaning(bs[i].input);
      SortKeysMeaning(bs[j].input);
      StringifyInjective(s[i].input, s[j].input);
    }
    CallOrder(le);
    OrderIrrelevant(s, ByCall(le));
    ItemsAreCalls(bs, cs);
    SignatureItems(bs, cs, le);
    if Signature(bs, le) == Signature(cs, le) { SignatureVisible(bs, cs, le); }
  }

  /** With such a collation, turns that ask for the same calls have the same signature, and turns
      without `__proto__` keys only they do. */
  lemma SignatureExact(bs: seq<Block>, cs: seq<Block>, le: (Text, Text) -> bool)
    requires Usable(bs) && Usable(cs) && Preorder(le)
    requires forall a, b :: le(a, b) && le(b, a) ==> a == b
    ensures multiset(Calls(bs)) == multiset(Calls(cs)) ==> Signature(bs, le) == Signature(cs, le)
    ensures PlainTurn(bs) && PlainTurn(cs) ==>
            (Signature(bs, le) == Signature(cs, le) <==> multiset(Calls(bs)) == multiset(Calls(cs)))
  {
    hide Signature, Preorder, Calls, VisibleCalls;
    SignatureVisibleExact(bs, cs, le);
    ItemsAreCalls(bs, cs);
    if multiset(Calls(bs)) == multiset(Calls(cs)) { FullCallsAreVisible(bs, cs); }
    if PlainTurn(bs) && PlainTurn(cs) {
      PlainCallsAreVisible(bs);
      PlainCallsAreVisible(cs);
    }
  }

  // ---- exactly which turns signatures tell from others ------------------------------------------

  /** No dictionary of the meaning has a `__proto__` key. */
  predicate PlainMeaning(m: Meaning) {
    match m
    case MArr(items) => forall i :: 0 <= i < |items| ==> PlainMeaning(items[i])
    case MObj(members) => PROTO !in members && forall k :: k in members ==> PlainMeaning(members[k])
    case _ => true
  }

  lemma {:induction false} PlainIsProtoFree(v: Json)
    requires WellFormed(v)
    ensures PlainMeaning(Denote(v, {})) <==> ProtoFree(v)
  {
    match v
    case Arr(items) =>
      forall i | 0 <= i < |items| ensures PlainMeaning(Denote(v, {}).items[i]) <==> ProtoFree(items[i]) {
        PlainIsProtoFree(items[i]);
      }
      assert |Denote(v, {}).items| == |items|;
    case Obj(ms) =>
      forall i | 0 <= i < |ms| ensures PlainMeaning(Denote(ms[i].value, {})) <==> ProtoFree(ms[i].value) {
        PlainIsProtoFree(ms[i].value);
      }
      PlainMembers(ms);
    case _ =>
  }

  lemma PlainMembers(ms: seq<Member>)
    requires DistinctKeys(ms)
    ensures PlainMeaning(MObj(DenoteMembers(ms, {}))) <==>
            forall i :: 0 <= i < |ms| ==> ms[i].key != PROTO && PlainMeaning(Denote(ms[i].value, {}))
  {
    hide Denote, DenoteMembers;
    var d := DenoteMembers(ms, {});
    forall k ensures k in d <==> exists i :: 0 <= i < |ms| && ms[i].key == k { MembersDomain(ms, {}, k); }
    forall i | 0 <= i < |ms|
      ensures ms[i].key in d && d[ms[i].key] == Denote(ms[i].value, {})
    {
      MemberMeaning(ms, {}, i);
    }
  }

  /** Sorted inputs have no `__proto__` key, and sorting them again changes nothing. */
  lemma SortedIsPlain(v: Json)
    requires WellFormed(v)
    ensures WellFormed(SortKeys(v)) && ProtoFree(SortKeys(v)) && SortKeys(SortKeys(v)) == SortKeys(v)
  {
    SortKeysMeaning(v);
    SortedIsProtoFree(v);
    HiddenIsLost(SortKeys(v));
    SortKeysCanonical(SortKeys(v), v);
  }

  lemma {:induction false} SortedIsProtoFree(v: Json)
    requires WellFormed(v)
    ensures ProtoFree(SortKeys(v))
  {
    match v
    case Arr(items) =>
      forall i | 0 <= i < |items| ensures ProtoFree(SortKeys(items[i])) { SortedIsProtoFree(items[i]); }
    case Obj(ms) =>
      forall i | 0 <= i < |ms| ensures ProtoFree(SortKeys(ms[i].value)) { SortedIsProtoFree(ms[i].value); }
      ArrangedIsProtoFree(ms);
    case _ =>
  }

  lemma ArrangedIsProtoFree(ms: seq<Member>)
    requires DistinctKeys(ms) && forall i :: 0 <= i < |ms| ==> ProtoFree(SortKeys(ms[i].value))
    ensures ProtoFree(Obj(Arrange(SortedValues(ms))))
  {
    hide Arrange, SortKeys, SortedValues, DistinctKeys;
    var e := Arrange(SortedValues(ms));
    SortedValuesKeys(ms);
    ArrangeKeeps(SortedValues(ms));
    forall i | 0 <= i < |e| ensures e[i].key != PROTO && ProtoFree(e[i].value) {
      assert e[i] in e;
      var _ := SourceOf(ms, e[i]);
    }
  }

  /** A turn is told from every other turn without `__proto__` keys exactly when it has none. */
  lemma SignatureTells(bs: seq<Block>, le: (Text, Text) -> bool)
    requires Usable(bs)
    ensures PlainTurn(bs) <==>
            forall cs :: Usable(cs) && PlainTurn(cs) && Signature(cs, le) == Signature(bs, le) ==>
              multiset(Calls(cs)) == multiset(Calls(bs))
  {
    hide Signature, Usable, PlainTurn, Calls;
    if PlainTurn(bs) {
      forall cs | Usable(cs) && PlainTurn(cs) && Signature(cs, le) == Signature(bs, le)
        ensures multiset(Calls(cs)) == multiset(Calls(bs))
      {
        SignatureSound(cs, bs, le);
      }
    } else {
      SortedTwin(bs, le);
    }
  }

  /** The turn with its inputs sorted: the same signature, no `__proto__` keys. */
  lemma SortedTwin(bs: seq<Block>, le: (Text, Text) -> bool)
    requires Usable(bs)
    ensures var cs := Items(bs);
            && Usable(cs) && PlainTurn(cs) && Signature(cs, le) == Signature(bs, le)
            && (!PlainTurn(bs) ==> multiset(Calls(cs)) != multiset(Calls(bs)))
  {
    hide Signature, SortKeys, Denote, WellFormed, ProtoFree, PlainMeaning;
    var cs := Items(bs);
    forall i | 0 <= i < |bs|
      ensures WellFormed(cs[i].input) && ProtoFree(cs[i].input) && SortKeys(cs[i].input) == cs[i].input
    {
      SortedIsPlain(bs[i].input);
    }
    assert Items(cs) == cs;
    SignatureItems(cs, bs, le);
    if i :| 0 <= i < |bs| && !ProtoFree(bs[i].input) {
      PlainIsProtoFree(bs[i].input);
      assert Calls(bs)[i] in multiset(Calls(bs));
      forall j | 0 <= j < |cs| ensures Calls(cs)[j] != Calls(bs)[i] { PlainIsProtoFree(cs[j].input); }
      assert Calls(bs)[i] !in multiset(Calls(cs));
    }
  }

  // ---- where signatures say too little or too much -------------------------------------------

  /** `{"__proto__": null}` and `{}` get the same signature. */
  lemma ProtoCollision(name: Text, le: (Text, Text) -> bool)
    ensures var a, b := Block(name, Obj([Member(PROTO, Null)])), Block(name, Obj([]));
            && Denote(a.input, {}) != Denote(b.input, {})
            && Signature([a], le) == Signature([b], le)
  {
    var a, b := Block(name, Obj([Member(PROTO, Null)])), Block(name, Obj([]));
    MemberMeaning(a.input.members, {}, 0);
    assert PROTO in DenoteMembers(a.input.members, {}) && PROTO !in DenoteMembers([], {});
    MembersDomain(a.input.members, {PROTO}, PROTO);
    assert Denote(a.input, {PROTO}) == Denote(b.input, {PROTO}) by {
      assert DenoteMembers(a.input.members, {PROTO}) == DenoteMembers([], {PROTO});
    }
    SortKeysCanonical(a.input, b.input);
    assert Items([a]) == Items([b]);
  }

  /** A collation that ties two different names, as `localeCompare` ties composed and decomposed
      accents, tells a turn from the same turn in the other order. */
  lemma TiedNamesSplit(a: Text, b: Text, le: (Text, Text) -> bool)
    requires Preorder(le) && le(a, b) && le(b, a) && a != b
    ensures var x, y := Block(a, Obj([])), Block(b, Obj([]));
            && multiset(Calls([x, y])) == multiset(Calls([y, x]))
            && Signature([x, y], le) != Signature([y, x], le)
  {
    hide Signature, Print, SortKeys, Denote, SortBy;
    var x, y := Block(a, Obj([])), Block(b, Obj([]));
    SortedEmpty();
    assert Items([x, y]) == [x, y] && Items([y, x]) == [y, x];
    Swapped(Calls([x, y]), Calls([y, x]));
    assert le(Print(x.input), Print(y.input));
    CallOrder(le);
    FirstTied([x, y], ByCall(le), x);
    FirstTied([y, x], ByCall(le), x);
    SignatureItems([x, y], [y, x], le);
  }

  lemma SortedEmpty()
    ensures SortKeys(Obj([])) == Obj([])
  {
  }

  lemma Swapped<T>(s: seq<T>, t: seq<T>)
    requires |s| == |t| == 2 && s[0] == t[1] && s[1] == t[0]
    ensures multiset(s) == multiset(t)
  {
    assert s == [s[0], s[1]] && t == [s[1], s[0]];
  }
}
