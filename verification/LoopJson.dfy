/** JSON values as tool inputs carry them, and `JSON.stringify`: printing is injective. */
module LoopJson {
  import opened LoopText

  /** An object is its members in enumeration order; a number is its printed form. */
  datatype Json =
    | Null | Bool(value: bool) | Number(text: Text) | Str(text: Text)
    | Arr(items: seq<Json>) | Obj(members: seq<Member>)
  datatype Member = Member(key: Text, value: Json)

  // ---- strings (section 7 of RFC 8259, as QuoteJSONString writes them) --------------------

  predicate IsLead(u: Unit) { 0xD800 <= u <= 0xDBFF }
  predicate IsTrail(u: Unit) { 0xDC00 <= u <= 0xDFFF }

  const QUOTE: Unit := 34
  const BACKSLASH: Unit := 92

  function HexDigit(d: int): Unit
    requires 0 <= d < 16
  {
    if d < 10 then 48 + d else 87 + d
  }

  /** The letter of a short escape. */
  function ShortEscape(u: Unit): Unit {
    if u == 8 then 98 else if u == 9 then 116 else if u == 10 then 110
    else if u == 12 then 102 else if u == 13 then 114 else u
  }

  predicate HasShortEscape(u: Unit) {
    u == 8 || u == 9 || u == 10 || u == 12 || u == 13 || u == QUOTE || u == BACKSLASH
  }

  function EscapeUnit(u: Unit): Text {
    if HasShortEscape(u) then [BACKSLASH, ShortEscape(u)]
    else if u < 32 || IsLead(u) || IsTrail(u) then
      [BACKSLASH, 117, HexDigit(u / 16 / 16 / 16), HexDigit(u / 16 / 16 % 16), HexDigit(u / 16 % 16), HexDigit(u % 16)]
    else [u]
  }

  /** A surrogate pair is written as it is; a lone surrogate is escaped. */
  predicate StartsPair(s: Text) {
    |s| >= 2 && IsLead(s[0]) && IsTrail(s[1])
  }

  function Taken(s: Text): nat {
    if StartsPair(s) then 2 else 1
  }

  function Token(s: Text): Text
    requires s != []
  {
    if StartsPair(s) then s[..2] else EscapeUnit(s[0])
  }

  function QuoteBody(s: Text): Text
    decreases |s|
  {
    if s == [] then [] else Token(s) + QuoteBody(s[Taken(s)..])
  }

  function Quote(s: Text): Text {
    [QUOTE] + QuoteBody(s) + [QUOTE]
  }

  lemma HexDigitUnique(d: int, e: int)
    requires 0 <= d < 16 && 0 <= e < 16 && HexDigit(d) == HexDigit(e)
    ensures d == e
  {
  }

  lemma HexUnique(u: Unit, v: Unit)
    requires !HasShortEscape(u) && !HasShortEscape(v) && |EscapeUnit(u)| == 6 && EscapeUnit(u) == EscapeUnit(v)
    ensures u == v
  {
    var a, b := EscapeUnit(u), EscapeUnit(v);
    assert a[2] == b[2] && a[3] == b[3] && a[4] == b[4] && a[5] == b[5];
    HexDigitUnique(u % 16, v % 16);
    HexDigitUnique(u / 16 % 16, v / 16 % 16);
    HexDigitUnique(u / 16 / 16 % 16, v / 16 / 16 % 16);
    HexDigitUnique(u / 16 / 16 / 16, v / 16 / 16 / 16);
  }

  /** Equal concatenations split alike at equal lengths. */
  lemma Cut(a: Text, x: Text, b: Text, y: Text)
    requires a + x == b + y && |a| == |b|
    ensures a == b && x == y
  {
    assert (a + x)[..|a|] == a && (b + y)[..|b|] == b;
    assert (a + x)[|a|..] == x && (b + y)[|b|..] == y;
  }

  /** What a token looks like decides how long it is. */
  lemma TokenShape(s: Text, x: Text)
    requires s != []
    ensures var t := Token(s) + x;
            && Token(s) != [] && t[0] == Token(s)[0] != QUOTE
            && |Token(s)| == (if IsLead(t[0]) then 2 else if t[0] != BACKSLASH then 1
                              else if |t| > 1 && t[1] == 117 then 6 else 2)
            && (IsLead(t[0]) <==> StartsPair(s))
  {
  }

  /** Tokens are self-delimiting: one text starts with at most one of them. */
  lemma TokenUnique(s: Text, t: Text, x: Text, y: Text)
    requires s != [] && t != [] && Token(s) + x == Token(t) + y
    ensures Taken(s) == Taken(t) && s[..Taken(s)] == t[..Taken(t)] && x == y
  {
    TokenShape(s, x);
    TokenShape(t, y);
    Cut(Token(s), x, Token(t), y);
    if !StartsPair(s) { EscapeUnique(s[0], t[0]); }
  }

  lemma {:induction false} EscapeUnique(u: Unit, v: Unit)
    requires EscapeUnit(u) == EscapeUnit(v)
    ensures u == v
  {
    if |EscapeUnit(u)| == 6 { HexUnique(u, v); }
    else if |EscapeUnit(u)| == 2 { assert EscapeUnit(u)[1] == EscapeUnit(v)[1]; }
    else { assert EscapeUnit(u)[0] == EscapeUnit(v)[0]; }
  }

  lemma {:induction false} QuoteBodyUnique(s: Text, t: Text, x: Text, y: Text)
    requires QuoteBody(s) + ([QUOTE] + x) == QuoteBody(t) + ([QUOTE] + y)
    ensures s == t && x == y
    decreases |s|
  {
    hide Token, Taken;
    BodyShape(s, x);
    BodyShape(t, y);
    if s == [] {
      assert QuoteBody(s) + ([QUOTE] + x) == [QUOTE] + x && QuoteBody(t) + ([QUOTE] + y) == [QUOTE] + y;
      Cut([QUOTE], x, [QUOTE], y);
    } else {
      var s', t' := s[Taken(s)..], t[Taken(t)..];
      TokenUnique(s, t, QuoteBody(s') + ([QUOTE] + x), QuoteBody(t') + ([QUOTE] + y));
      QuoteBodyUnique(s', t', x, y);
      assert s == s[..Taken(s)] + s' && t == t[..Taken(t)] + t';
    }
  }

  lemma {:induction false} BodyShape(s: Text, x: Text)
    ensures var whole := QuoteBody(s) + ([QUOTE] + x);
            && (whole[0] == QUOTE <==> s == [])
            && (s != [] ==> 0 < Taken(s) <= |s| && whole == Token(s) + (QuoteBody(s[Taken(s)..]) + ([QUOTE] + x)))
  {
    hide Token, IsLead, IsTrail;
    if s != [] {
      var rest := QuoteBody(s[Taken(s)..]);
      Assoc(Token(s), rest, [QUOTE] + x);
      NotQuote(s, rest + ([QUOTE] + x));
    }
  }

  lemma Assoc(a: Text, b: Text, c: Text)
    ensures (a + b) + c == a + (b + c)
  {
  }

  lemma NotQuote(s: Text, x: Text)
    requires s != []
    ensures Token(s) + x != [] && (Token(s) + x)[0] != QUOTE
  {
  }

  lemma Unquote(s: Text, x: Text)
    ensures Quote(s) + x == [QUOTE] + (QuoteBody(s) + ([QUOTE] + x))
    ensures (Quote(s) + x)[1..] == QuoteBody(s) + ([QUOTE] + x)
  {
  }

  lemma QuoteUnique(s: Text, t: Text, x: Text, y: Text)
    requires Quote(s) + x == Quote(t) + y
    ensures s == t && x == y
  {
    hide QuoteBody;
    Unquote(s, x);
    Unquote(t, y);
    QuoteBodyUnique(s, t, x, y);
  }

  // ---- values (sections 3 to 6 of RFC 8259) ------------------------------------------------

  const COMMA: Unit := 44
  const COLON: Unit := 58
  const OPEN_BRACKET: Unit := 91
  const CLOSE_BRACKET: Unit := 93
  const OPEN_BRACE: Unit := 123
  const CLOSE_BRACE: Unit := 125
  const NULL_TEXT: Text := [110, 117, 108, 108]
  const TRUE_TEXT: Text := [116, 114, 117, 101]
  const FALSE_TEXT: Text := [102, 97, 108, 115, 101]

  /** Digits, sign, point and exponent. */
  predicate NumberUnit(u: Unit) {
    48 <= u <= 57 || u == 43 || u == 45 || u == 46 || u == 69 || u == 101
  }

  predicate NumberText(t: Text) {
    t != [] && forall i :: 0 <= i < |t| ==> NumberUnit(t[i])
  }

  predicate WellFormed(v: Json) {
    match v
    case Number(t) => NumberText(t)
    case Arr(items) => forall i :: 0 <= i < |items| ==> WellFormed(items[i])
    case Obj(ms) =>
      && (forall i :: 0 <= i < |ms| ==> WellFormed(ms[i].value))
      && (forall i, j :: 0 <= i < j < |ms| ==> ms[i].key != ms[j].key)
    case _ => true
  }

  function Print(v: Json): Text
    decreases v, 1
  {
    match v
    case Null => NULL_TEXT
    case Bool(b) => if b then TRUE_TEXT else FALSE_TEXT
    case Number(t) => t
    case Str(t) => Quote(t)
    case Arr(items) =>
      [OPEN_BRACKET] + if items == [] then [CLOSE_BRACKET] else Print(items[0]) + PrintItems(items[1..])
    case Obj(ms) => [OPEN_BRACE] + if ms == [] then [CLOSE_BRACE] else PrintMember(ms[0]) + PrintMembers(ms[1..])
  }

  /** The remaining items of an array, up to and with its bracket. */
  function PrintItems(items: seq<Json>): Text
    decreases items, 0
  {
    if items == [] then [CLOSE_BRACKET] else [COMMA] + (Print(items[0]) + PrintItems(items[1..]))
  }

  function PrintMember(m: Member): Text
    decreases m, 2
  {
    Quote(m.key) + ([COLON] + Print(m.value))
  }

  function PrintMembers(ms: seq<Member>): Text
    decreases ms, 0
  {
    if ms == [] then [CLOSE_BRACE] else [COMMA] + (PrintMember(ms[0]) + PrintMembers(ms[1..]))
  }

  /** What may follow a value: nothing, or a separator or closing mark. */
  predicate Delimited(x: Text) {
    x != [] ==> x[0] == COMMA || x[0] == CLOSE_BRACKET || x[0] == CLOSE_BRACE
  }

  /** The constructor of a value shows in its first character. */
  function Kind(u: Unit): int {
    if u == 110 then 0 else if u == 116 || u == 102 then 1 else if NumberUnit(u) then 2
    else if u == QUOTE then 3 else if u == OPEN_BRACKET then 4 else if u == OPEN_BRACE then 5 else 6
  }

  function KindOf(v: Json): int {
    match v
    case Null => 0
    case Bool(_) => 1
    case Number(_) => 2
    case Str(_) => 3
    case Arr(_) => 4
    case Obj(_) => 5
  }

  lemma FirstUnit(v: Json)
    requires WellFormed(v)
    ensures Print(v) != [] && Kind(Print(v)[0]) == KindOf(v)
  {
  }

  lemma NumberUnique(s: Text, t: Text, x: Text, y: Text)
    requires NumberText(s) && NumberText(t) && Delimited(x) && Delimited(y) && s + x == t + y
    ensures s == t && x == y
  {
    NumberLength(s, x);
    NumberLength(t, y);
    Cut(s, x, t, y);
  }

  /** How far a number reaches. */
  function NumberEnd(t: Text): nat {
    if t != [] && NumberUnit(t[0]) then 1 + NumberEnd(t[1..]) else 0
  }

  lemma {:induction false} NumberLength(t: Text, x: Text)
    requires (forall i :: 0 <= i < |t| ==> NumberUnit(t[i])) && Delimited(x)
    ensures NumberEnd(t + x) == |t|
  {
    if t == [] {
      assert t + x == x;
    } else {
      assert (t + x)[1..] == t[1..] + x;
      NumberLength(t[1..], x);
    }
  }

  lemma ItemsTail(items: seq<Json>, x: Text)
    ensures Delimited(PrintItems(items) + x)
    ensures PrintItems(items) + x ==
            if items == [] then [CLOSE_BRACKET] + x
            else [COMMA] + (Print(items[0]) + (PrintItems(items[1..]) + x))
  {
  }

  lemma MembersTail(ms: seq<Member>, x: Text)
    ensures Delimited(PrintMembers(ms) + x)
    ensures PrintMembers(ms) + x ==
            if ms == [] then [CLOSE_BRACE] + x
            else [COMMA] + (PrintMember(ms[0]) + (PrintMembers(ms[1..]) + x))
  {
  }

  /** An array prints like the tail that starts with its first item, but for the first mark. */
  lemma ArrayTail(items: seq<Json>, x: Text)
    ensures Print(Arr(items)) + x ==
            [OPEN_BRACKET] + (if items == [] then [CLOSE_BRACKET] + x
                              else Print(items[0]) + (PrintItems(items[1..]) + x))
  {
  }

  lemma ObjectTail(ms: seq<Member>, x: Text)
    ensures Print(Obj(ms)) + x ==
            [OPEN_BRACE] + (if ms == [] then [CLOSE_BRACE] + x
                            else PrintMember(ms[0]) + (PrintMembers(ms[1..]) + x))
  {
  }

  lemma MemberStart(m: Member, x: Text)
    ensures PrintMember(m) + x == Quote(m.key) + ([COLON] + (Print(m.value) + x))
    ensures (PrintMember(m) + x)[0] == QUOTE
  {
  }

  /** Equal printed forms come from equal values, even with something printed after them. */
  lemma {:induction false} PrintUnique(v: Json, w: Json, x: Text, y: Text)
    requires WellFormed(v) && WellFormed(w) && Delimited(x) && Delimited(y)
    requires Print(v) + x == Print(w) + y
    ensures v == w && x == y
    decreases v, 1
  {
    FirstUnit(v);
    FirstUnit(w);
    assert KindOf(v) == KindOf(w) by { assert (Print(v) + x)[0] == Print(v)[0] && (Print(w) + y)[0] == Print(w)[0]; }
    match v
    case Null => Cut(NULL_TEXT, x, NULL_TEXT, y);
    case Bool(b) => BoolUnique(b, w.value, x, y);
    case Number(t) => NumberUnique(t, w.text, x, y);
    case Str(t) => QuoteUnique(t, w.text, x, y);
    case Arr(items) =>
      ArrayTail(items, x);
      ArrayTail(w.items, y);
      ArrayUnique(items, w.items, x, y);
    case Obj(ms) =>
      ObjectTail(ms, x);
      ObjectTail(w.members, y);
      ObjectUnique(ms, w.members, x, y);
  }

  lemma BoolUnique(b: bool, c: bool, x: Text, y: Text)
    requires Print(Bool(b)) + x == Print(Bool(c)) + y
    ensures b == c && x == y
  {
    assert (Print(Bool(b)) + x)[0] == if b then 116 else 102;
    assert (Print(Bool(c)) + y)[0] == if c then 116 else 102;
    Cut(Print(Bool(b)), x, Print(Bool(c)), y);
  }

  lemma {:induction false} ArrayUnique(items: seq<Json>, items': seq<Json>, x: Text, y: Text)
    requires forall i :: 0 <= i < |items| ==> WellFormed(items[i])
    requires forall i :: 0 <= i < |items'| ==> WellFormed(items'[i])
    requires Delimited(x) && Delimited(y)
    requires [OPEN_BRACKET]
        + (if items == [] then [CLOSE_BRACKET] + x else Print(items[0]) + (PrintItems(items[1..]) + x))
          == [OPEN_BRACKET]
              + (if items' == [] then [CLOSE_BRACKET] + y else Print(items'[0]) + (PrintItems(items'[1..]) + y))
    ensures items == items' && x == y
    decreases items, 1
  {
    hide Print, PrintItems, WellFormed;
    var p := if items == [] then [CLOSE_BRACKET] + x else Print(items[0]) + (PrintItems(items[1..]) + x);
    var q := if items' == [] then [CLOSE_BRACKET] + y else Print(items'[0]) + (PrintItems(items'[1..]) + y);
    Cut([OPEN_BRACKET], p, [OPEN_BRACKET], q);
    if items != [] { FirstUnit(items[0]); assert p[0] == Print(items[0])[0]; }
    if items' != [] { FirstUnit(items'[0]); assert q[0] == Print(items'[0])[0]; }
    if items == [] {
      Cut([CLOSE_BRACKET], x, [CLOSE_BRACKET], y);
    } else {
      ItemsTail(items[1..], x);
      ItemsTail(items'[1..], y);
      PrintUnique(items[0], items'[0], PrintItems(items[1..]) + x, PrintItems(items'[1..]) + y);
      ItemsUnique(items[1..], items'[1..], x, y);
    }
  }

  lemma {:induction false} ItemsUnique(items: seq<Json>, items': seq<Json>, x: Text, y: Text)
    requires forall i :: 0 <= i < |items| ==> WellFormed(items[i])
    requires forall i :: 0 <= i < |items'| ==> WellFormed(items'[i])
    requires Delimited(x) && Delimited(y) && PrintItems(items) + x == PrintItems(items') + y
    ensures items == items' && x == y
    decreases items, 0
  {
    hide Print, PrintItems, WellFormed;
    ItemsTail(items, x);
    ItemsTail(items', y);
    if items == [] {
      Cut([CLOSE_BRACKET], x, [CLOSE_BRACKET], y);
    } else {
      var p, q := PrintItems(items[1..]) + x, PrintItems(items'[1..]) + y;
      Cut([COMMA], Print(items[0]) + p, [COMMA], Print(items'[0]) + q);
      ItemsTail(items[1..], x);
      ItemsTail(items'[1..], y);
      PrintUnique(items[0], items'[0], p, q);
      ItemsUnique(items[1..], items'[1..], x, y);
    }
  }

  lemma {:induction false} MemberUnique(m: Member, m': Member, x: Text, y: Text)
    requires WellFormed(m.value) && WellFormed(m'.value) && Delimited(x) && Delimited(y)
    requires PrintMember(m) + x == PrintMember(m') + y
    ensures m == m' && x == y
    decreases m, 2
  {
    hide Print, PrintMember, WellFormed, Quote;
    MemberStart(m, x);
    MemberStart(m', y);
    QuoteUnique(m.key, m'.key, [COLON] + (Print(m.value) + x), [COLON] + (Print(m'.value) + y));
    Cut([COLON], Print(m.value) + x, [COLON], Print(m'.value) + y);
    PrintUnique(m.value, m'.value, x, y);
  }

  lemma {:induction false} ObjectUnique(ms: seq<Member>, ms': seq<Member>, x: Text, y: Text)
    requires forall i :: 0 <= i < |ms| ==> WellFormed(ms[i].value)
    requires forall i :: 0 <= i < |ms'| ==> WellFormed(ms'[i].value)
    requires Delimited(x) && Delimited(y)
    requires [OPEN_BRACE] + (if ms == [] then [CLOSE_BRACE] + x else PrintMember(ms[0]) + (PrintMembers(ms[1..]) + x))
          == [OPEN_BRACE]
              + (if ms' == [] then [CLOSE_BRACE] + y else PrintMember(ms'[0]) + (PrintMembers(ms'[1..]) + y))
    ensures ms == ms' && x == y
    decreases ms, 1
  {
    hide Print, PrintMember, PrintMembers, WellFormed;
    var p := if ms == [] then [CLOSE_BRACE] + x else PrintMember(ms[0]) + (PrintMembers(ms[1..]) + x);
    var q := if ms' == [] then [CLOSE_BRACE] + y else PrintMember(ms'[0]) + (PrintMembers(ms'[1..]) + y);
    Cut([OPEN_BRACE], p, [OPEN_BRACE], q);
    if ms != [] { MemberStart(ms[0], PrintMembers(ms[1..]) + x); }
    if ms' != [] { MemberStart(ms'[0], PrintMembers(ms'[1..]) + y); }
    if ms == [] {
      Cut([CLOSE_BRACE], x, [CLOSE_BRACE], y);
    } else {
      MembersTail(ms[1..], x);
      MembersTail(ms'[1..], y);
      MemberUnique(ms[0], ms'[0], PrintMembers(ms[1..]) + x, PrintMembers(ms'[1..]) + y);
      MembersUnique(ms[1..], ms'[1..], x, y);
    }
  }

  lemma {:induction false} MembersUnique(ms: seq<Member>, ms': seq<Member>, x: Text, y: Text)
    requires forall i :: 0 <= i < |ms| ==> WellFormed(ms[i].value)
    requires forall i :: 0 <= i < |ms'| ==> WellFormed(ms'[i].value)
    requires Delimited(x) && Delimited(y) && PrintMembers(ms) + x == PrintMembers(ms') + y
    ensures ms == ms' && x == y
    decreases ms, 0
  {
    hide Print, PrintMember, PrintMembers, WellFormed;
    MembersTail(ms, x);
    MembersTail(ms', y);
    if ms == [] {
      Cut([CLOSE_BRACE], x, [CLOSE_BRACE], y);
    } else {
      var p, q := PrintMembers(ms[1..]) + x, PrintMembers(ms'[1..]) + y;
      Cut([COMMA], PrintMember(ms[0]) + p, [COMMA], PrintMember(ms'[0]) + q);
      MembersTail(ms[1..], x);
      MembersTail(ms'[1..], y);
      MemberUnique(ms[0], ms'[0], p, q);
      MembersUnique(ms[1..], ms'[1..], x, y);
    }
  }

  /** `JSON.stringify` is injective on well-formed values. */
  lemma StringifyInjective(v: Json, w: Json)
    requires WellFormed(v) && WellFormed(w)
    ensures Print(v) == Print(w) <==> v == w
  {
    if Print(v) == Print(w) {
      assert Print(v) + [] == Print(w) + [];
      PrintUnique(v, w, [], []);
    }
  }
}
