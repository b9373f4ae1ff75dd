/** Strings as JavaScript has them, and the whitespace normalisation of text outputs. */
module LoopText {
  /** A UTF-16 code unit. */
  type Unit = u: int | 0 <= u < 0x10000

  type Text = seq<Unit>

  const SPACE: Unit := 32

  /** The characters `\s` matches and `trim` strips: white space and line terminators. */
  predicate IsSpace(u: Unit) {
    9 <= u <= 13 || u == 0x20 || u == 0xA0 || u == 0x1680 || 0x2000 <= u <= 0x200A
    || u == 0x2028 || u == 0x2029 || u == 0x202F || u == 0x205F || u == 0x3000 || u == 0xFEFF
  }

  /** Tab to carriage return, space, no-break space, the Unicode space separators, the line and
      paragraph separators, and the byte order mark. */
  lemma SpacesAre(u: Unit)
    ensures IsSpace(u) <==>
            u in {9, 10, 11, 12, 13, 32, 160, 5760, 8192, 8193, 8194, 8195, 8196, 8197, 8198, 8199, 8200, 8201,
                  8202, 8232, 8233, 8239, 8287, 12288, 65279}
  {
  }

  function TrimStart(s: Text): Text {
    if s != [] && IsSpace(s[0]) then TrimStart(s[1..]) else s
  }

  function TrimEnd(s: Text): (r: Text)
    ensures r == [] || !IsSpace(r[|r| - 1])
    ensures s != [] && !IsSpace(s[0]) ==> r != [] && r[0] == s[0]
  {
    if s != [] && IsSpace(s[|s| - 1]) then TrimEnd(s[..|s| - 1]) else s
  }

  /** Each maximal run of white space becomes one space. */
  function Collapse(s: Text): Text {
    if s == [] then []
    else if !IsSpace(s[0]) then [s[0]] + Collapse(s[1..])
    else if |s| > 1 && IsSpace(s[1]) then Collapse(s[1..])
    else [SPACE] + Collapse(s[1..])
  }

  function Normalise(s: Text): Text {
    Collapse(TrimEnd(TrimStart(s)))
  }

  /** The maximal runs of characters that are not white space. */
  function Words(s: Text): (ws: seq<Text>)
    ensures s != [] && !IsSpace(s[0]) ==> ws != []
  {
    if s == [] then []
    else if IsSpace(s[0]) then Words(s[1..])
    else if |s| > 1 && !IsSpace(s[1]) then
      var ws := Words(s[1..]);
      [[s[0]] + ws[0]] + ws[1..]
    else [[s[0]]] + Words(s[1..])
  }

  function Spaced(ws: seq<Text>): Text {
    if ws == [] then [] else if |ws| == 1 then ws[0] else ws[0] + [SPACE] + Spaced(ws[1..])
  }

  predicate Clean(w: Text) {
    w != [] && forall i :: 0 <= i < |w| ==> !IsSpace(w[i])
  }

  lemma {:induction false} WordsAreClean(s: Text)
    ensures forall i :: 0 <= i < |Words(s)| ==> Clean(Words(s)[i])
  {
    if s != [] { WordsAreClean(s[1..]); }
  }

  lemma {:induction false} TrimStartKeepsWords(s: Text)
    ensures Words(TrimStart(s)) == Words(s)
  {
    if s != [] && IsSpace(s[0]) { TrimStartKeepsWords(s[1..]); }
  }

  lemma {:induction false} TrailingSpace(s: Text, u: Unit)
    requires IsSpace(u)
    ensures Words(s + [u]) == Words(s)
  {
    if s == [] {
      assert Words([u]) == Words([u][1..]) == [];
    } else {
      assert (s + [u])[1..] == s[1..] + [u];
      TrailingSpace(s[1..], u);
    }
  }

  lemma {:induction false} TrimEndKeepsWords(s: Text)
    ensures Words(TrimEnd(s)) == Words(s)
  {
    if s != [] && IsSpace(s[|s| - 1]) {
      TrimEndKeepsWords(s[..|s| - 1]);
      TrailingSpace(s[..|s| - 1], s[|s| - 1]);
      assert s[..|s| - 1] + [s[|s| - 1]] == s;
    }
  }

  lemma {:induction false} CollapseSpacesWords(s: Text)
    requires s == [] || !IsSpace(s[|s| - 1])
    ensures Collapse(s) == (if s != [] && IsSpace(s[0]) then [SPACE] else []) + Spaced(Words(s))
    ensures s != [] ==> Words(s) != []
  {
    if |s| > 1 { CollapseSpacesWords(s[1..]); }
  }

  lemma {:induction false} NormaliseSpacesWords(s: Text)
    ensures Normalise(s) == Spaced(Words(s))
  {
    var t := TrimEnd(TrimStart(s));
    TrimStartKeepsWords(s);
    TrimEndKeepsWords(TrimStart(s));
    TrimStartStripped(s);
    CollapseSpacesWords(t);
  }

  lemma {:induction false} TrimStartStripped(s: Text)
    ensures var r := TrimStart(s); r == [] || !IsSpace(r[0])
  {
    if s != [] && IsSpace(s[0]) { TrimStartStripped(s[1..]); }
  }

  lemma {:induction false} FirstWord(w: Text, rest: Text)
    requires Clean(w) && (rest == [] || IsSpace(rest[0]))
    ensures Words(w + rest) == [w] + Words(rest)
  {
    assert (w + rest)[1..] == w[1..] + rest;
    if |w| > 1 {
      FirstWord(w[1..], rest);
      assert [w[0]] + w[1..] == w;
    } else {
      assert w == [w[0]];
      assert w[1..] + rest == rest;
    }
  }

  lemma {:induction false} WordsOfSpaced(ws: seq<Text>)
    requires forall i :: 0 <= i < |ws| ==> Clean(ws[i])
    ensures Words(Spaced(ws)) == ws
  {
    if |ws| == 1 {
      FirstWord(ws[0], []);
      assert ws[0] + [] == ws[0];
    } else if |ws| > 1 {
      var rest := [SPACE] + Spaced(ws[1..]);
      WordsOfSpaced(ws[1..]);
      FirstWord(ws[0], rest);
      assert Spaced(ws) == ws[0] + rest;
      assert rest[1..] == Spaced(ws[1..]);
    }
  }

  /** Two outputs are taken as the same text exactly when their words are the same; an output
      without words is ignored. */
  lemma SameTextSameWords(a: Text, b: Text)
    ensures Normalise(a) == Normalise(b) <==> Words(a) == Words(b)
    ensures Normalise(a) == [] <==> Words(a) == []
  {
    NormaliseSpacesWords(a);
    NormaliseSpacesWords(b);
    WordsAreClean(a);
    WordsAreClean(b);
    WordsOfSpaced(Words(a));
    WordsOfSpaced(Words(b));
  }
}
