/** The stable sort of `Array.prototype.sort`, and what is unique about its result. */
module LoopSort {
  import opened LoopText

  /** Total and transitive; distinct elements may tie. */
  ghost predicate Preorder<T(!new)>(le: (T, T) -> bool) {
    && (forall x, y :: le(x, y) || le(y, x))
    && (forall x, y, z :: le(x, y) && le(y, z) ==> le(x, z))
  }

  ghost predicate Sorted<T>(s: seq<T>, le: (T, T) -> bool) {
    forall i, j :: 0 <= i < j < |s| ==> le(s[i], s[j])
  }

  function Insert<T>(x: T, s: seq<T>, le: (T, T) -> bool): seq<T>
    decreases |s|
  {
    if s == [] || le(x, s[0]) then [x] + s else [s[0]] + Insert(x, s[1..], le)
  }

  /** Each element goes before those it may precede, so ties keep their order. */
  function SortBy<T>(s: seq<T>, le: (T, T) -> bool): seq<T>
    decreases |s|
  {
    if s == [] then [] else Insert(s[0], SortBy(s[1..], le), le)
  }

  function Keep<T>(s: seq<T>, p: T -> bool): seq<T>
    decreases |s|
  {
    if s == [] then [] else (if p(s[0]) then [s[0]] else []) + Keep(s[1..], p)
  }

  lemma {:induction false} InsertElements<T>(x: T, s: seq<T>, le: (T, T) -> bool)
    ensures multiset(Insert(x, s, le)) == multiset{x} + multiset(s)
    decreases |s|
  {
    if s != [] && !le(x, s[0]) {
      InsertElements(x, s[1..], le);
      assert s == [s[0]] + s[1..];
    }
  }

  lemma {:induction false} SortPermutes<T>(s: seq<T>, le: (T, T) -> bool)
    ensures multiset(SortBy(s, le)) == multiset(s)
    decreases |s|
  {
    if s != [] {
      SortPermutes(s[1..], le);
      InsertElements(s[0], SortBy(s[1..], le), le);
      assert s == [s[0]] + s[1..];
    }
  }

  lemma {:induction false} InsertSorted<T(!new)>(x: T, s: seq<T>, le: (T, T) -> bool)
    requires Preorder(le) && Sorted(s, le)
    ensures Sorted(Insert(x, s, le), le)
    decreases |s|
  {
    if s != [] && !le(x, s[0]) {
      var rest := Insert(x, s[1..], le);
      InsertSorted(x, s[1..], le);
      InsertElements(x, s[1..], le);
      forall j | 0 <= j < |rest| ensures le(s[0], rest[j]) {
        assert rest[j] in multiset(rest);
        assert rest[j] == x || rest[j] in s[1..];
      }
    }
  }

  lemma {:induction false} SortSorts<T(!new)>(s: seq<T>, le: (T, T) -> bool)
    requires Preorder(le)
    ensures Sorted(SortBy(s, le), le)
    decreases |s|
  {
    if s != [] {
      SortSorts(s[1..], le);
      InsertSorted(s[0], SortBy(s[1..], le), le);
    }
  }

  /** Elements of `s` that tie are equal. */
  ghost predicate TiesAreEqual<T>(s: seq<T>, le: (T, T) -> bool) {
    forall i, j :: 0 <= i < |s| && 0 <= j < |s| && le(s[i], s[j]) && le(s[j], s[i]) ==> s[i] == s[j]
  }

  lemma SameHead<T(!new)>(a: seq<T>, b: seq<T>, le: (T, T) -> bool)
    requires Preorder(le) && Sorted(a, le) && Sorted(b, le)
    requires multiset(a) == multiset(b) && TiesAreEqual(a, le) && a != []
    ensures b != [] && a[0] == b[0]
  {
    assert |multiset(b)| == |a|;
    assert a[0] in multiset(b) && b[0] in multiset(a);
    var i :| 0 <= i < |a| && a[i] == b[0];
    var j :| 0 <= j < |b| && b[j] == a[0];
    assert le(a[0], a[0]) && le(b[0], b[0]);
    assert le(a[0], a[i]) && le(b[0], b[j]);
  }

  lemma TailElements<T>(a: seq<T>)
    requires a != []
    ensures multiset(a[1..]) == multiset(a) - multiset{a[0]}
  {
    assert a == [a[0]] + a[1..];
  }

  /** A sorted arrangement without proper ties is determined by its elements. */
  lemma {:induction false} SortedUnique<T(!new)>(a: seq<T>, b: seq<T>, le: (T, T) -> bool)
    requires Preorder(le) && Sorted(a, le) && Sorted(b, le)
    requires multiset(a) == multiset(b) && TiesAreEqual(a, le)
    ensures a == b
    decreases |a|
  {
    hide Preorder;
    if a == [] {
      assert |multiset(b)| == 0;
    } else {
      SameHead(a, b, le);
      TailElements(a);
      TailElements(b);
      SortedUnique(a[1..], b[1..], le);
      assert a == [a[0]] + a[1..] && b == [b[0]] + b[1..];
    }
  }

  lemma {:induction false} KeepElements<T>(s: seq<T>, p: T -> bool, x: T)
    ensures multiset(Keep(s, p))[x] == if p(x) then multiset(s)[x] else 0
    decreases |s|
  {
    if s != [] {
      KeepElements(s[1..], p, x);
      assert s == [s[0]] + s[1..];
    }
  }

  lemma {:induction false} KeepSorted<T>(s: seq<T>, p: T -> bool, le: (T, T) -> bool)
    requires Sorted(s, le)
    ensures Sorted(Keep(s, p), le)
    decreases |s|
  {
    if s != [] {
      var rest := Keep(s[1..], p);
      KeepSorted(s[1..], p, le);
      forall j | 0 <= j < |rest| ensures le(s[0], rest[j]) {
        KeepElements(s[1..], p, rest[j]);
        assert rest[j] in multiset(rest);
        assert rest[j] in s[1..];
      }
    }
  }

  // ---- stability ----------------------------------------------------------------------

  function Tied<T>(le: (T, T) -> bool, x: T): T -> bool {
    y => le(x, y) && le(y, x)
  }

  lemma {:induction false} InsertStable<T(!new)>(y: T, s: seq<T>, le: (T, T) -> bool, x: T)
    requires Preorder(le)
    ensures Keep(Insert(y, s, le), Tied(le, x)) == Keep([y] + s, Tied(le, x))
    decreases |s|
  {
    assert ([y] + s)[1..] == s;
    if s != [] && !le(y, s[0]) {
      var rest := Insert(y, s[1..], le);
      InsertStable(y, s[1..], le, x);
      assert ([y] + s[1..])[1..] == s[1..];
      assert ([s[0]] + rest)[1..] == rest;
    }
  }

  /** Tied elements come out in the order they went in. */
  lemma {:induction false} SortStable<T(!new)>(s: seq<T>, le: (T, T) -> bool, x: T)
    requires Preorder(le)
    ensures Keep(SortBy(s, le), Tied(le, x)) == Keep(s, Tied(le, x))
    decreases |s|
  {
    if s != [] {
      var rest := SortBy(s[1..], le);
      SortStable(s[1..], le, x);
      InsertStable(s[0], rest, le, x);
      assert ([s[0]] + rest)[1..] == rest;
    }
  }

  /** The result does not depend on the order of the input exactly when no two different
      elements tie; else bringing some element to the front changes it. */
  lemma OrderIrrelevant<T(!new)>(s: seq<T>, le: (T, T) -> bool)
    requires Preorder(le)
    ensures TiesAreEqual(s, le) <==>
            forall t :: multiset(t) == multiset(s) ==> SortBy(t, le) == SortBy(s, le)
    ensures TiesAreEqual(s, le) || exists i :: 0 <= i < |s| && SortBy(ToFront(s, i), le) != SortBy(s, le)
  {
    if TiesAreEqual(s, le) {
      forall t | multiset(t) == multiset(s) ensures SortBy(t, le) == SortBy(s, le) {
        SortPermutes(s, le);
        SortPermutes(t, le);
        SortSorts(s, le);
        SortSorts(t, le);
        SameTies(s, SortBy(s, le), le);
        SortedUnique(SortBy(s, le), SortBy(t, le), le);
      }
    } else {
      var i, j :| 0 <= i < |s| && 0 <= j < |s| && le(s[i], s[j]) && le(s[j], s[i]) && s[i] != s[j];
      SwappedTies(s, le, i, j);
      ToFrontElements(s, i);
      ToFrontElements(s, j);
    }
  }

  lemma SameTies<T>(s: seq<T>, t: seq<T>, le: (T, T) -> bool)
    requires multiset(s) == multiset(t) && TiesAreEqual(s, le)
    ensures TiesAreEqual(t, le)
  {
    forall i, j | 0 <= i < |t| && 0 <= j < |t| && le(t[i], t[j]) && le(t[j], t[i])
      ensures t[i] == t[j]
    {
      assert t[i] in multiset(s) && t[j] in multiset(s);
      var a :| 0 <= a < |s| && s[a] == t[i];
      var b :| 0 <= b < |s| && s[b] == t[j];
    }
  }

  function ToFront<T>(s: seq<T>, i: nat): (t: seq<T>)
    requires i < |s|
  {
    [s[i]] + (s[..i] + s[i + 1..])
  }

  lemma ToFrontElements<T>(s: seq<T>, i: nat)
    requires i < |s|
    ensures multiset(ToFront(s, i)) == multiset(s)
  {
    assert s == s[..i] + ([s[i]] + s[i + 1..]);
  }

  /** The first of the tied elements after sorting is the first one before. */
  lemma FirstTied<T(!new)>(s: seq<T>, le: (T, T) -> bool, x: T)
    requires Preorder(le) && s != [] && le(x, s[0]) && le(s[0], x)
    ensures var kept := Keep(SortBy(s, le), Tied(le, x)); kept != [] && kept[0] == s[0]
  {
    SortStable(s, le, x);
  }

  /** Bringing one of two tied, different elements to the front decides which comes first. */
  lemma SwappedTies<T(!new)>(s: seq<T>, le: (T, T) -> bool, i: nat, j: nat)
    requires Preorder(le) && i < |s| && j < |s| && le(s[i], s[j]) && le(s[j], s[i]) && s[i] != s[j]
    ensures SortBy(ToFront(s, i), le) != SortBy(ToFront(s, j), le)
  {
    assert le(s[i], s[i]);
    FirstTied(ToFront(s, i), le, s[i]);
    FirstTied(ToFront(s, j), le, s[i]);
  }

  // ---- the default order on strings -----------------------------------------------------

  /** Lexicographic by code unit, the order of `sort()` without a comparator. */
  predicate TextLe(a: Text, b: Text)
    decreases |a|
  {
    a == [] || (b != [] && (a[0] < b[0] || (a[0] == b[0] && TextLe(a[1..], b[1..]))))
  }

  lemma {:induction false} TextLeTotal(a: Text, b: Text)
    ensures TextLe(a, b) || TextLe(b, a)
    ensures TextLe(a, b) && TextLe(b, a) ==> a == b
    decreases |a|
  {
    if a != [] && b != [] {
      TextLeTotal(a[1..], b[1..]);
      assert a == [a[0]] + a[1..] && b == [b[0]] + b[1..];
    }
  }

  lemma {:induction false} TextLeTrans(a: Text, b: Text, c: Text)
    requires TextLe(a, b) && TextLe(b, c)
    ensures TextLe(a, c)
    decreases |a|
  {
    if a != [] && a[0] == b[0] == c[0] { TextLeTrans(a[1..], b[1..], c[1..]); }
  }
}
