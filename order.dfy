/** Orders and Python's `sorted`: a stable insertion sort over a total
    preorder, the lexicographic order Python uses for strings and lists, and
    the fact that a sorted permutation is unique under a linear order. */
module Order {

  ghost predicate Total<T(!new)>(le: (T, T) -> bool)
  {
    forall a, b :: le(a, b) || le(b, a)
  }

  ghost predicate Transitive<T(!new)>(le: (T, T) -> bool)
  {
    forall a, b, c :: le(a, b) && le(b, c) ==> le(a, c)
  }

  ghost predicate Antisymmetric<T(!new)>(le: (T, T) -> bool)
  {
    forall a, b :: le(a, b) && le(b, a) ==> a == b
  }

  ghost predicate TotalPreorder<T(!new)>(le: (T, T) -> bool)
  {
    Total(le) && Transitive(le)
  }

  ghost predicate LinearOrder<T(!new)>(le: (T, T) -> bool)
  {
    TotalPreorder(le) && Antisymmetric(le)
  }

  predicate SortedBy<T>(s: seq<T>, le: (T, T) -> bool)
  {
    forall i, j :: 0 <= i < j < |s| ==> le(s[i], s[j])
  }

  /** Insert `x` before the first element it is not above; `x` therefore
      stays ahead of the elements equal to it, as Python's stable sort keeps it. */
  function Insert<T>(x: T, s: seq<T>, le: (T, T) -> bool): (r: seq<T>)
    ensures multiset(r) == multiset(s) + multiset{x}
    ensures |r| == |s| + 1
  {
    if s == [] || le(x, s[0]) then [x] + s
    else
      var rest := Insert(x, s[1..], le);
      assert s == [s[0]] + s[1..];
      [s[0]] + rest
  }

  /** Python's `sorted(s)` for the order `le`: an insertion sort. */
  function Sort<T>(s: seq<T>, le: (T, T) -> bool): (r: seq<T>)
    ensures multiset(r) == multiset(s)
    ensures |r| == |s|
  {
    if s == [] then []
    else
      assert s == [s[0]] + s[1..];
      Insert(s[0], Sort(s[1..], le), le)
  }

  lemma {:induction false} InsertSorted<T(!new)>(x: T, s: seq<T>, le: (T, T) -> bool)
    requires TotalPreorder(le) && SortedBy(s, le)
    ensures SortedBy(Insert(x, s, le), le)
  {
    if s != [] && !le(x, s[0]) {
      InsertSorted(x, s[1..], le);
      InsertKeepsHead(x, s, le);
      ConsSorted(s[0], Insert(x, s[1..], le), le);
    }
  }

  /** Inserting behind the head keeps every element above the head. */
  lemma InsertKeepsHead<T(!new)>(x: T, s: seq<T>, le: (T, T) -> bool)
    requires TotalPreorder(le) && SortedBy(s, le) && s != [] && !le(x, s[0])
    ensures forall j :: 0 <= j < |Insert(x, s[1..], le)| ==> le(s[0], Insert(x, s[1..], le)[j])
  {
    var rest := Insert(x, s[1..], le);
    assert le(s[0], x);
    forall j | 0 <= j < |rest| ensures le(s[0], rest[j]) {
      assert rest[j] in multiset(rest);
      assert rest[j] in multiset(s[1..]) + multiset{x};
      if rest[j] != x {
        assert rest[j] in multiset(s[1..]);
        var k :| 0 <= k < |s[1..]| && s[1..][k] == rest[j];
        assert s[1..][k] == s[k + 1];
      }
    }
  }

  /** A head below every element of a sorted tail gives a sorted sequence. */
  lemma ConsSorted<T>(h: T, rest: seq<T>, le: (T, T) -> bool)
    requires SortedBy(rest, le)
    requires forall j :: 0 <= j < |rest| ==> le(h, rest[j])
    ensures SortedBy([h] + rest, le)
  {
    var r := [h] + rest;
    forall i, j | 0 <= i < j < |r| ensures le(r[i], r[j]) {
      if i == 0 {
        assert r[j] == rest[j - 1];
      } else {
        assert r[i] == rest[i - 1] && r[j] == rest[j - 1];
      }
    }
  }

  /** `sorted` returns its input in order. */
  lemma {:induction false} SortSorted<T(!new)>(s: seq<T>, le: (T, T) -> bool)
    requires TotalPreorder(le)
    ensures SortedBy(Sort(s, le), le)
  {
    if s != [] {
      SortSorted(s[1..], le);
      InsertSorted(s[0], Sort(s[1..], le), le);
    }
  }

  /** `a` and `b` are equal under the preorder: neither sorts before the other. */
  predicate Equivalent<T>(a: T, b: T, le: (T, T) -> bool)
  {
    le(a, b) && le(b, a)
  }

  /** The elements of `s` equivalent to `e`, in the order of `s`. */
  function Equivalents<T>(s: seq<T>, e: T, le: (T, T) -> bool): (r: seq<T>)
    ensures |r| <= |s|
  {
    if s == [] then []
    else (if Equivalent(e, s[0], le) then [s[0]] else []) + Equivalents(s[1..], e, le)
  }

  /** Inserting `x` puts it ahead of every element equivalent to it and
      leaves the order of the others alone. */
  lemma {:induction false} InsertEquivalents<T(!new)>(x: T, t: seq<T>, e: T, le: (T, T) -> bool)
    requires Transitive(le)
    ensures Equivalents(Insert(x, t, le), e, le)
            == (if Equivalent(e, x, le) then [x] else []) + Equivalents(t, e, le)
  {
    EquivalentsCons(x, t, e, le);
    if t != [] && !le(x, t[0]) {
      var rest := Insert(x, t[1..], le);
      assert t == [t[0]] + t[1..];
      EquivalentsCons(t[0], rest, e, le);
      EquivalentsCons(t[0], t[1..], e, le);
      InsertEquivalents(x, t[1..], e, le);
      if Equivalent(e, x, le) {
        BehindEquivalent(x, t[0], e, le);
      }
    }
  }

  lemma EquivalentsCons<T>(h: T, s: seq<T>, e: T, le: (T, T) -> bool)
    ensures Equivalents([h] + s, e, le) == (if Equivalent(e, h, le) then [h] else []) + Equivalents(s, e, le)
  {
    assert ([h] + s)[1..] == s;
  }

  /** An element that `x` does not sort before is not equivalent to what `x` is. */
  lemma BehindEquivalent<T(!new)>(x: T, y: T, e: T, le: (T, T) -> bool)
    requires Transitive(le) && Equivalent(e, x, le) && !le(x, y)
    ensures !Equivalent(e, y, le)
  {
  }

  /** `sorted` is stable: the elements equivalent to any `e` come out in
      the order they went in. */
  lemma {:induction false} SortStable<T(!new)>(s: seq<T>, e: T, le: (T, T) -> bool)
    requires Transitive(le)
    ensures Equivalents(Sort(s, le), e, le) == Equivalents(s, e, le)
  {
    if s != [] {
      SortStable(s[1..], e, le);
      InsertEquivalents(s[0], Sort(s[1..], le), e, le);
    }
  }

  lemma SortedTail<T>(s: seq<T>, le: (T, T) -> bool)
    requires s != [] && SortedBy(s, le)
    ensures SortedBy(s[1..], le)
  {
    forall i, j | 0 <= i < j < |s[1..]| ensures le(s[1..][i], s[1..][j]) {
      assert s[1..][i] == s[i + 1] && s[1..][j] == s[j + 1];
    }
  }

  /** The first element of a sorted sequence is below each of its elements. */
  lemma SortedHeadBelow<T>(s: seq<T>, x: T, le: (T, T) -> bool)
    requires SortedBy(s, le) && x in multiset(s)
    requires forall a :: le(a, a)
    ensures le(s[0], x)
  {
    var j :| 0 <= j < |s| && s[j] == x;
    if j > 0 { assert le(s[0], s[j]); }
  }

  lemma MultisetTail<T>(s: seq<T>)
    requires s != []
    ensures multiset(s[1..]) == multiset(s) - multiset{s[0]}
  {
    assert s == [s[0]] + s[1..];
  }

  /** Under a linear order, two sorted arrangements of the same elements are
      the same sequence. */
  lemma {:induction false} SortedUnique<T(!new)>(a: seq<T>, b: seq<T>, le: (T, T) -> bool)
    requires LinearOrder(le)
    requires SortedBy(a, le) && SortedBy(b, le)
    requires multiset(a) == multiset(b)
    ensures a == b
    decreases |a|
  {
    if a != [] {
      SortedSameHead(a, b, le);
      MultisetTail(a);
      MultisetTail(b);
      SortedTail(a, le);
      SortedTail(b, le);
      SortedUnique(a[1..], b[1..], le);
      assert a == [a[0]] + a[1..] && b == [b[0]] + b[1..];
    }
  }

  /** Two non-empty sorted arrangements of the same elements start alike. */
  lemma SortedSameHead<T(!new)>(a: seq<T>, b: seq<T>, le: (T, T) -> bool)
    requires LinearOrder(le)
    requires SortedBy(a, le) && SortedBy(b, le)
    requires multiset(a) == multiset(b) && a != []
    ensures |b| == |a| && a[0] == b[0]
  {
    assert |b| == |a| by {
      assert |multiset(a)| == |a| && |multiset(b)| == |b|;
    }
    assert forall x :: le(x, x);
    assert a[0] in multiset(b) && b[0] in multiset(a);
    SortedHeadBelow(b, a[0], le);
    SortedHeadBelow(a, b[0], le);
  }

  /** Sorting forgets the input's arrangement: permutations sort alike. */
  lemma SortPermutationInvariant<T(!new)>(a: seq<T>, b: seq<T>, le: (T, T) -> bool)
    requires LinearOrder(le)
    requires multiset(a) == multiset(b)
    ensures Sort(a, le) == Sort(b, le)
  {
    SortSorted(a, le);
    SortSorted(b, le);
    SortedUnique(Sort(a, le), Sort(b, le), le);
  }

  /** The elements satisfying `p`, in order. */
  function Filter<T>(p: T -> bool, xs: seq<T>): (r: seq<T>)
    ensures |r| <= |xs|
  {
    if xs == [] then []
    else Filter(p, xs[..|xs| - 1]) + (if p(xs[|xs| - 1]) then [xs[|xs| - 1]] else [])
  }

  /** An element is kept exactly when it is one of the elements and satisfies `p`. */
  lemma {:induction false} FilterMembers<T>(p: T -> bool, xs: seq<T>)
    ensures forall x :: x in Filter(p, xs) ==> x in xs && p(x)
    ensures forall x :: x in xs && p(x) ==> x in Filter(p, xs)
  {
    if xs != [] {
      var init := xs[..|xs| - 1];
      FilterMembers(p, init);
      assert xs == init + [xs[|xs| - 1]];
    }
  }

  /** Keeping some elements of a sorted sequence leaves them sorted. */
  lemma {:induction false} FilterSorted<T>(p: T -> bool, xs: seq<T>, le: (T, T) -> bool)
    requires SortedBy(xs, le)
    ensures SortedBy(Filter(p, xs), le)
  {
    if xs != [] {
      var n := |xs|;
      var init := xs[..n - 1];
      assert SortedBy(init, le) by {
        forall i, j | 0 <= i < j < |init| ensures le(init[i], init[j]) {
          assert init[i] == xs[i] && init[j] == xs[j];
        }
      }
      FilterSorted(p, init, le);
      var f := Filter(p, init);
      FilterMembers(p, init);
      if p(xs[n - 1]) {
        var r := f + [xs[n - 1]];
        forall i, j | 0 <= i < j < |r| ensures le(r[i], r[j]) {
          if j == |f| {
            assert r[i] == f[i] && f[i] in f;
            assert r[i] in init;
            var k :| 0 <= k < |init| && init[k] == r[i];
            assert le(xs[k], xs[n - 1]);
          } else {
            assert r[i] == f[i] && r[j] == f[j];
          }
        }
      } else {
        assert Filter(p, xs) == f;
      }
    }
  }

  /** Python's comparison of sequences: the first position where they differ
      decides; a proper prefix comes first. */
  predicate LexLe<T>(a: seq<T>, b: seq<T>, le: (T, T) -> bool)
    decreases |a|
  {
    if a == [] then true
    else if b == [] then false
    else if !le(b[0], a[0]) then true
    else if !le(a[0], b[0]) then false
    else LexLe(a[1..], b[1..], le)
  }

  lemma {:induction false} LexTotalAt<T(!new)>(a: seq<T>, b: seq<T>, le: (T, T) -> bool)
    requires Total(le)
    ensures LexLe(a, b, le) || LexLe(b, a, le)
    decreases |a|
  {
    if a != [] && b != [] && le(b[0], a[0]) && le(a[0], b[0]) {
      LexTotalAt(a[1..], b[1..], le);
    }
  }

  lemma {:induction false} LexTransitiveAt<T(!new)>(a: seq<T>, b: seq<T>, c: seq<T>, le: (T, T) -> bool)
    requires TotalPreorder(le)
    requires LexLe(a, b, le) && LexLe(b, c, le)
    ensures LexLe(a, c, le)
    decreases |a|
  {
    if a != [] {
      assert b != [] && c != [];
      if le(b[0], a[0]) && le(a[0], b[0]) && le(c[0], b[0]) && le(b[0], c[0]) {
        LexTransitiveAt(a[1..], b[1..], c[1..], le);
      }
    }
  }

  lemma {:induction false} LexAntisymmetricAt<T(!new)>(a: seq<T>, b: seq<T>, le: (T, T) -> bool)
    requires LinearOrder(le)
    requires LexLe(a, b, le) && LexLe(b, a, le)
    ensures a == b
    decreases |a|
  {
    if a != [] {
      assert b != [];
      assert le(b[0], a[0]) && le(a[0], b[0]);
      LexAntisymmetricAt(a[1..], b[1..], le);
      assert a == [a[0]] + a[1..] && b == [b[0]] + b[1..];
    }
  }

  /** The lexicographic extension of a linear order is a linear order. */
  lemma LexLinear<T(!new)>(le: (T, T) -> bool)
    requires LinearOrder(le)
    ensures LinearOrder((a: seq<T>, b: seq<T>) => LexLe(a, b, le))
  {
    var lex := (a: seq<T>, b: seq<T>) => LexLe(a, b, le);
    forall a, b ensures lex(a, b) || lex(b, a) { LexTotalAt(a, b, le); }
    forall a, b, c | lex(a, b) && lex(b, c) ensures lex(a, c) { LexTransitiveAt(a, b, c, le); }
    forall a, b | lex(a, b) && lex(b, a) ensures a == b { LexAntisymmetricAt(a, b, le); }
  }

  /** The lexicographic extension of a total preorder is a total preorder. */
  lemma LexPreorder<T(!new)>(le: (T, T) -> bool)
    requires TotalPreorder(le)
    ensures TotalPreorder((a: seq<T>, b: seq<T>) => LexLe(a, b, le))
  {
    var lex := (a: seq<T>, b: seq<T>) => LexLe(a, b, le);
    forall a, b ensures lex(a, b) || lex(b, a) { LexTotalAt(a, b, le); }
    forall a, b, c | lex(a, b) && lex(b, c) ensures lex(a, c) { LexTransitiveAt(a, b, c, le); }
  }

  function CharLe(x: char, y: char): bool { x <= y }

  /** Python's `a <= b` on strings: by code point, lexicographically. */
  predicate StrLe(a: string, b: string)
  {
    LexLe(a, b, CharLe)
  }

  lemma StrLeLinear()
    ensures LinearOrder(StrLe)
  {
    assert LinearOrder(CharLe);
    forall a, b ensures StrLe(a, b) || StrLe(b, a) { LexTotalAt(a, b, CharLe); }
    forall a, b, c | StrLe(a, b) && StrLe(b, c) ensures StrLe(a, c) {
      LexTransitiveAt(a, b, c, CharLe);
    }
    forall a, b | StrLe(a, b) && StrLe(b, a) ensures a == b { LexAntisymmetricAt(a, b, CharLe); }
  }
}
