/** Orders, sorting, and what rearranging a sequence cannot change. */
module Sequences {

  ghost predicate Preorder<T(!new)>(leq: (T, T) -> bool) {
    && (forall a, b :: leq(a, b) || leq(b, a))
    && (forall a, b, c :: leq(a, b) && leq(b, c) ==> leq(a, c))
  }

  ghost predicate TotalOrder<T(!new)>(leq: (T, T) -> bool) {
    && Preorder(leq)
    && (forall a, b :: leq(a, b) && leq(b, a) ==> a == b)
  }

  ghost predicate Sorted<T>(leq: (T, T) -> bool, s: seq<T>) {
    forall i, j :: 0 <= i < j < |s| ==> leq(s[i], s[j])
  }

  ghost predicate Permutation<T>(a: seq<T>, b: seq<T>) {
    multiset(a) == multiset(b)
  }

  // ---------- lexicographic order: tuples, and text by code point --------------

  predicate Lex<T(==)>(leq: (T, T) -> bool, a: seq<T>, b: seq<T>) {
    if a == [] then true
    else if b == [] then false
    else if a[0] != b[0] then leq(a[0], b[0])
    else Lex(leq, a[1..], b[1..])
  }

  lemma {:induction false} LexTotalAndAntisymmetric<T(!new)>(leq: (T, T) -> bool, a: seq<T>, b: seq<T>)
    requires TotalOrder(leq)
    ensures Lex(leq, a, b) || Lex(leq, b, a)
    ensures Lex(leq, a, b) && Lex(leq, b, a) ==> a == b
  {
    if a != [] && b != [] {
      LexTotalAndAntisymmetric(leq, a[1..], b[1..]);
      assert a == [a[0]] + a[1..] && b == [b[0]] + b[1..];
    }
  }

  lemma {:induction false} LexTransitive<T(!new)>(leq: (T, T) -> bool, a: seq<T>, b: seq<T>, c: seq<T>)
    requires TotalOrder(leq) && Lex(leq, a, b) && Lex(leq, b, c)
    ensures Lex(leq, a, c)
  {
    if a != [] && a[0] == b[0] == c[0] {
      LexTransitive(leq, a[1..], b[1..], c[1..]);
    }
  }

  lemma LexIsTotalOrder<T(!new)>(leq: (T, T) -> bool)
    requires TotalOrder(leq)
    ensures TotalOrder((a: seq<T>, b: seq<T>) => Lex(leq, a, b))
  {
    var lex := (a: seq<T>, b: seq<T>) => Lex(leq, a, b);
    forall a, b ensures lex(a, b) || lex(b, a)
            ensures lex(a, b) && lex(b, a) ==> a == b {
      LexTotalAndAntisymmetric(leq, a, b);
    }
    forall a, b, c | lex(a, b) && lex(b, c) ensures lex(a, c) {
      LexTransitive(leq, a, b, c);
    }
  }

  lemma {:induction false} LexCommonPrefix<T>(leq: (T, T) -> bool, p: seq<T>, a: seq<T>, b: seq<T>)
    ensures Lex(leq, p + a, p + b) == Lex(leq, a, b)
  {
    if p == [] {
      assert p + a == a && p + b == b;
    } else {
      assert (p + a)[1..] == p[1..] + a && (p + b)[1..] == p[1..] + b;
      LexCommonPrefix(leq, p[1..], a, b);
    }
  }

  // ---------- sorting ------------------------------------------------------------

  function Insert<T>(leq: (T, T) -> bool, x: T, s: seq<T>): (r: seq<T>)
    ensures multiset(r) == multiset(s) + multiset{x}
  {
    if s == [] then [x]
    else if leq(x, s[0]) then [x] + s
    else
      assert s == [s[0]] + s[1..];
      [s[0]] + Insert(leq, x, s[1..])
  }

  function Sort<T>(leq: (T, T) -> bool, s: seq<T>): (r: seq<T>)
    ensures Permutation(r, s) && |r| == |s|
  {
    if s == [] then []
    else
      assert s == [s[0]] + s[1..];
      var r := Insert(leq, s[0], Sort(leq, s[1..]));
      assert |r| == |multiset(r)| == |multiset(s)| == |s|;
      r
  }

  lemma {:induction false} InsertKeepsSorted<T(!new)>(leq: (T, T) -> bool, x: T, s: seq<T>)
    requires Preorder(leq) && Sorted(leq, s)
    ensures Sorted(leq, Insert(leq, x, s))
  {
    if s != [] && !leq(x, s[0]) {
      var rest := Insert(leq, x, s[1..]);
      InsertKeepsSorted(leq, x, s[1..]);
      forall k | 0 <= k < |rest| ensures leq(s[0], rest[k]) {
        assert rest[k] in multiset(s[1..]) + multiset{x};
      }
    }
  }

  lemma {:induction false} SortSorts<T(!new)>(leq: (T, T) -> bool, s: seq<T>)
    requires Preorder(leq)
    ensures Sorted(leq, Sort(leq, s))
  {
    if s != [] {
      SortSorts(leq, s[1..]);
      InsertKeepsSorted(leq, s[0], Sort(leq, s[1..]));
    }
  }

  lemma SortedHeadIsLeast<T(!new)>(leq: (T, T) -> bool, s: seq<T>, x: T)
    requires TotalOrder(leq) && Sorted(leq, s) && x in s
    ensures leq(s[0], x)
  {
    var i :| 0 <= i < |s| && s[i] == x;
    if i == 0 { assert leq(x, x) || leq(x, x); }
  }

  /** There is only one way to sort by a total order. */
  lemma {:induction false} SortedIsUnique<T(!new)>(leq: (T, T) -> bool, a: seq<T>, b: seq<T>)
    requires TotalOrder(leq) && Sorted(leq, a) && Sorted(leq, b) && Permutation(a, b)
    ensures a == b
  {
    SameLength(a, b);
    if a != [] {
      SameMembers(a, b, a[0]);
      SameMembers(a, b, b[0]);
      SortedHeadIsLeast(leq, a, b[0]);
      SortedHeadIsLeast(leq, b, a[0]);
      assert a[0] == b[0];
      TailsOfPermutation(a, b);
      SortedIsUnique(leq, a[1..], b[1..]);
      assert a == [a[0]] + a[1..] && b == [b[0]] + b[1..];
    }
  }

  lemma TailsOfPermutation<T>(a: seq<T>, b: seq<T>)
    requires Permutation(a, b) && a != [] && b != [] && a[0] == b[0]
    ensures Permutation(a[1..], b[1..])
  {
    assert a == [a[0]] + a[1..] && b == [b[0]] + b[1..];
    assert multiset(a[1..]) == multiset(a) - multiset{a[0]};
    assert multiset(b[1..]) == multiset(b) - multiset{b[0]};
  }

  lemma SortIsCanonical<T(!new)>(leq: (T, T) -> bool, a: seq<T>, b: seq<T>)
    requires TotalOrder(leq) && Permutation(a, b)
    ensures Sort(leq, a) == Sort(leq, b)
  {
    SortSorts(leq, a);
    SortSorts(leq, b);
    SortedIsUnique(leq, Sort(leq, a), Sort(leq, b));
  }

  // ---------- folds that do not see the order -------------------------------------

  function Filter<T>(p: T -> bool, s: seq<T>): (r: seq<T>)
    ensures |r| <= |s|
  {
    if s == [] then []
    else (if p(s[0]) then [s[0]] else []) + Filter(p, s[1..])
  }

  function Map<T, R>(f: T -> R, s: seq<T>): (r: seq<R>)
    ensures |r| == |s| && forall k :: 0 <= k < |s| ==> r[k] == f(s[k])
  {
    seq(|s|, k requires 0 <= k < |s| => f(s[k]))
  }

  function Count<T>(p: T -> bool, s: seq<T>): nat {
    if s == [] then 0 else (if p(s[0]) then 1 else 0) + Count(p, s[1..])
  }

  function Sum<T>(f: T -> int, s: seq<T>): int {
    if s == [] then 0 else f(s[0]) + Sum(f, s[1..])
  }

  /** The bag of everything `f` yields along `s`. */
  ghost function Bag<T, R>(f: T -> multiset<R>, s: seq<T>): multiset<R> {
    if s == [] then multiset{} else f(s[0]) + Bag(f, s[1..])
  }

  /** `s` without position `i`. */
  function Drop<T>(s: seq<T>, i: nat): (r: seq<T>)
    requires i < |s|
    ensures |r| == |s| - 1
    ensures multiset(s) == multiset(r) + multiset{s[i]}
  {
    assert s == s[..i] + [s[i]] + s[i + 1..];
    s[..i] + s[i + 1..]
  }

  /** The element a rearrangement of [x] + rest has to contain somewhere. */
  lemma PermutationHead<T>(a: seq<T>, b: seq<T>) returns (i: nat)
    requires Permutation(a, b) && a != []
    ensures i < |b| && b[i] == a[0] && Permutation(a[1..], Drop(b, i)) && |a| == |b|
  {
    assert |a| == |multiset(a)| == |multiset(b)| == |b|;
    assert a[0] in multiset(b);
    i :| 0 <= i < |b| && b[i] == a[0];
    assert a == [a[0]] + a[1..];
    assert multiset(a[1..]) == multiset(a) - multiset{a[0]};
    assert multiset(Drop(b, i)) == multiset(b) - multiset{b[i]};
  }

  lemma {:induction false} BagDrop<T, R>(f: T -> multiset<R>, s: seq<T>, i: nat)
    requires i < |s|
    ensures Bag(f, s) == f(s[i]) + Bag(f, Drop(s, i))
  {
    if i == 0 {
      assert Drop(s, 0) == s[1..];
    } else {
      var d := Drop(s, i);
      assert d[0] == s[0] && d[1..] == Drop(s[1..], i - 1);
      calc {
        Bag(f, s);
        f(s[0]) + Bag(f, s[1..]);
        { BagDrop(f, s[1..], i - 1); }
        f(s[0]) + (f(s[i]) + Bag(f, d[1..]));
        f(s[i]) + (f(d[0]) + Bag(f, d[1..]));
        f(s[i]) + Bag(f, d);
      }
    }
  }

  lemma {:induction false} BagOfPermutation<T, R>(f: T -> multiset<R>, a: seq<T>, b: seq<T>)
    requires Permutation(a, b)
    ensures Bag(f, a) == Bag(f, b)
  {
    if a == [] {
      assert multiset(b) == multiset{};
      assert b == [];
    } else {
      var i := PermutationHead(a, b);
      BagOfPermutation(f, a[1..], Drop(b, i));
      BagDrop(f, b, i);
    }
  }

  lemma {:induction false} FilterAsBag<T>(p: T -> bool, s: seq<T>)
    ensures multiset(Filter(p, s)) == Bag((x: T) => if p(x) then multiset{x} else multiset{}, s)
  {
    if s != [] { FilterAsBag(p, s[1..]); }
  }

  lemma {:induction false} FilterKeepsCopies<T>(p: T -> bool, s: seq<T>, x: T)
    ensures multiset(Filter(p, s))[x] == if p(x) then multiset(s)[x] else 0
  {
    if s != [] {
      FilterKeepsCopies(p, s[1..], x);
      assert s == [s[0]] + s[1..];
    }
  }

  lemma {:induction false} MapAsBag<T, R>(f: T -> R, s: seq<T>)
    ensures multiset(Map(f, s)) == Bag((x: T) => multiset{f(x)}, s)
  {
    if s != [] {
      MapAsBag(f, s[1..]);
      assert Map(f, s) == [f(s[0])] + Map(f, s[1..]);
    }
  }

  lemma FilterOfPermutation<T>(p: T -> bool, a: seq<T>, b: seq<T>)
    requires Permutation(a, b)
    ensures Permutation(Filter(p, a), Filter(p, b)) && |Filter(p, a)| == |Filter(p, b)|
  {
    FilterAsBag(p, a);
    FilterAsBag(p, b);
    BagOfPermutation((x: T) => if p(x) then multiset{x} else multiset{}, a, b);
    SameLength(Filter(p, a), Filter(p, b));
  }

  lemma MapOfPermutation<T, R>(f: T -> R, a: seq<T>, b: seq<T>)
    requires Permutation(a, b)
    ensures Permutation(Map(f, a), Map(f, b))
  {
    MapAsBag(f, a);
    MapAsBag(f, b);
    BagOfPermutation((x: T) => multiset{f(x)}, a, b);
  }

  lemma SameLength<T>(a: seq<T>, b: seq<T>)
    requires Permutation(a, b)
    ensures |a| == |b|
  {
    assert |a| == |multiset(a)| == |multiset(b)| == |b|;
  }

  lemma SameMembers<T>(a: seq<T>, b: seq<T>, x: T)
    requires Permutation(a, b)
    ensures x in a <==> x in b
  {
    assert x in a <==> x in multiset(a);
  }

  lemma {:induction false} CountIsFilterLength<T>(p: T -> bool, s: seq<T>)
    ensures Count(p, s) == |Filter(p, s)|
  {
    if s != [] { CountIsFilterLength(p, s[1..]); }
  }

  lemma CountOfPermutation<T>(p: T -> bool, a: seq<T>, b: seq<T>)
    requires Permutation(a, b)
    ensures Count(p, a) == Count(p, b)
  {
    CountIsFilterLength(p, a);
    CountIsFilterLength(p, b);
    FilterOfPermutation(p, a, b);
  }

  lemma {:induction false} SumDrop<T>(f: T -> int, s: seq<T>, i: nat)
    requires i < |s|
    ensures Sum(f, s) == f(s[i]) + Sum(f, Drop(s, i))
  {
    if i == 0 {
      assert Drop(s, 0) == s[1..];
    } else {
      SumDrop(f, s[1..], i - 1);
      assert Drop(s, i)[1..] == Drop(s[1..], i - 1);
    }
  }

  lemma {:induction false} SumOfPermutation<T>(f: T -> int, a: seq<T>, b: seq<T>)
    requires Permutation(a, b)
    ensures Sum(f, a) == Sum(f, b)
  {
    if a == [] {
      SameLength(a, b);
    } else {
      var i := PermutationHead(a, b);
      SumOfPermutation(f, a[1..], Drop(b, i));
      SumDrop(f, b, i);
    }
  }

  lemma {:induction false} CountAppend<T>(p: T -> bool, s: seq<T>, x: T)
    ensures Count(p, s + [x]) == Count(p, s) + (if p(x) then 1 else 0)
  {
    if s != [] {
      assert (s + [x])[1..] == s[1..] + [x];
      CountAppend(p, s[1..], x);
    }
  }

  lemma {:induction false} FilterMembers<T>(p: T -> bool, s: seq<T>, x: T)
    ensures x in Filter(p, s) <==> x in s && p(x)
  {
    if s != [] { FilterMembers(p, s[1..], x); }
  }

  lemma {:induction false} DistinctOnce<T>(s: seq<T>, x: T)
    requires forall i, j :: 0 <= i < j < |s| ==> s[i] != s[j]
    ensures multiset(s)[x] == if x in s then 1 else 0
  {
    if s != [] {
      DistinctOnce(s[1..], x);
      assert s == [s[0]] + s[1..];
    }
  }

  lemma DistinctSameMembers<T(!new)>(a: seq<T>, b: seq<T>)
    requires forall i, j :: 0 <= i < j < |a| ==> a[i] != a[j]
    requires forall i, j :: 0 <= i < j < |b| ==> b[i] != b[j]
    requires forall x :: x in a <==> x in b
    ensures Permutation(a, b) && |a| == |b|
  {
    forall x ensures multiset(a)[x] == multiset(b)[x] {
      DistinctOnce(a, x);
      DistinctOnce(b, x);
    }
    SameLength(a, b);
  }

  // ---------- relations between earlier and later elements ---------------------------

  ghost predicate Pairwise<T>(r: (T, T) -> bool, s: seq<T>) {
    forall i, j :: 0 <= i < j < |s| ==> r(s[i], s[j])
  }

  lemma PairwiseAppend<T>(r: (T, T) -> bool, s: seq<T>, x: T)
    requires Pairwise(r, s) && forall y :: y in s ==> r(y, x)
    ensures Pairwise(r, s + [x])
  {
  }

  lemma {:induction false} PairwiseFilter<T>(r: (T, T) -> bool, p: T -> bool, s: seq<T>)
    requires Pairwise(r, s)
    ensures Pairwise(r, Filter(p, s))
  {
    if s != [] {
      var rest := Filter(p, s[1..]);
      PairwiseFilter(r, p, s[1..]);
      forall y | y in rest ensures r(s[0], y) { FilterMembers(p, s[1..], y); }
    }
  }

  lemma {:induction false} CountImplies<T>(p: T -> bool, q: T -> bool, s: seq<T>)
    requires forall x :: x in s && p(x) ==> q(x)
    ensures Count(p, s) <= Count(q, s)
  {
    if s != [] { CountImplies(p, q, s[1..]); }
  }

  lemma {:induction false} CountOfFilter<T>(p: T -> bool, q: T -> bool, s: seq<T>)
    ensures Count(p, Filter(q, s)) <= Count(p, s)
  {
    if s != [] {
      var r := Filter(q, s[1..]);
      CountOfFilter(p, q, s[1..]);
      assert ([s[0]] + r)[1..] == r && [] + r == r;
    }
  }

  lemma {:induction false} NoneCounted<T>(p: T -> bool, s: seq<T>, x: T)
    requires Count(p, s) == 0 && x in s
    ensures !p(x)
  {
    if x != s[0] { NoneCounted(p, s[1..], x); }
  }
}
