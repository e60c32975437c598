/** Filtering, taking and ordering of sequences. */
module Lists {
  function Filter<T>(xs: seq<T>, p: T -> bool): (r: seq<T>)
    ensures |r| <= |xs|
  {
    if xs == [] then []
    else
      var rest := Filter(xs[..|xs| - 1], p);
      if p(xs[|xs| - 1]) then rest + [xs[|xs| - 1]] else rest
  }

  function Take<T>(n: nat, xs: seq<T>): (r: seq<T>)
    ensures |r| == if |xs| < n then |xs| else n
    ensures r <= xs
  {
    if |xs| < n then xs else xs[..n]
  }

  function Mapped<T, U>(xs: seq<T>, f: T -> U): (r: seq<U>)
    ensures |r| == |xs| && forall i :: 0 <= i < |xs| ==> r[i] == f(xs[i])
  {
    seq(|xs|, i requires 0 <= i < |xs| => f(xs[i]))
  }

  ghost predicate Distinct<T>(xs: seq<T>) {
    forall i, j :: 0 <= i < j < |xs| ==> xs[i] != xs[j]
  }

  lemma {:induction false} FilterMembers<T>(xs: seq<T>, p: T -> bool)
    ensures forall x :: x in Filter(xs, p) ==> x in xs && p(x)
    ensures forall x :: x in xs && p(x) ==> x in Filter(xs, p)
  {
    if xs != [] {
      FilterMembers(xs[..|xs| - 1], p);
      assert forall x :: x in xs ==> x in xs[..|xs| - 1] || x == xs[|xs| - 1];
    }
  }

  lemma FilterSnoc<T>(xs: seq<T>, x: T, p: T -> bool)
    ensures Filter(xs + [x], p) == Filter(xs, p) + (if p(x) then [x] else [])
  {
    assert (xs + [x])[..|xs|] == xs;
  }

  lemma {:induction false} FilterConcat<T>(xs: seq<T>, ys: seq<T>, p: T -> bool)
    ensures Filter(xs + ys, p) == Filter(xs, p) + Filter(ys, p)
  {
    if ys == [] {
      assert xs + ys == xs;
    } else {
      var front, last := ys[..|ys| - 1], ys[|ys| - 1];
      assert xs + ys == (xs + front) + [last];
      FilterSnoc(xs + front, last, p);
      FilterConcat(xs, front, p);
    }
  }

  lemma {:induction false} FilterDistinct<T>(xs: seq<T>, p: T -> bool)
    requires Distinct(xs)
    ensures Distinct(Filter(xs, p))
  {
    if xs != [] {
      FilterDistinct(xs[..|xs| - 1], p);
      FilterMembers(xs[..|xs| - 1], p);
    }
  }

  // ----- Orders -----

  ghost predicate StrictOrder<T(!new)>(less: (T, T) -> bool) {
    && (forall a, b :: less(a, b) ==> !less(b, a))
    && (forall a, b, c :: less(a, b) && less(b, c) ==> less(a, c))
  }

  ghost predicate Comparable<T(!new)>(xs: seq<T>, less: (T, T) -> bool) {
    forall a, b :: a in xs && b in xs && a != b ==> less(a, b) || less(b, a)
  }

  ghost predicate SortedBy<T(!new)>(xs: seq<T>, less: (T, T) -> bool) {
    forall i, j :: 0 <= i < j < |xs| ==> less(xs[i], xs[j])
  }

  function InsertBy<T>(x: T, ys: seq<T>, less: (T, T) -> bool): (r: seq<T>)
    ensures |r| == |ys| + 1
  {
    if ys == [] then [x]
    else if less(x, ys[0]) then [x] + ys
    else [ys[0]] + InsertBy(x, ys[1..], less)
  }

  /** The elements in ascending order. */
  function SortBy<T>(xs: seq<T>, less: (T, T) -> bool): (r: seq<T>)
    ensures |r| == |xs|
  {
    if xs == [] then [] else InsertBy(xs[|xs| - 1], SortBy(xs[..|xs| - 1], less), less)
  }

  lemma {:induction false} InsertPermutes<T>(x: T, ys: seq<T>, less: (T, T) -> bool)
    ensures multiset(InsertBy(x, ys, less)) == multiset(ys) + multiset{x}
  {
    if ys != [] && !less(x, ys[0]) {
      InsertPermutes(x, ys[1..], less);
      assert ys == [ys[0]] + ys[1..];
    }
  }

  lemma {:induction false} SortPermutes<T>(xs: seq<T>, less: (T, T) -> bool)
    ensures multiset(SortBy(xs, less)) == multiset(xs)
  {
    if xs != [] {
      SortPermutes(xs[..|xs| - 1], less);
      InsertPermutes(xs[|xs| - 1], SortBy(xs[..|xs| - 1], less), less);
      assert xs == xs[..|xs| - 1] + [xs[|xs| - 1]];
    }
  }

  lemma SameMembers<T>(xs: seq<T>, ys: seq<T>)
    requires multiset(xs) == multiset(ys)
    ensures forall x :: x in xs ==> x in ys
    ensures forall x :: x in ys ==> x in xs
  {
    forall x | x in xs ensures x in ys {
      assert x in multiset(ys);
    }
    forall x | x in ys ensures x in xs {
      assert x in multiset(xs);
    }
  }

  lemma {:induction false} InsertSorts<T(!new)>(x: T, ys: seq<T>, less: (T, T) -> bool)
    requires StrictOrder(less) && SortedBy(ys, less)
    requires forall y :: y in ys ==> less(x, y) || less(y, x)
    ensures SortedBy(InsertBy(x, ys, less), less)
  {
    if ys != [] && !less(x, ys[0]) {
      InsertSorts(x, ys[1..], less);
      var rest := InsertBy(x, ys[1..], less);
      InsertPermutes(x, ys[1..], less);
      forall j | 0 <= j < |rest| ensures less(ys[0], rest[j]) {
        assert rest[j] in multiset(ys[1..]) + multiset{x};
      }
    }
  }

  lemma {:induction false} SortSorts<T(!new)>(xs: seq<T>, less: (T, T) -> bool)
    requires StrictOrder(less) && Comparable(xs, less) && Distinct(xs)
    ensures SortedBy(SortBy(xs, less), less)
  {
    if xs != [] {
      var front, last := xs[..|xs| - 1], xs[|xs| - 1];
      SortSorts(front, less);
      SortPermutes(front, less);
      SameMembers(front, SortBy(front, less));
      InsertSorts(last, SortBy(front, less), less);
    }
  }

  lemma SortedDistinct<T(!new)>(xs: seq<T>, less: (T, T) -> bool)
    requires StrictOrder(less) && SortedBy(xs, less)
    ensures Distinct(xs)
  {
  }

  lemma SortedHeads<T(!new)>(xs: seq<T>, ys: seq<T>, less: (T, T) -> bool)
    requires StrictOrder(less) && SortedBy(xs, less) && SortedBy(ys, less)
    requires xs != [] && ys != [] && xs[0] in ys && ys[0] in xs
    ensures xs[0] == ys[0]
  {
    var i :| 0 <= i < |ys| && ys[i] == xs[0];
    var j :| 0 <= j < |xs| && xs[j] == ys[0];
    assert i > 0 ==> less(ys[0], ys[i]);
    assert j > 0 ==> less(xs[0], xs[j]);
  }

  /** Two ascending lists with the same members are the same list. */
  lemma {:induction false} SortedUnique<T(!new)>(xs: seq<T>, ys: seq<T>, less: (T, T) -> bool)
    requires StrictOrder(less) && SortedBy(xs, less) && SortedBy(ys, less)
    requires forall x :: x in xs <==> x in ys
    ensures xs == ys
  {
    assert xs != [] ==> xs[0] in xs;
    assert ys != [] ==> ys[0] in ys;
    if xs != [] {
      SortedHeads(xs, ys, less);
      TailMembers(xs, ys, less);
      SortedUnique(xs[1..], ys[1..], less);
      assert xs == [xs[0]] + xs[1..] && ys == [ys[0]] + ys[1..];
    }
  }

  lemma TailMembers<T(!new)>(xs: seq<T>, ys: seq<T>, less: (T, T) -> bool)
    requires StrictOrder(less) && SortedBy(xs, less) && SortedBy(ys, less)
    requires xs != [] && ys != [] && xs[0] == ys[0]
    requires forall x :: x in xs <==> x in ys
    ensures forall x :: x in xs[1..] <==> x in ys[1..]
  {
    forall x ensures x in xs[1..] <==> x in xs && x != xs[0] {
      InTail(xs, x, less);
    }
    forall x ensures x in ys[1..] <==> x in ys && x != ys[0] {
      InTail(ys, x, less);
    }
  }

  lemma InTail<T(!new)>(xs: seq<T>, x: T, less: (T, T) -> bool)
    requires StrictOrder(less) && SortedBy(xs, less) && xs != []
    ensures x in xs[1..] <==> x in xs && x != xs[0]
  {
    if x in xs[1..] {
      var i :| 0 <= i < |xs| - 1 && xs[1..][i] == x;
      assert less(xs[0], xs[i + 1]);
    }
    if x in xs && x != xs[0] {
      var i :| 0 <= i < |xs| && xs[i] == x;
      assert xs[1..][i - 1] == x;
    }
  }

  lemma {:induction false} FilterSorted<T(!new)>(xs: seq<T>, p: T -> bool, less: (T, T) -> bool)
    requires SortedBy(xs, less)
    ensures SortedBy(Filter(xs, p), less)
  {
    if xs != [] {
      var front, last := xs[..|xs| - 1], xs[|xs| - 1];
      FilterSorted(front, p, less);
      FilterMembers(front, p);
      forall x | x in Filter(front, p) ensures less(x, last) {
        var i :| 0 <= i < |front| && front[i] == x;
        assert less(xs[i], xs[|xs| - 1]);
      }
    }
  }

  /** Sorting any arrangement of distinct comparable elements gives one and the same list. */
  lemma SortIndependent<T(!new)>(xs: seq<T>, ys: seq<T>, less: (T, T) -> bool)
    requires StrictOrder(less) && Comparable(xs, less) && Distinct(xs) && Distinct(ys)
    requires forall x :: x in xs <==> x in ys
    ensures SortBy(xs, less) == SortBy(ys, less)
  {
    SortSorts(xs, less);
    SortSorts(ys, less);
    SortPermutes(xs, less);
    SortPermutes(ys, less);
    SameMembers(xs, SortBy(xs, less));
    SameMembers(ys, SortBy(ys, less));
    SortedUnique(SortBy(xs, less), SortBy(ys, less), less);
  }

  // ----- Lengths of distinct lists -----

  function Members<T>(xs: seq<T>): set<T> {
    set x | x in xs
  }

  lemma {:induction false} DistinctLength<T>(xs: seq<T>)
    requires Distinct(xs)
    ensures |Members(xs)| == |xs|
  {
    if xs != [] {
      var front, last := xs[..|xs| - 1], xs[|xs| - 1];
      DistinctLength(front);
      assert Members(xs) == Members(front) + {last};
    }
  }

  lemma SubsetSize<T>(a: set<T>, b: set<T>)
    requires a <= b
    ensures |a| <= |b| && |b - a| == |b| - |a|
  {
    assert b == a + (b - a);
  }

  // ----- Mapping through filters and sorts -----

  lemma {:induction false} FilterSame<T(!new)>(xs: seq<T>, p: T -> bool, q: T -> bool)
    requires forall x :: p(x) == q(x)
    ensures Filter(xs, p) == Filter(xs, q)
  {
    if xs != [] {
      FilterSame(xs[..|xs| - 1], p, q);
    }
  }

  lemma {:induction false} FilterMapped<T(!new)>(xs: seq<T>, p: T -> bool, f: T -> T)
    requires forall x :: p(f(x)) == p(x)
    ensures Mapped(Filter(xs, p), f) == Filter(Mapped(xs, f), p)
  {
    if xs != [] {
      var front := xs[..|xs| - 1];
      FilterMapped(front, p, f);
      assert Mapped(xs, f)[..|xs| - 1] == Mapped(front, f);
    }
  }

  lemma {:induction false} InsertMapped<T(!new)>(x: T, ys: seq<T>, less: (T, T) -> bool, f: T -> T)
    requires forall a, b :: less(f(a), f(b)) == less(a, b)
    ensures Mapped(InsertBy(x, ys, less), f) == InsertBy(f(x), Mapped(ys, f), less)
  {
    if ys != [] {
      assert less(f(x), f(ys[0])) == less(x, ys[0]);
      assert Mapped(ys, f)[1..] == Mapped(ys[1..], f);
      if less(x, ys[0]) {
        assert Mapped([x] + ys, f) == [f(x)] + Mapped(ys, f);
      } else {
        InsertMapped(x, ys[1..], less, f);
        assert Mapped([ys[0]] + InsertBy(x, ys[1..], less), f) == [f(ys[0])] + Mapped(InsertBy(x, ys[1..], less), f);
      }
    } else {
      assert Mapped([x], f) == [f(x)];
    }
  }

  lemma {:induction false} SortMapped<T(!new)>(xs: seq<T>, less: (T, T) -> bool, f: T -> T)
    requires forall a, b :: less(f(a), f(b)) == less(a, b)
    ensures Mapped(SortBy(xs, less), f) == SortBy(Mapped(xs, f), less)
  {
    if xs != [] {
      var front := xs[..|xs| - 1];
      SortMapped(front, less, f);
      assert Mapped(xs, f)[..|xs| - 1] == Mapped(front, f);
      InsertMapped(xs[|xs| - 1], SortBy(front, less), less, f);
    }
  }

  lemma MappedTake<T, U>(n: nat, xs: seq<T>, f: T -> U)
    ensures Mapped(Take(n, xs), f) == Take(n, Mapped(xs, f))
  {
  }

  lemma MappedConcat<T, U>(xs: seq<T>, ys: seq<T>, f: T -> U)
    ensures Mapped(xs + ys, f) == Mapped(xs, f) + Mapped(ys, f)
  {
  }

  /** Some element: a map is iterated in an order that nothing may rely on. */
  // ----- Parts of lists -----

  lemma SplitTail<T>(xs: seq<T>, j: nat)
    requires 0 < j <= |xs|
    ensures xs[..j] == [xs[0]] + xs[1..][..j - 1] && xs[j..] == xs[1..][j - 1..]
  {
  }

  lemma PrependAssociates<T>(first: T, before: seq<T>, x: T, after: seq<T>)
    ensures [first] + (before + [x] + after) == ([first] + before) + [x] + after
  {
  }

  lemma SliceOfSlice<T>(xs: seq<T>, at: nat, len: nat, from: nat, part: nat)
    requires at + len <= |xs| && from + part <= len
    ensures xs[at..at + len][from..from + part] == xs[at + from..at + from + part]
  {
    var a, b := xs[at..at + len][from..from + part], xs[at + from..at + from + part];
    forall k | 0 <= k < part ensures a[k] == b[k] {
      assert a[k] == xs[at + (from + k)];
    }
  }

  lemma SliceOfRest<T>(xs: seq<T>, at: nat, from: nat, part: nat)
    requires at + from + part <= |xs|
    ensures xs[at..][from..from + part] == xs[at + from..at + from + part]
  {
  }

  lemma OneMore(n: nat, len: nat)
    requires n > 0
    ensures n * len == (n - 1) * len + len
  {
  }

  // ----- Lists end to end -----

  function Joined<T>(xs: seq<seq<T>>): seq<T> {
    if xs == [] then [] else Joined(xs[..|xs| - 1]) + xs[|xs| - 1]
  }

  /**
   Where row `rows` of a buffer of rows of one size starts, and the length of so many rows: the product, reached one
   row at a time.
   */
  function Offset(rows: nat, size: nat): nat {
    if rows == 0 then 0 else Offset(rows - 1, size) + size
  }

  lemma {:induction false} OffsetIsProduct(rows: nat, size: nat)
    ensures Offset(rows, size) == rows * size
  {
    if rows > 0 {
      OffsetIsProduct(rows - 1, size);
      assert rows * size == (rows - 1) * size + size;
    }
  }

  lemma {:induction false} OffsetGrows(a: nat, b: nat, size: nat)
    requires a <= b
    ensures Offset(a, size) <= Offset(b, size)
  {
    if a < b {
      OffsetGrows(a, b - 1, size);
    }
  }

  method AnyOf<T>(xs: set<T>) returns (x: T)
    requires xs != {}
    ensures x in xs
  {
    assert (forall y :: y !in xs) ==> xs == {};
    x :| x in xs;
  }
}
