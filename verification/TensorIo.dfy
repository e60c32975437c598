/** Nested lists to flat tensors and back. */
module TensorIo {
  import opened Wrappers
  import opened Lists

  type List2<T> = seq<seq<T>>
  type List3<T> = seq<seq<seq<T>>>
  type List4<T> = seq<seq<seq<seq<T>>>>
  type List5<T> = seq<seq<seq<seq<seq<T>>>>>

  datatype ListError = EmptyDimension(dimension: nat) | Ragged

  /** A flat tensor with its dimensions. */
  datatype Flat<T> = Flat(values: seq<T>, dims: seq<nat>)

  // ----- Concatenating and cutting lists of equal length -----

  /** `n` consecutive cuts of one length, from a position on. */
  function Cuts<T>(flat: seq<T>, at: nat, n: nat, len: nat): (r: seq<seq<T>>)
    requires at + Offset(n, len) <= |flat|
    ensures |r| == n
  {
    if n == 0 then [] else Cuts(flat, at, n - 1, len) + [flat[at + Offset(n - 1, len)..at + Offset(n, len)]]
  }

  predicate Uniform<T>(xs: seq<seq<T>>, len: nat) {
    forall i :: 0 <= i < |xs| ==> |xs[i]| == len
  }

  lemma {:induction false} JoinedLength<T>(xs: seq<seq<T>>, len: nat)
    requires Uniform(xs, len)
    ensures |Joined(xs)| == Offset(|xs|, len)
  {
    if xs != [] {
      JoinedLength(xs[..|xs| - 1], len);
    }
  }

  /** Cuts depend only on the bytes they cut. */
  lemma {:induction false} CutsLocal<T>(a: seq<T>, x: nat, b: seq<T>, y: nat, n: nat, len: nat)
    requires x + Offset(n, len) <= |a| && y + Offset(n, len) <= |b|
        && a[x..x + Offset(n, len)] == b[y..y + Offset(n, len)]
    ensures Cuts(a, x, n, len) == Cuts(b, y, n, len)
  {
    if n > 0 {
      var front := Offset(n - 1, len);
      var wholeA, wholeB := a[x..x + front + len], b[y..y + front + len];
      assert a[x..x + front] == wholeA[..front] == wholeB[..front] == b[y..y + front];
      CutsLocal(a, x, b, y, n - 1, len);
      assert a[x + front..x + front + len] == wholeA[front..] == wholeB[front..] == b[y + front..y + front + len];
    }
  }

  lemma {:induction false} CutsOfJoined<T>(xs: seq<seq<T>>, len: nat)
    requires Uniform(xs, len)
    ensures |Joined(xs)| == Offset(|xs|, len) && Cuts(Joined(xs), 0, |xs|, len) == xs
  {
    if xs != [] {
      var front, last := xs[..|xs| - 1], xs[|xs| - 1];
      CutsOfJoined(front, len);
      JoinedLength(xs, len);
      CutsLocal(Joined(xs), 0, Joined(front), 0, |front|, len);
      assert Joined(xs)[Offset(|front|, len)..Offset(|xs|, len)] == last;
      assert xs == front + [last];
    }
  }

  lemma {:induction false} JoinedOfCuts<T>(flat: seq<T>, at: nat, n: nat, len: nat)
    requires at + Offset(n, len) <= |flat|
    ensures Uniform(Cuts(flat, at, n, len), len) && Joined(Cuts(flat, at, n, len)) == flat[at..at + Offset(n, len)]
  {
    if n > 0 {
      JoinedOfCuts(flat, at, n - 1, len);
      var cuts := Cuts(flat, at, n, len);
      assert cuts[..n - 1] == Cuts(flat, at, n - 1, len);
    }
  }

  lemma {:induction false} CutAt<T>(flat: seq<T>, n: nat, len: nat, k: nat)
    requires Offset(n, len) <= |flat| && k < n
    ensures Offset(k, len) + len <= Offset(n, len)
        && Cuts(flat, 0, n, len)[k] == flat[Offset(k, len)..Offset(k, len) + len]
  {
    if k < n - 1 {
      CutAt(flat, n - 1, len, k);
    }
  }

  lemma {:induction false} PiecesUniform<T>(xs: seq<seq<T>>, at: nat, n: nat, count: nat, len: nat)
    requires Uniform(xs, len) && at + Offset(n, count) <= |xs|
    ensures forall i :: 0 <= i < n ==> Uniform(Cuts(xs, at, n, count)[i], len)
  {
    if n > 0 {
      PiecesUniform(xs, at, n - 1, count, len);
    }
  }

  // ----- Four dimensions -----

  predicate Rect2<T>(rows: List2<T>, d0: nat, d1: nat) {
    |rows| == d0 && Uniform(rows, d1)
  }

  predicate Rect3<T>(blocks: List3<T>, d0: nat, d1: nat, d2: nat) {
    |blocks| == d0 && forall i :: 0 <= i < |blocks| ==> Rect2(blocks[i], d1, d2)
  }

  predicate Rect4<T>(values: List4<T>, d0: nat, d1: nat, d2: nat, d3: nat) {
    |values| == d0 && forall i :: 0 <= i < |values| ==> Rect3(values[i], d1, d2, d3)
  }

  predicate Rect5<T>(values: List5<T>, d0: nat, d1: nat, d2: nat, d3: nat, d4: nat) {
    |values| == d0 && forall i :: 0 <= i < |values| ==> Rect4(values[i], d1, d2, d3, d4)
  }

  function Flatten3<T>(blocks: List3<T>): seq<T> {
    Joined(Joined(blocks))
  }

  function Flatten4<T>(values: List4<T>): seq<T> {
    Joined(Joined(Joined(values)))
  }

  function Flatten5<T>(values: List5<T>): seq<T> {
    Joined(Joined(Joined(Joined(values))))
  }

  lemma {:induction false} Joined3<T>(values: List4<T>, d1: nat, d2: nat, d3: nat)
    requires forall i :: 0 <= i < |values| ==> Rect3(values[i], d1, d2, d3)
    ensures Rect3(Joined(values), Offset(|values|, d1), d2, d3)
  {
    if values != [] {
      Joined3(values[..|values| - 1], d1, d2, d3);
    }
  }

  lemma {:induction false} Joined4<T>(values: List5<T>, d1: nat, d2: nat, d3: nat, d4: nat)
    requires forall i :: 0 <= i < |values| ==> Rect4(values[i], d1, d2, d3, d4)
    ensures Rect4(Joined(values), Offset(|values|, d1), d2, d3, d4)
  {
    if values != [] {
      Joined4(values[..|values| - 1], d1, d2, d3, d4);
    }
  }

  lemma {:induction false} Joined2<T>(blocks: List3<T>, d1: nat, d2: nat)
    requires forall i :: 0 <= i < |blocks| ==> Rect2(blocks[i], d1, d2)
    ensures Rect2(Joined(blocks), Offset(|blocks|, d1), d2)
  {
    if blocks != [] {
      Joined2(blocks[..|blocks| - 1], d1, d2);
    }
  }

  function To3<T>(flat: seq<T>, d0: nat, d1: nat, d2: nat): (r: List3<T>)
    requires |flat| == Offset(Offset(d0, d1), d2)
  {
    Cuts(Cuts(flat, 0, Offset(d0, d1), d2), 0, d0, d1)
  }

  function To4<T>(flat: seq<T>, d0: nat, d1: nat, d2: nat, d3: nat): (r: List4<T>)
    requires |flat| == Offset(Offset(Offset(d0, d1), d2), d3)
  {
    Cuts(To3(flat, Offset(d0, d1), d2, d3), 0, d0, d1)
  }

  function To5<T>(flat: seq<T>, d0: nat, d1: nat, d2: nat, d3: nat, d4: nat): (r: List5<T>)
    requires |flat| == Offset(Offset(Offset(Offset(d0, d1), d2), d3), d4)
  {
    Cuts(To4(flat, Offset(d0, d1), d2, d3, d4), 0, d0, d1)
  }

  /** Flattening a rectangular list and cutting it up again gives it back. */
  lemma ListRoundTrip3<T>(blocks: List3<T>, d0: nat, d1: nat, d2: nat)
    requires Rect3(blocks, d0, d1, d2)
    ensures |Flatten3(blocks)| == Offset(Offset(d0, d1), d2) && To3(Flatten3(blocks), d0, d1, d2) == blocks
  {
    Joined2(blocks, d1, d2);
    CutsOfJoined(Joined(blocks), d2);
    CutsOfJoined(blocks, d1);
  }

  lemma ListRoundTrip4<T>(values: List4<T>, d0: nat, d1: nat, d2: nat, d3: nat)
    requires Rect4(values, d0, d1, d2, d3)
    ensures |Flatten4(values)| == Offset(Offset(Offset(d0, d1), d2), d3)
        && To4(Flatten4(values), d0, d1, d2, d3) == values
  {
    Joined3(values, d1, d2, d3);
    ListRoundTrip3(Joined(values), Offset(d0, d1), d2, d3);
    CutsOfJoined(values, d1);
  }

  lemma ListRoundTrip5<T>(values: List5<T>, d0: nat, d1: nat, d2: nat, d3: nat, d4: nat)
    requires Rect5(values, d0, d1, d2, d3, d4)
    ensures |Flatten5(values)| == Offset(Offset(Offset(Offset(d0, d1), d2), d3), d4)
        && To5(Flatten5(values), d0, d1, d2, d3, d4) == values
  {
    Joined4(values, d1, d2, d3, d4);
    ListRoundTrip4(Joined(values), Offset(d0, d1), d2, d3, d4);
    CutsOfJoined(values, d1);
  }

  /** Cutting a flat tensor up gives a rectangular list that flattens back to it. */
  lemma FlatRoundTrip3<T>(flat: seq<T>, d0: nat, d1: nat, d2: nat)
    requires |flat| == Offset(Offset(d0, d1), d2)
    ensures Rect3(To3(flat, d0, d1, d2), d0, d1, d2) && Flatten3(To3(flat, d0, d1, d2)) == flat
  {
    var rows := Cuts(flat, 0, Offset(d0, d1), d2);
    JoinedOfCuts(flat, 0, Offset(d0, d1), d2);
    JoinedOfCuts(rows, 0, d0, d1);
    PiecesUniform(rows, 0, d0, d1, d2);
    assert flat[0..|flat|] == flat && rows[0..|rows|] == rows;
  }

  lemma {:induction false} Pieces3<T>(blocks: List3<T>, at: nat, n: nat, d1: nat, d2: nat, d3: nat)
    requires at + Offset(n, d1) <= |blocks| && forall i :: 0 <= i < |blocks| ==> Rect2(blocks[i], d2, d3)
    ensures forall i :: 0 <= i < n ==> Rect3(Cuts(blocks, at, n, d1)[i], d1, d2, d3)
  {
    if n > 0 {
      Pieces3(blocks, at, n - 1, d1, d2, d3);
    }
  }

  lemma FlatRoundTrip4<T>(flat: seq<T>, d0: nat, d1: nat, d2: nat, d3: nat)
    requires |flat| == Offset(Offset(Offset(d0, d1), d2), d3)
    ensures Rect4(To4(flat, d0, d1, d2, d3), d0, d1, d2, d3) && Flatten4(To4(flat, d0, d1, d2, d3)) == flat
  {
    var blocks := To3(flat, Offset(d0, d1), d2, d3);
    FlatRoundTrip3(flat, Offset(d0, d1), d2, d3);
    JoinedOfCuts(blocks, 0, d0, d1);
    Pieces3(blocks, 0, d0, d1, d2, d3);
    assert blocks[0..|blocks|] == blocks;
  }

  lemma {:induction false} Pieces4<T>(values: List4<T>, at: nat, n: nat, d1: nat, d2: nat, d3: nat, d4: nat)
    requires at + Offset(n, d1) <= |values| && forall i :: 0 <= i < |values| ==> Rect3(values[i], d2, d3, d4)
    ensures forall i :: 0 <= i < n ==> Rect4(Cuts(values, at, n, d1)[i], d1, d2, d3, d4)
  {
    if n > 0 {
      Pieces4(values, at, n - 1, d1, d2, d3, d4);
    }
  }

  lemma FlatRoundTrip5<T>(flat: seq<T>, d0: nat, d1: nat, d2: nat, d3: nat, d4: nat)
    requires |flat| == Offset(Offset(Offset(Offset(d0, d1), d2), d3), d4)
    ensures Rect5(To5(flat, d0, d1, d2, d3, d4), d0, d1, d2, d3, d4) && Flatten5(To5(flat, d0, d1, d2, d3, d4)) == flat
  {
    var values := To4(flat, Offset(d0, d1), d2, d3, d4);
    FlatRoundTrip4(flat, Offset(d0, d1), d2, d3, d4);
    JoinedOfCuts(values, 0, d0, d1);
    Pieces4(values, 0, d0, d1, d2, d3, d4);
    assert values[0..|values|] == values;
  }

  // ----- The conversions -----

  method CheckRows<T>(rows: List2<T>, d0: nat, d1: nat) returns (ok: bool)
    ensures ok <==> Rect2(rows, d0, d1)
  {
    if |rows| != d0 {
      return false;
    }
    for i := 0 to |rows|
      invariant forall k :: 0 <= k < i ==> |rows[k]| == d1
    {
      if |rows[i]| != d1 {
        return false;
      }
    }
    return true;
  }

  method CheckBlocks<T>(blocks: List3<T>, d0: nat, d1: nat, d2: nat) returns (ok: bool)
    ensures ok <==> Rect3(blocks, d0, d1, d2)
  {
    if |blocks| != d0 {
      return false;
    }
    for i := 0 to |blocks|
      invariant forall k :: 0 <= k < i ==> Rect2(blocks[k], d1, d2)
    {
      var fine := CheckRows(blocks[i], d1, d2);
      if !fine {
        return false;
      }
    }
    return true;
  }

  method CheckValues<T>(values: List4<T>, d0: nat, d1: nat, d2: nat, d3: nat) returns (ok: bool)
    ensures ok <==> Rect4(values, d0, d1, d2, d3)
  {
    if |values| != d0 {
      return false;
    }
    for i := 0 to |values|
      invariant forall k :: 0 <= k < i ==> Rect3(values[k], d1, d2, d3)
    {
      var fine := CheckBlocks(values[i], d1, d2, d3);
      if !fine {
        return false;
      }
    }
    return true;
  }

  /** Accepts exactly the rectangular lists without an empty dimension, and keeps every value. */
  method TensorFrom4D<T>(values: List4<T>) returns (r: Result<Flat<T>, ListError>)
    ensures r.Ok? <==> exists d0, d1, d2, d3 :: d0 > 0 && d1 > 0 && d2 > 0 && d3 > 0 && Rect4(values, d0, d1, d2, d3)
    ensures r.Ok? ==> |r.value.dims| == 4 && (forall k :: 0 <= k < 4 ==> r.value.dims[k] > 0)
    ensures r.Ok? ==> var d := r.value.dims;
      |r.value.values| == Offset(Offset(Offset(d[0], d[1]), d[2]), d[3])
          && To4(r.value.values, d[0], d[1], d[2], d[3]) == values
  {
    if |values| == 0 {
      return Err(EmptyDimension(0));
    }
    if |values[0]| == 0 {
      return Err(EmptyDimension(1));
    }
    if |values[0][0]| == 0 {
      assert forall d0, d1, d2, d3 :: Rect4(values, d0, d1, d2, d3) && d1 > 0 ==>
          Rect3(values[0], d1, d2, d3) && Rect2(values[0][0], d2, d3);
      return Err(EmptyDimension(2));
    }
    if |values[0][0][0]| == 0 {
      assert forall d0, d1, d2, d3 :: Rect4(values, d0, d1, d2, d3) && d1 > 0 && d2 > 0 ==>
        Rect3(values[0], d1, d2, d3) && Rect2(values[0][0], d2, d3) && |values[0][0][0]| == d3;
      return Err(EmptyDimension(3));
    }
    var d0, d1, d2, d3 := |values|, |values[0]|, |values[0][0]|, |values[0][0][0]|;
    var fine := CheckValues(values, d0, d1, d2, d3);
    if !fine {
      assert forall a, b, c, d :: Rect4(values, a, b, c, d) ==>
        a == d0 && Rect3(values[0], b, c, d) && b == d1 && Rect2(values[0][0], c, d) && c == d2 && d == d3;
      return Err(Ragged);
    }
    ListRoundTrip4(values, d0, d1, d2, d3);
    return Ok(Flat(Flatten4(values), [d0, d1, d2, d3]));
  }

  method CheckBatches<T>(values: List5<T>, d0: nat, d1: nat, d2: nat, d3: nat, d4: nat) returns (ok: bool)
    ensures ok <==> Rect5(values, d0, d1, d2, d3, d4)
  {
    if |values| != d0 {
      return false;
    }
    for i := 0 to |values|
      invariant forall k :: 0 <= k < i ==> Rect4(values[k], d1, d2, d3, d4)
    {
      var fine := CheckValues(values[i], d1, d2, d3, d4);
      if !fine {
        return false;
      }
    }
    return true;
  }

  method TensorFrom5D<T>(values: List5<T>) returns (r: Result<Flat<T>, ListError>)
    ensures r.Ok? <==> exists d0, d1, d2, d3, d4 ::
        d0 > 0 && d1 > 0 && d2 > 0 && d3 > 0 && d4 > 0 && Rect5(values, d0, d1, d2, d3, d4)
    ensures r.Ok? ==> |r.value.dims| == 5 && (forall k :: 0 <= k < 5 ==> r.value.dims[k] > 0)
    ensures r.Ok? ==> var d := r.value.dims;
      |r.value.values| == Offset(Offset(Offset(Offset(d[0], d[1]), d[2]), d[3]), d[4])
      && To5(r.value.values, d[0], d[1], d[2], d[3], d[4]) == values
  {
    if |values| == 0 {
      return Err(EmptyDimension(0));
    }
    if |values[0]| == 0 {
      return Err(EmptyDimension(1));
    }
    if |values[0][0]| == 0 {
      assert forall a, b, c, d, e :: Rect5(values, a, b, c, d, e) && b > 0 ==>
          Rect4(values[0], b, c, d, e) && Rect3(values[0][0], c, d, e);
      return Err(EmptyDimension(2));
    }
    if |values[0][0][0]| == 0 {
      assert forall a, b, c, d, e :: Rect5(values, a, b, c, d, e) && b > 0 && c > 0 ==>
        Rect4(values[0], b, c, d, e) && Rect3(values[0][0], c, d, e) && Rect2(values[0][0][0], d, e);
      return Err(EmptyDimension(3));
    }
    if |values[0][0][0][0]| == 0 {
      assert forall a, b, c, d, e :: Rect5(values, a, b, c, d, e) && b > 0 && c > 0 && d > 0 ==>
        Rect4(values[0], b, c, d, e) && Rect3(values[0][0], c, d, e) && Rect2(values[0][0][0], d, e)
            && |values[0][0][0][0]| == e;
      return Err(EmptyDimension(4));
    }
    var d0, d1, d2, d3, d4 := |values|, |values[0]|, |values[0][0]|, |values[0][0][0]|, |values[0][0][0][0]|;
    var fine := CheckBatches(values, d0, d1, d2, d3, d4);
    if !fine {
      assert forall a, b, c, d, e :: Rect5(values, a, b, c, d, e) ==>
        a == d0 && Rect4(values[0], b, c, d, e) && b == d1 && Rect3(values[0][0], c, d, e) && c == d2
        && Rect2(values[0][0][0], d, e) && d == d3 && e == d4;
      return Err(Ragged);
    }
    ListRoundTrip5(values, d0, d1, d2, d3, d4);
    return Ok(Flat(Flatten5(values), [d0, d1, d2, d3, d4]));
  }

  // ----- Cutting up with a running offset -----

  /** The rows from `from` on, as many as one block has; the offset ends after them. */
  method CutRows<T>(flat: seq<T>, total: nat, count: nat, len: nat, from: nat, start: nat)
    returns (rows: List2<T>, offset: nat)
    requires |flat| == Offset(total, len) && from + count <= total && start == Offset(from, len)
    ensures rows == Cuts(flat, 0, total, len)[from..from + count] && offset == Offset(from + count, len)
  {
    rows, offset := [], start;
    for k := 0 to count
      invariant rows == Cuts(flat, 0, total, len)[from..from + k] && offset == Offset(from + k, len)
    {
      CutAt(flat, total, len, from + k);
      rows := rows + [flat[offset..offset + len]];
      offset := offset + len;
    }
  }

  /** The blocks of one outer element, cut from all rows in order. */
  method CutBlocks<T>(flat: seq<T>, total: nat, d1: nat, d2: nat, d3: nat, from: nat, start: nat)
    returns (blocks: List3<T>, offset: nat)
    requires |flat| == Offset(Offset(total, d2), d3) && from + d1 <= total && start == Offset(Offset(from, d2), d3)
    ensures blocks == To3(flat, total, d2, d3)[from..from + d1] && offset == Offset(Offset(from + d1, d2), d3)
  {
    ghost var rows := Cuts(flat, 0, Offset(total, d2), d3);
    blocks, offset := [], start;
    for k := 0 to d1
      invariant blocks == To3(flat, total, d2, d3)[from..from + k] && offset == Offset(Offset(from + k, d2), d3)
    {
      OffsetGrows(from + k + 1, total, d2);
      CutAt(rows, total, d2, from + k);
      var block;
      block, offset := CutRows(flat, Offset(total, d2), d2, d3, Offset(from + k, d2), offset);
      blocks := blocks + [block];
    }
  }

  method TensorToVec4<T>(flat: seq<T>, d0: nat, d1: nat, d2: nat, d3: nat) returns (values: List4<T>)
    requires |flat| == Offset(Offset(Offset(d0, d1), d2), d3)
    ensures values == To4(flat, d0, d1, d2, d3)
  {
    ghost var blocks := To3(flat, Offset(d0, d1), d2, d3);
    var offset := 0;
    values := [];
    for i := 0 to d0
      invariant values == To4(flat, d0, d1, d2, d3)[..i] && offset == Offset(Offset(Offset(i, d1), d2), d3)
    {
      OffsetGrows(i + 1, d0, d1);
      CutAt(blocks, d0, d1, i);
      var block;
      block, offset := CutBlocks(flat, Offset(d0, d1), d1, d2, d3, Offset(i, d1), offset);
      values := values + [block];
    }
  }

  method CutValues<T>(flat: seq<T>, total: nat, d1: nat, d2: nat, d3: nat, d4: nat, from: nat, start: nat)
    returns (values: List4<T>, offset: nat)
    requires |flat| == Offset(Offset(Offset(total, d2), d3), d4) && from + d1 <= total
        && start == Offset(Offset(Offset(from, d2), d3), d4)
    ensures values == To4(flat, total, d2, d3, d4)[from..from + d1]
        && offset == Offset(Offset(Offset(from + d1, d2), d3), d4)
  {
    ghost var blocks := To3(flat, Offset(total, d2), d3, d4);
    values, offset := [], start;
    for k := 0 to d1
      invariant values == To4(flat, total, d2, d3, d4)[from..from + k]
          && offset == Offset(Offset(Offset(from + k, d2), d3), d4)
    {
      OffsetGrows(from + k + 1, total, d2);
      CutAt(blocks, total, d2, from + k);
      var block;
      block, offset := CutBlocks(flat, Offset(total, d2), d2, d3, d4, Offset(from + k, d2), offset);
      values := values + [block];
    }
  }

  method TensorToVec5<T>(flat: seq<T>, d0: nat, d1: nat, d2: nat, d3: nat, d4: nat) returns (values: List5<T>)
    requires |flat| == Offset(Offset(Offset(Offset(d0, d1), d2), d3), d4)
    ensures values == To5(flat, d0, d1, d2, d3, d4)
  {
    ghost var all := To4(flat, Offset(d0, d1), d2, d3, d4);
    var offset := 0;
    values := [];
    for i := 0 to d0
      invariant values == To5(flat, d0, d1, d2, d3, d4)[..i]
          && offset == Offset(Offset(Offset(Offset(i, d1), d2), d3), d4)
    {
      OffsetGrows(i + 1, d0, d1);
      CutAt(all, d0, d1, i);
      var part;
      part, offset := CutValues(flat, Offset(d0, d1), d1, d2, d3, d4, Offset(i, d1), offset);
      values := values + [part];
    }
  }
}
