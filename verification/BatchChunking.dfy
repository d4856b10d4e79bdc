/** Splitting a batch of wire items into frames: the greedy splitter of the
    native-messaging client and the reasons it is the right one. */
module BatchChunking {

  const BYTES_LIMIT: nat := 700 * 1024
  const ITEMS_LIMIT: nat := 1000

  /** Total serialised length of a run of items, each of length `size(item)`. */
  function Bytes<T>(items: seq<T>, size: T -> nat): nat {
    if items == [] then 0 else Bytes(items[..|items| - 1], size) + size(items[|items| - 1])
  }

  function Flatten<T>(chunks: seq<seq<T>>): seq<T> {
    if chunks == [] then [] else chunks[0] + Flatten(chunks[1..])
  }

  /** What one frame may hold. An item over the byte limit still travels, alone. */
  ghost predicate Admissible<T>(chunk: seq<T>, size: T -> nat) {
    && 1 <= |chunk| <= ITEMS_LIMIT
    && (|chunk| == 1 || Bytes(chunk, size) <= BYTES_LIMIT)
  }

  /** A split of `items` into contiguous admissible frames. */
  ghost predicate IsSplit<T>(chunks: seq<seq<T>>, items: seq<T>, size: T -> nat) {
    && Flatten(chunks) == items
    && forall k :: 0 <= k < |chunks| ==> Admissible(chunks[k], size)
  }

  /** Length of the longest admissible prefix that extends the first `k` items. */
  ghost function Longest<T>(items: seq<T>, size: T -> nat, k: nat): (n: nat)
    requires 1 <= k <= |items|
    ensures k <= n <= |items|
    decreases |items| - k
  {
    if k < |items| && Admissible(items[..k + 1], size) then Longest(items, size, k + 1) else k
  }

  /** Reference definition: repeatedly cut off the longest admissible prefix. */
  ghost function Greedy<T>(items: seq<T>, size: T -> nat): seq<seq<T>>
    decreases |items|
  {
    if items == [] then []
    else
      var n := Longest(items, size, 1);
      [items[..n]] + Greedy(items[n..], size)
  }

  lemma BytesConcat<T>(a: seq<T>, b: seq<T>, size: T -> nat)
    ensures Bytes(a + b, size) == Bytes(a, size) + Bytes(b, size)
  {
    if b == [] {
      assert a + b == a;
    } else {
      BytesConcat(a, b[..|b| - 1], size);
      assert (a + b)[..|a + b| - 1] == a + b[..|b| - 1];
    }
  }

  lemma FlattenConcat<T>(a: seq<seq<T>>, b: seq<seq<T>>)
    ensures Flatten(a + b) == Flatten(a) + Flatten(b)
  {
    if a == [] {
      assert a + b == b;
    } else {
      FlattenConcat(a[1..], b);
      assert (a + b)[1..] == a[1..] + b;
    }
  }

  /** Any non-empty run inside an admissible frame is itself admissible. */
  lemma AdmissibleSubrange<T>(chunk: seq<T>, i: nat, j: nat, size: T -> nat)
    requires Admissible(chunk, size) && i < j <= |chunk|
    ensures Admissible(chunk[i..j], size)
  {
    BytesConcat(chunk[..i], chunk[i..j], size);
    BytesConcat(chunk[..j], chunk[j..], size);
    assert chunk[..j] == chunk[..i] + chunk[i..j];
    assert chunk == chunk[..j] + chunk[j..];
  }

  /** `Longest` is the maximum: a prefix is admissible exactly up to that length. */
  lemma LongestIsMaximal<T>(items: seq<T>, size: T -> nat, k: nat)
    requires 1 <= k <= |items| && Admissible(items[..k], size)
    ensures Admissible(items[..Longest(items, size, k)], size)
    ensures forall m | k <= m <= |items| && Admissible(items[..m], size) :: m <= Longest(items, size, k)
    decreases |items| - k
  {
    if k < |items| && Admissible(items[..k + 1], size) {
      LongestIsMaximal(items, size, k + 1);
    } else {
      forall m | k < m <= |items| && Admissible(items[..m], size) ensures false {
        assert items[..m][0..k + 1] == items[..k + 1];
        AdmissibleSubrange(items[..m], 0, k + 1, size);
      }
    }
  }

  /** The start point does not matter as long as it is admissible. */
  lemma LongestFrom<T>(items: seq<T>, size: T -> nat, k: nat)
    requires 1 <= k <= |items| && Admissible(items[..k], size)
    ensures Longest(items, size, 1) == Longest(items, size, k)
  {
    LongestIsMaximal(items, size, 1);
    LongestIsMaximal(items, size, k);
  }

  lemma {:induction false} GreedyIsSplit<T>(items: seq<T>, size: T -> nat)
    ensures IsSplit(Greedy(items, size), items, size)
    decreases |items|
  {
    if items != [] {
      var n := Longest(items, size, 1);
      LongestIsMaximal(items, size, 1);
      GreedyIsSplit(items[n..], size);
      assert items == items[..n] + items[n..];
    }
  }

  /** Where the greedy frame that starts at item `j` ends. */
  ghost function FrameEnd<T>(items: seq<T>, j: nat, size: T -> nat): (e: nat)
    requires j < |items|
    ensures j < e <= |items|
  {
    j + Longest(items[j..], size, 1)
  }

  lemma SliceOfSlice<T>(items: seq<T>, j: nat, n: nat, d: nat)
    requires d <= n && j + n <= |items|
    ensures items[j..][..n][d..n] == items[j + d..][..n - d]
  {
  }

  /** A frame that starts inside another greedy frame reaches at least as far. */
  lemma LaterEndsLater<T>(items: seq<T>, j: nat, k: nat, size: T -> nat)
    requires j <= k < |items| && k < FrameEnd(items, j, size)
    ensures FrameEnd(items, k, size) >= FrameEnd(items, j, size)
  {
    var n, d := Longest(items[j..], size, 1), k - j;
    LongestIsMaximal(items[j..], size, 1);
    AdmissibleSubrange(items[j..][..n], d, n, size);
    SliceOfSlice(items, j, n, d);
    LongestIsMaximal(items[k..], size, 1);
  }

  /** Starting later never costs a frame. */
  lemma {:induction false} GreedySuffix<T>(items: seq<T>, j: nat, k: nat, size: T -> nat)
    requires j <= k <= |items|
    ensures |Greedy(items[k..], size)| <= |Greedy(items[j..], size)|
    decreases |items| - j
  {
    if k == |items| {
      assert items[k..] == [];
    } else {
      var e := FrameEnd(items, j, size);
      if e <= k {
        GreedySuffix(items, e, k, size);
      } else {
        LaterEndsLater(items, j, k, size);
        GreedySuffix(items, e, FrameEnd(items, k, size), size);
      }
    }
  }

  /** No contiguous split that obeys the same limits has fewer frames. */
  lemma {:induction false} GreedyIsOptimal<T>(items: seq<T>, size: T -> nat, other: seq<seq<T>>)
    requires IsSplit(other, items, size)
    ensures |Greedy(items, size)| <= |other|
    decreases |other|
  {
    if items != [] {
      var head := other[0];
      assert items == items[0..] && items[..|head|] == head;
      assert items[|head|..] == Flatten(other[1..]);
      LongestIsMaximal(items, size, 1);
      GreedySuffix(items, |head|, FrameEnd(items, 0, size), size);
      GreedyIsOptimal(items[|head|..], size, other[1..]);
    }
  }

  /** While the open frame `current` stays admissible it is a prefix of the
      longest frame, and when the next item does not fit it is that frame. */
  lemma OpenFrame<T>(current: seq<T>, rest: seq<T>, size: T -> nat)
    requires current != [] && Admissible(current, size)
    ensures rest == [] || !Admissible(current + [rest[0]], size) ==>
              Greedy(current + rest, size) == [current] + Greedy(rest, size)
  {
    var items := current + rest;
    assert items[..|current|] == current;
    LongestFrom(items, size, |current|);
    if rest == [] || !Admissible(current + [rest[0]], size) {
      if rest != [] {
        assert items[..|current| + 1] == current + [rest[0]];
      }
      assert Longest(items, size, 1) == |current|;
      assert items[|current|..] == rest;
    }
  }

  /** The limits in plain numbers: 1 to 1000 items, and 716800 bytes unless the
      frame is a single item. */
  ghost predicate FitsFrame<T>(chunk: seq<T>, size: T -> nat) {
    1 <= |chunk| <= 1000 && (|chunk| == 1 || Bytes(chunk, size) <= 716800)
  }

  /** Greedy splitting keeps every item in order within these limits, and no
      other contiguous split within them has fewer frames. */
  lemma GreedyIsBest<T>(items: seq<T>, size: T -> nat)
    ensures var chunks := Greedy(items, size);
            && Flatten(chunks) == items
            && (forall k :: 0 <= k < |chunks| ==> FitsFrame(chunks[k], size))
            && forall other: seq<seq<T>> ::
                 Flatten(other) == items && (forall k :: 0 <= k < |other| ==> FitsFrame(other[k], size)) ==>
                   |chunks| <= |other|
  {
    GreedyIsSplit(items, size);
    forall other: seq<seq<T>> |
      Flatten(other) == items && (forall k :: 0 <= k < |other| ==> FitsFrame(other[k], size))
      ensures |Greedy(items, size)| <= |other|
    {
      assert forall k :: 0 <= k < |other| ==> FitsFrame(other[k], size) && Admissible(other[k], size);
      GreedyIsOptimal(items, size, other);
    }
  }

  /** What the loop keeps: the closed frames, the open one and the unread rest
      still split exactly as greedy would split the whole. */
  ghost predicate Progress<T>(chunks: seq<seq<T>>, current: seq<T>, bytes: nat, rest: seq<T>,
                              items: seq<T>, size: T -> nat) {
    && bytes == Bytes(current, size)
    && (current != [] ==> Admissible(current, size))
    && chunks + Greedy(current + rest, size) == Greedy(items, size)
  }

  lemma ProgressClose<T>(chunks: seq<seq<T>>, current: seq<T>, bytes: nat, rest: seq<T>,
                         items: seq<T>, size: T -> nat)
    requires Progress(chunks, current, bytes, rest, items, size)
    requires current != []
    requires rest != [] ==> bytes + size(rest[0]) > BYTES_LIMIT || |current| >= ITEMS_LIMIT
    ensures Progress(chunks + [current], [], 0, rest, items, size)
  {
    if rest != [] {
      assert (current + [rest[0]])[..|current|] == current;
    }
    OpenFrame(current, rest, size);
    assert [] + rest == rest;
    assert chunks + [current] + Greedy(rest, size) == chunks + ([current] + Greedy(rest, size));
  }

  lemma ProgressPush<T>(chunks: seq<seq<T>>, current: seq<T>, bytes: nat, rest: seq<T>,
                        items: seq<T>, size: T -> nat)
    requires Progress(chunks, current, bytes, rest, items, size)
    requires rest != []
    requires current != [] ==> bytes + size(rest[0]) <= BYTES_LIMIT && |current| < ITEMS_LIMIT
    ensures Progress(chunks, current + [rest[0]], bytes + size(rest[0]), rest[1..], items, size)
  {
    assert (current + [rest[0]])[..|current|] == current;
    assert (current + [rest[0]]) + rest[1..] == current + rest;
  }

  /** The splitter as it runs: one pass, one open frame, one running total. By
      `GreedyIsBest` its result is a split and no split has fewer frames. */
  method ChunkBatchWireItems<T>(wireItems: seq<T>, size: T -> nat) returns (chunks: seq<seq<T>>)
    ensures chunks == Greedy(wireItems, size)
  {
    chunks := [];
    var current: seq<T> := [];
    var currentBytes: nat := 0;
    assert [] + wireItems == wireItems;
    for i := 0 to |wireItems|
      invariant Progress(chunks, current, currentBytes, wireItems[i..], wireItems, size)
    {
      var itemBytes := size(wireItems[i]);
      if |current| > 0 && (currentBytes + itemBytes > BYTES_LIMIT || |current| >= ITEMS_LIMIT) {
        ProgressClose(chunks, current, currentBytes, wireItems[i..], wireItems, size);
        chunks := chunks + [current];
        current := [];
        currentBytes := 0;
      }
      ProgressPush(chunks, current, currentBytes, wireItems[i..], wireItems, size);
      current := current + [wireItems[i]];
      currentBytes := currentBytes + itemBytes;
    }
    if |current| > 0 {
      ProgressClose(chunks, current, currentBytes, [], wireItems, size);
      chunks := chunks + [current];
    }
  }
}
