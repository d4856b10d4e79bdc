/** The stable sort of the language, as insertion of one element after another. */
module Sorting {

  /** Puts an element behind the last one that may stand before it. */
  function Insert<T>(sorted: seq<T>, x: T, le: (T, T) -> bool): seq<T> {
    if sorted == [] || le(sorted[|sorted| - 1], x) then sorted + [x]
    else Insert(sorted[..|sorted| - 1], x, le) + [sorted[|sorted| - 1]]
  }

  function StableSort<T>(s: seq<T>, le: (T, T) -> bool): seq<T> {
    if s == [] then [] else Insert(StableSort(s[..|s| - 1], le), s[|s| - 1], le)
  }

  ghost predicate Ascending<T>(s: seq<T>, le: (T, T) -> bool) {
    forall i, j :: 0 <= i < j < |s| ==> le(s[i], s[j])
  }

  /** Any two elements are in order one way or the other, and order carries on. */
  ghost predicate Preorder<T(!new)>(le: (T, T) -> bool) {
    && (forall x, y :: le(x, y) || le(y, x))
    && (forall x, y, z :: le(x, y) && le(y, z) ==> le(x, z))
  }

  lemma {:induction false} InsertKeeps<T>(sorted: seq<T>, x: T, le: (T, T) -> bool)
    ensures multiset(Insert(sorted, x, le)) == multiset(sorted) + multiset{x}
  {
    if sorted != [] && !le(sorted[|sorted| - 1], x) {
      InsertKeeps(sorted[..|sorted| - 1], x, le);
      assert sorted == sorted[..|sorted| - 1] + [sorted[|sorted| - 1]];
    }
  }

  lemma {:induction false} InsertSorts<T(!new)>(sorted: seq<T>, x: T, le: (T, T) -> bool)
    requires Preorder(le) && Ascending(sorted, le)
    ensures Ascending(Insert(sorted, x, le), le)
  {
    if sorted != [] {
      var front, last := sorted[..|sorted| - 1], sorted[|sorted| - 1];
      if le(last, x) {
        forall i | 0 <= i < |sorted| ensures le(sorted[i], x) {
          assert i < |front| ==> le(sorted[i], last);
        }
      } else {
        var s := Insert(front, x, le);
        InsertSorts(front, x, le);
        InsertKeeps(front, x, le);
        forall i | 0 <= i < |s| ensures le(s[i], last) {
          assert s[i] in multiset(s);
          if s[i] != x {
            var j :| 0 <= j < |front| && front[j] == s[i];
            assert le(sorted[j], last);
          }
        }
      }
    }
  }

  /** The result is in order and has the same elements. */
  lemma {:induction false} StableSortSorts<T(!new)>(s: seq<T>, le: (T, T) -> bool)
    requires Preorder(le)
    ensures Ascending(StableSort(s, le), le) && multiset(StableSort(s, le)) == multiset(s)
  {
    if s != [] {
      var n := |s| - 1;
      StableSortSorts(s[..n], le);
      InsertSorts(StableSort(s[..n], le), s[n], le);
      InsertKeeps(StableSort(s[..n], le), s[n], le);
      assert s == s[..n] + [s[n]];
    }
  }
}
