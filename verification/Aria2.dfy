/** The pure mapping layer of the aria2-compatible interface: GIDs, status
    buckets, paging and the translation of global options. */
module Aria2 {
  import opened Text
  import opened Json

  datatype Result<+T> = Ok(value: T) | Err(message: string)

  /** A task; what else is known of it matters only to the renderers. */
  datatype Task = Task(taskId: string, status: int, details: Value)

  // ---- GIDs ---------------------------------------------------------------

  function Lower(c: char): char { if 'A' <= c <= 'Z' then (c as int + 32) as char else c }

  /** A task id without its hyphens, in lower case. */
  function Compact(s: string): string {
    if s == [] then [] else (if s[0] == '-' then [] else [Lower(s[0])]) + Compact(s[1..])
  }

  function TaskIdToGid(taskId: string): string {
    var c := Compact(taskId);
    if |c| <= 16 then c else c[..16]
  }

  predicate IsHex(c: char) { IsDigit(c) || 'a' <= c <= 'f' || 'A' <= c <= 'F' }

  predicate Malformed(needle: string) {
    needle == [] || |needle| > 32 || exists k | 0 <= k < |needle| :: !IsHex(needle[k])
  }

  function Matching(tasks: seq<Task>, needle: string): seq<Task> {
    if tasks == [] then []
    else (if needle <= Compact(tasks[0].taskId) then [tasks[0]] else []) + Matching(tasks[1..], needle)
  }

  function ResolveGid(tasks: seq<Task>, gid: string): Result<Task> {
    var needle := Compact(gid);
    var found := Matching(tasks, needle);
    if Malformed(needle) || found == [] then Err("GID " + gid + " is not found")
    else if |found| > 1 then Err("GID " + gid + " is not unique")
    else Ok(found[0])
  }

  lemma {:induction false} MatchesOnce(tasks: seq<Task>, needle: string, i: nat)
    requires i < |tasks| && needle <= Compact(tasks[i].taskId)
    requires forall j :: 0 <= j < |tasks| && j != i ==> !(needle <= Compact(tasks[j].taskId))
    ensures Matching(tasks, needle) == [tasks[i]]
  {
    if i == 0 {
      MatchesNever(tasks[1..], needle);
    } else {
      MatchesOnce(tasks[1..], needle, i - 1);
    }
  }

  lemma {:induction false} MatchesNever(tasks: seq<Task>, needle: string)
    requires forall j :: 0 <= j < |tasks| ==> !(needle <= Compact(tasks[j].taskId))
    ensures Matching(tasks, needle) == []
  {
    if tasks != [] {
      MatchesNever(tasks[1..], needle);
    }
  }

  lemma {:induction false} MatchesAt(tasks: seq<Task>, needle: string, i: nat, j: nat)
    requires i <= j < |tasks| && needle <= Compact(tasks[i].taskId) && needle <= Compact(tasks[j].taskId)
    ensures |Matching(tasks, needle)| >= if i < j then 2 else 1
  {
    if 0 < i {
      MatchesAt(tasks[1..], needle, i - 1, j - 1);
    } else if 0 < j {
      MatchesAt(tasks[1..], needle, j - 1, j - 1);
    }
  }

  lemma {:induction false} CompactFixed(s: string)
    requires forall k :: 0 <= k < |s| ==> s[k] != '-' && Lower(s[k]) == s[k]
    ensures Compact(s) == s
  {
    if s != [] {
      CompactFixed(s[1..]);
    }
  }

  lemma {:induction false} CompactIsClean(s: string)
    ensures forall k :: 0 <= k < |Compact(s)| ==> Compact(s)[k] != '-' && Lower(Compact(s)[k]) == Compact(s)[k]
  {
    if s != [] {
      CompactIsClean(s[1..]);
    }
  }

  /** A GID handed out for a task finds that task again, exactly as long as no
      other task in the list shares its sixteen leading hex digits. */
  lemma GidRoundTrip(tasks: seq<Task>, i: nat)
    requires i < |tasks|
    requires Compact(tasks[i].taskId) != [] && forall c :: c in Compact(tasks[i].taskId) ==> IsHex(c)
    ensures ResolveGid(tasks, TaskIdToGid(tasks[i].taskId)) == Ok(tasks[i]) <==>
              forall j :: 0 <= j < |tasks| && j != i ==> !(TaskIdToGid(tasks[i].taskId) <= Compact(tasks[j].taskId))
  {
    var gid := TaskIdToGid(tasks[i].taskId);
    CompactIsClean(tasks[i].taskId);
    CompactFixed(gid);
    if j :| 0 <= j < |tasks| && j != i && gid <= Compact(tasks[j].taskId) {
      MatchesAt(tasks, gid, if i < j then i else j, if i < j then j else i);
    } else {
      MatchesOnce(tasks, gid, i);
    }
  }

  lemma {:induction false} CompactConcat(a: string, b: string)
    ensures Compact(a + b) == Compact(a) + Compact(b)
  {
    if a == "" {
      assert a + b == b;
    } else {
      assert (a + b)[1..] == a[1..] + b;
      CompactConcat(a[1..], b);
    }
  }

  /** Character by character: hyphens are dropped, capitals count as small
      letters, and everything else stays. */
  lemma CompactSpelling(a: string, c: char, b: string)
    ensures Compact(a + [c] + b)
         == Compact(a) + (if c == '-' then "" else if 'A' <= c <= 'Z' then [c - 'A' + 'a'] else [c]) + Compact(b)
  {
    CompactConcat(a + [c], b);
    CompactConcat(a, [c]);
    assert [c][1..] == "";
  }

  /** The GID of a task is the first sixteen characters of its compact id. */
  lemma GidOfTask(taskId: string)
    ensures TaskIdToGid(taskId) <= Compact(taskId)
    ensures |TaskIdToGid(taskId)| == if |Compact(taskId)| < 16 then |Compact(taskId)| else 16
  {
  }

  /** A GID as it may be written: up to thirty-two hexadecimal digits, in any case
      and with any hyphens. */
  predicate WellWritten(gid: string) {
    1 <= |Compact(gid)| <= 32 && forall c | c in Compact(gid) :: c in "0123456789abcdef"
  }

  lemma WellWrittenExactly(gid: string)
    ensures WellWritten(gid) <==> !Malformed(Compact(gid))
  {
    CompactIsClean(gid);
    var n := Compact(gid);
    forall k | 0 <= k < |n| ensures IsHex(n[k]) <==> n[k] in "0123456789abcdef" {
    }
  }

  /** What any GID parameter names: the one task whose compact id begins with it,
      wherever the GID comes from; none or several are reported as such. */
  lemma ResolveExactly(tasks: seq<Task>, gid: string, i: nat, j: nat)
    requires i <= j < |tasks|
    ensures var needle := Compact(gid);
            && (!WellWritten(gid) ==> ResolveGid(tasks, gid) == Err("GID " + gid + " is not found"))
            && (WellWritten(gid) && (forall k :: 0 <= k < |tasks| ==> !(needle <= Compact(tasks[k].taskId))) ==>
                  ResolveGid(tasks, gid) == Err("GID " + gid + " is not found"))
            && (WellWritten(gid) && i < j
                && needle <= Compact(tasks[i].taskId) && needle <= Compact(tasks[j].taskId) ==>
                  ResolveGid(tasks, gid) == Err("GID " + gid + " is not unique"))
            && (WellWritten(gid) && needle <= Compact(tasks[i].taskId)
                && (forall k :: 0 <= k < |tasks| && k != i ==> !(needle <= Compact(tasks[k].taskId))) ==>
                  ResolveGid(tasks, gid) == Ok(tasks[i]))
  {
    var needle := Compact(gid);
    WellWrittenExactly(gid);
    if forall k :: 0 <= k < |tasks| ==> !(needle <= Compact(tasks[k].taskId)) {
      MatchesNever(tasks, needle);
    }
    if needle <= Compact(tasks[i].taskId) {
      if i < j && needle <= Compact(tasks[j].taskId) {
        MatchesAt(tasks, needle, i, j);
      }
      if forall k :: 0 <= k < |tasks| && k != i ==> !(needle <= Compact(tasks[k].taskId)) {
        MatchesOnce(tasks, needle, i);
      }
    }
  }

  // ---- status buckets ---------------------------------------------------------

  predicate IsActive(status: int) { status == 1 || status == 5 }
  predicate IsWaiting(status: int) { status == 0 || status == 2 }
  predicate IsStopped(status: int) { status == 3 || status == 4 }

  function Bucket(tasks: seq<Task>, belongs: int -> bool): (r: seq<Task>)
    ensures |r| <= |tasks|
  {
    if tasks == [] then []
    else (if belongs(tasks[0].status) then [tasks[0]] else []) + Bucket(tasks[1..], belongs)
  }

  /** The three buckets hold every task of a known status, each in one of them. */
  lemma {:induction false} BucketsPartition(tasks: seq<Task>)
    requires forall t :: t in tasks ==> 0 <= t.status <= 5
    ensures multiset(Bucket(tasks, IsActive)) + multiset(Bucket(tasks, IsWaiting)) + multiset(Bucket(tasks, IsStopped))
         == multiset(tasks)
  {
    if tasks != [] {
      BucketsPartition(tasks[1..]);
      assert tasks == [tasks[0]] + tasks[1..];
    }
  }

  // ---- paging -----------------------------------------------------------------

  datatype Page<+T> = Panic | Items(items: seq<T>)

  function Reversed<T>(s: seq<T>): seq<T> {
    seq(|s|, i requires 0 <= i < |s| => s[|s| - 1 - i])
  }

  /** One page. `offset + num` is computed in 64 bits: when it leaves the range,
      the slice that follows it panics, in checked and in wrapping builds. */
  function Paginate<T>(items: seq<T>, offset: int, num: int): Page<T>
    requires InI64(offset) && InI64(num) && |items| <= I64_MAX
  {
    if num <= 0 then Items([])
    else if offset >= 0 then
      if offset >= |items| then Items([])
      else if offset + num > I64_MAX then Panic
      else Items(items[offset..if offset + num < |items| then offset + num else |items|])
    else
      var end := |items| + offset;
      if end < 0 then Items([])
      else
        var start := if end - (num - 1) > 0 then end - (num - 1) else 0;
        Items(Reversed(items[start..end + 1]))
  }

  /** Exactly when a page cannot be computed. */
  lemma PaginatePanics<T>(items: seq<T>, offset: int, num: int)
    requires InI64(offset) && InI64(num) && |items| <= I64_MAX
    ensures Paginate(items, offset, num).Panic? <==> 0 <= offset < |items| && 0 < num && offset + num > I64_MAX
  {
  }

  /** Paging backwards from the end is paging forwards through the reverse. */
  lemma BackwardIsReversedForward<T>(items: seq<T>, k: nat, num: int)
    requires InI64(k + 1) && InI64(num) && |items| <= I64_MAX && k + num <= I64_MAX
    ensures Paginate(items, -(k + 1), num) == Paginate(Reversed(items), k, num)
  {
    if 0 < num && k < |items| {
      var last := |items| - 1 - k;
      var start := if last - (num - 1) > 0 then last - (num - 1) else 0;
      var stop := if k + num < |items| then k + num else |items|;
      SliceReversed(items, start, last + 1);
      assert Paginate(items, -(k + 1), num) == Items(Reversed(items[start..last + 1]));
      assert Paginate(Reversed(items), k, num) == Items(Reversed(items)[k..stop]);
    }
  }

  lemma SliceReversed<T>(items: seq<T>, i: nat, j: nat)
    requires i <= j <= |items|
    ensures Reversed(items[i..j]) == Reversed(items)[|items| - j..|items| - i]
  {
    var a, b := Reversed(items[i..j]), Reversed(items)[|items| - j..|items| - i];
    forall k | 0 <= k < |a| ensures a[k] == b[k] {
      assert a[k] == items[i..j][j - i - 1 - k] == items[j - 1 - k];
      assert b[k] == Reversed(items)[|items| - j + k] == items[j - 1 - k];
    }
  }

  /** Where the last page of size `num` from `offset` on ends, counted past the
      end of a list of this length. */
  function PagesEnd(length: nat, offset: nat, num: int): (end: nat)
    requires 0 < num
    ensures offset <= end && length <= end
    ensures offset < length ==> offset + num <= end
    decreases length - offset
  {
    if offset >= length then offset else PagesEnd(length, offset + num, num)
  }

  /** All pages of size `num` from `offset` on, until one comes back empty. */
  function AllPages<T>(items: seq<T>, offset: nat, num: int): seq<T>
    requires 0 < num && PagesEnd(|items|, offset, num) <= I64_MAX
    decreases |items| - offset
  {
    if offset >= |items| then []
    else Paginate(items, offset, num).items + AllPages(items, offset + num, num)
  }

  lemma {:induction false} AllPagesCover<T>(items: seq<T>, offset: nat, num: int)
    requires 0 < num && PagesEnd(|items|, offset, num) <= I64_MAX
    ensures AllPages(items, offset, num) == if offset < |items| then items[offset..] else []
    decreases |items| - offset
  {
    if offset < |items| {
      AllPagesCover(items, offset + num, num);
      var end := if offset + num < |items| then offset + num else |items|;
      assert items[offset..] == items[offset..end] + items[end..];
    }
  }

  /** If the last page ends beyond 64 bits, some page cannot be computed. */
  lemma {:induction false} SomePagePanics<T>(items: seq<T>, offset: nat, num: int) returns (at: nat)
    requires 0 < num <= I64_MAX && |items| <= I64_MAX && offset < |items|
    requires PagesEnd(|items|, offset, num) > I64_MAX
    ensures offset <= at < |items| && Paginate(items, at, num) == Panic
    decreases |items| - offset
  {
    if offset + num < |items| {
      at := SomePagePanics(items, offset + num, num);
    } else {
      at := offset;
    }
  }

  /** The active list and the pages of the other two list every task once. */
  lemma PagesListEveryTask(tasks: seq<Task>, num: int)
    requires 0 < num
    requires PagesEnd(|Bucket(tasks, IsWaiting)|, 0, num) <= I64_MAX
    requires PagesEnd(|Bucket(tasks, IsStopped)|, 0, num) <= I64_MAX
    requires forall t :: t in tasks ==> 0 <= t.status <= 5
    ensures multiset(Bucket(tasks, IsActive)) + multiset(AllPages(Bucket(tasks, IsWaiting), 0, num))
          + multiset(AllPages(Bucket(tasks, IsStopped), 0, num)) == multiset(tasks)
  {
    BucketsPartition(tasks);
    var waiting, stopped := Bucket(tasks, IsWaiting), Bucket(tasks, IsStopped);
    AllPagesCover(waiting, 0, num);
    AllPagesCover(stopped, 0, num);
    assert (if 0 < |waiting| then waiting[0..] else []) == waiting;
    assert (if 0 < |stopped| then stopped[0..] else []) == stopped;
  }
}
