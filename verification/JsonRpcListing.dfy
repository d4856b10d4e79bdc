/** What a client of the JSON-RPC layer sees when it lists tasks and acts on
    them by GID: the paged lists together show every task once, and a GID that
    was handed out reaches the task it was handed out for. */
module JsonRpcListing {
  import opened Wrappers
  import opened Text
  import opened Json
  import opened Aria2
  import opened JsonRpc

  /** A host whose tasks and speeds stay as they are while they are listed. */
  ghost predicate Idle<H>(be: Backend<H>, h: H, ts: seq<Task>, speeds: map<string, Speed>) {
    && be.step(h, ListTasks) == (h, Tasks(ts))
    && be.step(h, LiveSpeeds) == (h, Speeds(speeds))
  }

  /** The entry a listing shows for a task when no keys are selected. */
  function Shown<H>(be: Backend<H>, speeds: map<string, Speed>, t: Task): Value {
    Obj(be.status(t, SpeedOf(speeds, t)))
  }

  function ShownAll<H>(be: Backend<H>, speeds: map<string, Speed>, ts: seq<Task>): seq<Value> {
    seq(|ts|, i requires 0 <= i < |ts| => Shown(be, speeds, ts[i]))
  }

  lemma ShownConcat<H>(be: Backend<H>, speeds: map<string, Speed>, a: seq<Task>, b: seq<Task>)
    ensures ShownAll(be, speeds, a + b) == ShownAll(be, speeds, a) + ShownAll(be, speeds, b)
  {
  }

  lemma ShownBucket<H>(be: Backend<H>, speeds: map<string, Speed>, ts: seq<Task>, belongs: int -> bool)
    requires ts != []
    ensures ShownAll(be, speeds, Bucket(ts, belongs))
         == if belongs(ts[0].status) then [Shown(be, speeds, ts[0])] + ShownAll(be, speeds, Bucket(ts[1..], belongs))
            else ShownAll(be, speeds, Bucket(ts[1..], belongs))
  {
    var head, rest := [Shown(be, speeds, ts[0])], Bucket(ts[1..], belongs);
    if belongs(ts[0].status) {
      ShownConcat(be, speeds, [ts[0]], rest);
      assert ShownAll(be, speeds, [ts[0]]) == head;
    }
  }

  lemma OneOfThree(v: Value, a: multiset<Value>, b: multiset<Value>, c: multiset<Value>, all: multiset<Value>)
    requires a + b + c == all
    ensures multiset{v} + a + b + c == a + (multiset{v} + b) + c == a + b + (multiset{v} + c) == multiset{v} + all
  {
  }

  lemma {:induction false} ShownPartition<H>(be: Backend<H>, speeds: map<string, Speed>, ts: seq<Task>)
    requires forall t :: t in ts ==> 0 <= t.status <= 5
    ensures multiset(ShownAll(be, speeds, Bucket(ts, IsActive)))
          + multiset(ShownAll(be, speeds, Bucket(ts, IsWaiting)))
          + multiset(ShownAll(be, speeds, Bucket(ts, IsStopped))) == multiset(ShownAll(be, speeds, ts))
  {
    if ts != [] {
      var rest := ts[1..];
      assert ts == [ts[0]] + rest && ShownAll(be, speeds, [ts[0]]) == [Shown(be, speeds, ts[0])];
      ShownConcat(be, speeds, [ts[0]], rest);
      ShownPartition(be, speeds, rest);
      ShownBucket(be, speeds, ts, IsActive);
      ShownBucket(be, speeds, ts, IsWaiting);
      ShownBucket(be, speeds, ts, IsStopped);
      OneOfThree(Shown(be, speeds, ts[0]), multiset(ShownAll(be, speeds, Bucket(rest, IsActive))),
                 multiset(ShownAll(be, speeds, Bucket(rest, IsWaiting))),
                 multiset(ShownAll(be, speeds, Bucket(rest, IsStopped))), multiset(ShownAll(be, speeds, rest)));
      assert 0 <= ts[0].status <= 5;
    }
  }

  function ItemsOfReply(b: Body): seq<Value> {
    if b.Success? && b.value.Arr? then b.value.items else []
  }

  /** One request of a listing: from an offset and the world to the answer. */
  type Asker<!H> = (int, World<H>) -> (World<H>, Body)

  function PageOf<H>(be: Backend<H>, name: string, num: int): Asker<H> {
    (offset, w) => Dispatch(be, name, [Int(offset), Int(num)], w)
  }

  /** The entries of the pages from `offset` on, asked for one after the other. */
  function Pages<H>(ask: Asker<H>, offset: nat, num: int, until: nat, w: World<H>): seq<Value>
    requires num > 0
    decreases until - offset
  {
    if offset >= until then []
    else
      var (w1, b) := ask(offset, w);
      ItemsOfReply(b) + Pages(ask, offset + num, num, until, w1)
  }

  /** The two paged methods. */
  predicate Paged(name: string) { name == "aria2.tellWaiting" || name == "aria2.tellStopped" }

  /** The tasks they are about. */
  function Subject(name: string): int -> bool {
    if name == "aria2.tellWaiting" then IsWaiting else IsStopped
  }

  lemma OnePage<H>(be: Backend<H>, name: string, offset: nat, num: int, w: World<H>,
                   ts: seq<Task>, speeds: map<string, Speed>)
    requires Idle(be, w.host, ts, speeds) && Paged(name)
    requires 0 < num && offset < |Bucket(ts, Subject(name))| <= I64_MAX && offset + num <= I64_MAX
    ensures var (w1, b) := Dispatch(be, name, [Int(offset), Int(num)], w);
            && w1.host == w.host && w1.crashed == w.crashed
            && ItemsOfReply(b) == ShownAll(be, speeds, Paginate(Bucket(ts, Subject(name)), offset, num).items)
  {
  }

  /** A list from some offset on; nothing beyond its end. */
  function From<T>(s: seq<T>, offset: nat): seq<T> {
    if offset < |s| then s[offset..] else []
  }

  lemma FirstPageThenRest<H>(be: Backend<H>, speeds: map<string, Speed>, all: seq<Task>, offset: nat, num: int)
    requires 0 < num && offset < |all| <= I64_MAX && offset + num <= I64_MAX
    ensures ShownAll(be, speeds, From(all, offset))
         == ShownAll(be, speeds, Paginate(all, offset, num).items) + ShownAll(be, speeds, From(all, offset + num))
  {
    var page := Paginate(all, offset, num).items;
    assert From(all, offset) == page + From(all, offset + num);
    ShownConcat(be, speeds, page, From(all, offset + num));
  }

  /** If every single page shows its part of the list, together they show it all. */
  lemma {:induction false} PagesShow<H>(be: Backend<H>, speeds: map<string, Speed>, ask: Asker<H>, offset: nat,
                                       num: int, all: seq<Task>, w: World<H>)
    requires 0 < num && PagesEnd(|all|, offset, num) <= I64_MAX
    requires forall o: nat, v: World<H> | o < |all| && o + num <= I64_MAX && v.host == w.host ::
               ask(o, v).0.host == v.host
               && ItemsOfReply(ask(o, v).1) == ShownAll(be, speeds, Paginate(all, o, num).items)
    ensures Pages(ask, offset, num, |all|, w) == ShownAll(be, speeds, From(all, offset))
    decreases |all| - offset
  {
    if offset < |all| {
      FirstPageThenRest(be, speeds, all, offset, num);
      PagesShow(be, speeds, ask, offset + num, num, all, ask(offset, w).0);
    }
  }

  lemma ListingShows<H>(be: Backend<H>, name: string, num: int, w: World<H>, ts: seq<Task>, speeds: map<string, Speed>)
    requires Idle(be, w.host, ts, speeds) && Paged(name) && 0 < num
    requires PagesEnd(|Bucket(ts, Subject(name))|, 0, num) <= I64_MAX
    ensures var all := Bucket(ts, Subject(name));
            Pages(PageOf(be, name, num), 0, num, |all|, w) == ShownAll(be, speeds, all)
  {
    var all := Bucket(ts, Subject(name));
    var ask := PageOf(be, name, num);
    forall o: nat, v: World<H> | o < |all| && o + num <= I64_MAX && v.host == w.host
      ensures ask(o, v).0.host == v.host
              && ItemsOfReply(ask(o, v).1) == ShownAll(be, speeds, Paginate(all, o, num).items)
    {
      OnePage(be, name, o, num, v, ts, speeds);
    }
    PagesShow(be, speeds, ask, 0, num, all, w);
    assert From(all, 0) == all;
  }

  lemma ActiveShows<H>(be: Backend<H>, w: World<H>, ts: seq<Task>, speeds: map<string, Speed>)
    requires Idle(be, w.host, ts, speeds)
    ensures ItemsOfReply(Dispatch(be, "aria2.tellActive", [], w).1) == ShownAll(be, speeds, Bucket(ts, IsActive))
  {
    assert Dispatch(be, "aria2.tellActive", [], w) == TellActive(be, [], w) && Keys([], 0) == [];
  }

  /** tellActive and all pages of tellWaiting and tellStopped, whatever the page
      size, show every task of a known status exactly once. */
  lemma ListingShowsEveryTaskOnce<H>(be: Backend<H>, num: int, w: World<H>, ts: seq<Task>, speeds: map<string, Speed>)
    requires Idle(be, w.host, ts, speeds) && 0 < num
    requires PagesEnd(|Bucket(ts, IsWaiting)|, 0, num) <= I64_MAX
    requires PagesEnd(|Bucket(ts, IsStopped)|, 0, num) <= I64_MAX
    requires forall t :: t in ts ==> 0 <= t.status <= 5
    ensures multiset(ItemsOfReply(Dispatch(be, "aria2.tellActive", [], w).1))
          + multiset(Pages(PageOf(be, "aria2.tellWaiting", num), 0, num, |Bucket(ts, IsWaiting)|, w))
          + multiset(Pages(PageOf(be, "aria2.tellStopped", num), 0, num, |Bucket(ts, IsStopped)|, w))
         == multiset(ShownAll(be, speeds, ts))
  {
    ActiveShows(be, w, ts, speeds);
    ListingShows(be, "aria2.tellWaiting", num, w, ts, speeds);
    ListingShows(be, "aria2.tellStopped", num, w, ts, speeds);
    ShownPartition(be, speeds, ts);
  }

  // ---- acting by GID ------------------------------------------------------------------

  /** What the single-task methods ask the host to do. */
  function Act(name: string, taskId: string): Option<HostCall> {
    if name in {"aria2.remove", "aria2.forceRemove"} then Some(DeleteTask(taskId))
    else if name in {"aria2.pause", "aria2.forcePause"} then Some(PauseTask(taskId))
    else if name == "aria2.unpause" then Some(ContinueTask(taskId))
    else None
  }

  lemma NothingIsDispatched<H>(be: Backend<H>, name: string, gid: string, w: World<H>, ts: seq<Task>)
    requires be.step(w.host, ListTasks).1 == Tasks(ts) && ResolveGid(ts, gid).Err? && Act(name, "").Some?
    ensures Dispatch(be, name, [Str(gid)], w).0.trace == w.trace + [ListTasks]
    ensures Dispatch(be, name, [Str(gid)], w).1 == Error(ResolveGid(ts, gid).message)
  {
    assert RequireGid([Str(gid)]) == Ok(gid);
  }

  /** Acting with the GID of a task changes that task and no other; if another
      task shares the sixteen leading digits, it changes none and says so. */
  lemma GidActsOnItsTask<H>(be: Backend<H>, name: string, w: World<H>, ts: seq<Task>, i: nat)
    requires be.step(w.host, ListTasks).1 == Tasks(ts) && i < |ts| && Act(name, ts[i].taskId).Some?
    requires Compact(ts[i].taskId) != [] && forall c :: c in Compact(ts[i].taskId) ==> IsHex(c)
    ensures var gid := TaskIdToGid(ts[i].taskId);
            var alone := forall j :: 0 <= j < |ts| && j != i ==> !(gid <= Compact(ts[j].taskId));
            Dispatch(be, name, [Str(gid)], w).0.trace
            == w.trace + if alone then [ListTasks, Act(name, ts[i].taskId).value] else [ListTasks]
  {
    var gid := TaskIdToGid(ts[i].taskId);
    GidRoundTrip(ts, i);
    if ResolveGid(ts, gid) == Ok(ts[i]) {
    } else {
      NotAlone(ts, i);
      NothingIsDispatched(be, name, gid, w, ts);
    }
  }

  lemma NotAlone(ts: seq<Task>, i: nat)
    requires i < |ts| && ResolveGid(ts, TaskIdToGid(ts[i].taskId)) != Ok(ts[i])
    requires Compact(ts[i].taskId) != [] && forall c :: c in Compact(ts[i].taskId) ==> IsHex(c)
    ensures ResolveGid(ts, TaskIdToGid(ts[i].taskId)).Err?
  {
    var gid := TaskIdToGid(ts[i].taskId);
    GidRoundTrip(ts, i);
    CompactIsClean(ts[i].taskId);
    CompactFixed(gid);
    var j :| 0 <= j < |ts| && j != i && gid <= Compact(ts[j].taskId);
    MatchesAt(ts, gid, if i < j then i else j, if i < j then j else i);
  }
}
