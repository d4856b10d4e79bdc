/** What the JSON-RPC layer guarantees, for every host and every request body:
    no host call without that call's own token, and a body of many calls is its
    calls run one by one. */
module JsonRpcResults {
  import opened Wrappers
  import opened Json
  import opened Aria2
  import opened JsonRpc

  // ---- a body as a list of leaf calls ------------------------------------------

  /** A call that reaches a method: by itself, or as an entry of a multicall. */
  datatype Leaf = Leaf(name: string, params: Value, nested: bool)

  /** A leaf runs when it needs no token or carries the right one; by itself it
      must also have an array for its parameters. */
  predicate Permitted(g: Guard, l: Leaf) {
    Exempt(l.name) || (TokenOk(g, l.params) && (l.params.Arr? || l.nested))
  }

  function NestedLeaves(calls: seq<Value>): seq<Leaf>
    decreases |calls|
  {
    if calls == [] then []
    else
      var c := calls[|calls| - 1];
      var name := TextField(c, "methodName");
      NestedLeaves(calls[..|calls| - 1])
      + (if name == "" || name == MULTICALL then [] else [Leaf(name, ParamsOf(c), true)])
  }

  function CallLeaves(call: Value): seq<Leaf> {
    var name := TextField(call, "method");
    var arr := StripToken(ItemsOf(ParamsOf(call)));
    if name != MULTICALL then [Leaf(name, ParamsOf(call), false)]
    else if arr == [] || !arr[0].Arr? then []
    else NestedLeaves(arr[0].items)
  }

  function ArrayLeaves(calls: seq<Value>): seq<Leaf>
    decreases |calls|
  {
    if calls == [] then [] else ArrayLeaves(calls[..|calls| - 1]) + CallLeaves(calls[|calls| - 1])
  }

  function BodyLeaves(body: Option<Value>): seq<Leaf> {
    if body.Some? && body.value.Arr? then ArrayLeaves(body.value.items)
    else if body.Some? && body.value.Obj? then CallLeaves(body.value)
    else []
  }

  function RunLeaf<H>(be: Backend<H>, g: Guard, l: Leaf, w: World<H>): (v: World<H>)
    ensures w.trace <= v.trace
  {
    if w.crashed || !Permitted(g, l) then w
    else Dispatch(be, l.name, StripToken(ItemsOf(l.params)), w).0
  }

  function RunLeaves<H>(be: Backend<H>, g: Guard, ls: seq<Leaf>, w: World<H>): World<H>
    decreases |ls|
  {
    if ls == [] then w else RunLeaf(be, g, ls[|ls| - 1], RunLeaves(be, g, ls[..|ls| - 1], w))
  }

  lemma {:induction false} RunLeavesConcat<H>(be: Backend<H>, g: Guard, a: seq<Leaf>, b: seq<Leaf>, w: World<H>)
    ensures RunLeaves(be, g, a + b, w) == RunLeaves(be, g, b, RunLeaves(be, g, a, w))
    decreases |b|
  {
    if b == [] {
      assert a + b == a;
    } else {
      RunLeavesConcat(be, g, a, b[..|b| - 1], w);
      assert (a + b)[..|a + b| - 1] == a + b[..|b| - 1];
    }
  }

  lemma {:induction false} RunOne<H>(be: Backend<H>, g: Guard, l: Leaf, w: World<H>)
    ensures RunLeaves(be, g, [l], w) == RunLeaf(be, g, l, w)
  {
    assert [l][..0] == [];
  }

  lemma {:induction false} SubsRunTheirLeaves<H>(be: Backend<H>, g: Guard, calls: seq<Value>, w: World<H>)
    ensures RunSubs(be, g, calls, w).0 == RunLeaves(be, g, NestedLeaves(calls), w)
    ensures |RunSubs(be, g, calls, w).1| == |calls|
    decreases |calls|
  {
    if calls != [] {
      var c := calls[|calls| - 1];
      var front := calls[..|calls| - 1];
      SubsRunTheirLeaves(be, g, front, w);
      var name := TextField(c, "methodName");
      if name == "" || name == MULTICALL {
        assert NestedLeaves(calls) == NestedLeaves(front);
      } else {
        var l := Leaf(name, ParamsOf(c), true);
        RunLeavesConcat(be, g, NestedLeaves(front), [l], w);
        RunOne(be, g, l, RunLeaves(be, g, NestedLeaves(front), w));
      }
    }
  }

  lemma ExemptIsHostless<H>(be: Backend<H>, name: string, arr: seq<Value>, w: World<H>)
    requires Exempt(name)
    ensures Dispatch(be, name, arr, w) == (w, Hostless(be, name))
  {
  }

  lemma CallRunsItsLeaves<H>(be: Backend<H>, g: Guard, call: Value, w: World<H>)
    ensures RunCall(be, g, call, w).0 == RunLeaves(be, g, CallLeaves(call), w)
  {
    var name := TextField(call, "method");
    var arr := StripToken(ItemsOf(ParamsOf(call)));
    if name == MULTICALL {
      if arr != [] && arr[0].Arr? {
        SubsRunTheirLeaves(be, g, arr[0].items, w);
        CrashedLeaves(be, g, NestedLeaves(arr[0].items), w);
      }
    } else {
      RunOne(be, g, Leaf(name, ParamsOf(call), false), w);
      if Exempt(name) { ExemptIsHostless(be, name, arr, w); }
    }
  }

  /** After a panic nothing further runs. */
  lemma {:induction false} CrashedLeaves<H>(be: Backend<H>, g: Guard, ls: seq<Leaf>, w: World<H>)
    ensures w.crashed ==> RunLeaves(be, g, ls, w) == w
    decreases |ls|
  {
    if ls != [] {
      CrashedLeaves(be, g, ls[..|ls| - 1], w);
    }
  }

  lemma {:induction false} CallsRunTheirLeaves<H>(be: Backend<H>, g: Guard, calls: seq<Value>, w: World<H>)
    ensures RunCalls(be, g, calls, w).0 == RunLeaves(be, g, ArrayLeaves(calls), w)
    decreases |calls|
  {
    if calls != [] {
      var front := calls[..|calls| - 1];
      CallsRunTheirLeaves(be, g, front, w);
      CallRunsItsLeaves(be, g, calls[|calls| - 1], RunCalls(be, g, front, w).0);
      RunLeavesConcat(be, g, ArrayLeaves(front), CallLeaves(calls[|calls| - 1]), w);
    }
  }

  /** Whatever the body, the host ends up where running the body's permitted leaf
      calls one after the other takes it. */
  lemma BodyRunsItsLeaves<H>(be: Backend<H>, g: Guard, body: Option<Value>, w: World<H>)
    ensures Handle(be, g, body, w).0 == RunLeaves(be, g, BodyLeaves(body), w)
  {
    match body
    case None =>
    case Some(Arr(calls)) => CallsRunTheirLeaves(be, g, calls, w);
    case Some(Obj(_)) => CallRunsItsLeaves(be, g, body.value, w);
    case Some(_) =>
  }

  // ---- who made which host call --------------------------------------------------

  /** The calls of a trace grouped by the leaf that made them. */
  function Joined(groups: seq<seq<HostCall>>): seq<HostCall> {
    if groups == [] then [] else Joined(groups[..|groups| - 1]) + groups[|groups| - 1]
  }

  lemma JoinedMore(trace: seq<HostCall>, groups: seq<seq<HostCall>>, mine: seq<HostCall>)
    ensures trace + Joined(groups + [mine]) == trace + Joined(groups) + mine
  {
    assert (groups + [mine])[..|groups|] == groups;
  }

  /** The host calls one leaf makes. */
  function GroupOf<H>(be: Backend<H>, g: Guard, l: Leaf, w: World<H>): seq<HostCall> {
    RunLeaf(be, g, l, w).trace[|w.trace|..]
  }

  lemma GroupIsAuthorised<H>(be: Backend<H>, g: Guard, l: Leaf, w: World<H>)
    ensures GroupOf(be, g, l, w) != [] ==> TokenOk(g, l.params)
    ensures RunLeaf(be, g, l, w).trace == w.trace + GroupOf(be, g, l, w)
  {
    if Exempt(l.name) { ExemptIsHostless(be, l.name, StripToken(ItemsOf(l.params)), w); }
  }

  function Groups<H>(be: Backend<H>, g: Guard, ls: seq<Leaf>, w: World<H>): (r: seq<seq<HostCall>>)
    ensures |r| == |ls|
  {
    if ls == [] then []
    else
      var front := ls[..|ls| - 1];
      Groups(be, g, front, w) + [GroupOf(be, g, ls[|ls| - 1], RunLeaves(be, g, front, w))]
  }

  /** The trace is the leaves' groups, in order. */
  lemma {:induction false} TraceIsTheGroups<H>(be: Backend<H>, g: Guard, ls: seq<Leaf>, w: World<H>)
    ensures RunLeaves(be, g, ls, w).trace == w.trace + Joined(Groups(be, g, ls, w))
    decreases |ls|
  {
    if ls != [] {
      var front, last := ls[..|ls| - 1], ls[|ls| - 1];
      var before, mine := Groups(be, g, front, w), GroupOf(be, g, last, RunLeaves(be, g, front, w));
      TraceIsTheGroups(be, g, front, w);
      GroupIsAuthorised(be, g, last, RunLeaves(be, g, front, w));
      JoinedMore(w.trace, before, mine);
    }
  }

  lemma GroupsMore<H>(be: Backend<H>, g: Guard, ls: seq<Leaf>, w: World<H>)
    requires ls != []
    ensures var front := ls[..|ls| - 1];
            Groups(be, g, ls, w) == Groups(be, g, front, w) + [GroupOf(be, g, ls[|ls| - 1], RunLeaves(be, g, front, w))]
  {
  }

  /** Every host call is made by a leaf whose own parameters pass the token
      check: the group of any other leaf is empty. */
  lemma {:induction false} HostCallsAreAuthorised<H>(be: Backend<H>, g: Guard, ls: seq<Leaf>, w: World<H>, k: nat)
    requires k < |ls|
    ensures Groups(be, g, ls, w)[k] != [] ==> TokenOk(g, ls[k].params)
    decreases |ls|
  {
    var front, last := ls[..|ls| - 1], ls[|ls| - 1];
    GroupsMore(be, g, ls, w);
    if k < |front| {
      HostCallsAreAuthorised(be, g, front, w, k);
      assert front[k] == ls[k];
    } else {
      GroupIsAuthorised(be, g, last, RunLeaves(be, g, front, w));
    }
  }

  /** So for every body: what the host is asked is what the body's leaves ask,
      and only leaves with a valid token of their own ask anything. */
  lemma BodyIsAuthorised<H>(be: Backend<H>, g: Guard, body: Option<Value>, w: World<H>)
    ensures var ls := BodyLeaves(body);
            var groups := Groups(be, g, ls, w);
            && Handle(be, g, body, w).0.trace == w.trace + Joined(groups)
            && forall k :: 0 <= k < |ls| && groups[k] != [] ==> TokenOk(g, ls[k].params)
  {
    var ls := BodyLeaves(body);
    BodyRunsItsLeaves(be, g, body, w);
    TraceIsTheGroups(be, g, ls, w);
    forall k | 0 <= k < |ls| ensures Groups(be, g, ls, w)[k] != [] ==> TokenOk(g, ls[k].params) {
      HostCallsAreAuthorised(be, g, ls, w, k);
    }
  }

  // ---- many calls in one body, and the same calls one by one -----------------------

  lemma {:induction false} OneReplyEach<H>(be: Backend<H>, g: Guard, calls: seq<Value>, w: World<H>)
    ensures |RunCalls(be, g, calls, w).1| == |calls|
    decreases |calls|
  {
    if calls != [] {
      OneReplyEach(be, g, calls[..|calls| - 1], w);
    }
  }

  /** Reply `k` of an array is the reply its call gets alone, run after the ones
      before it. */
  lemma {:induction false} ArrayReplies<H>(be: Backend<H>, g: Guard, calls: seq<Value>, w: World<H>, k: nat)
    requires k < |calls|
    ensures |RunCalls(be, g, calls, w).1| == |calls|
    ensures RunCalls(be, g, calls, w).1[k] == RunCall(be, g, calls[k], RunCalls(be, g, calls[..k], w).0).1
    decreases |calls|
  {
    var front, last := calls[..|calls| - 1], calls[|calls| - 1];
    assert calls == front + [last];
    OneReplyEach(be, g, front, w);
    if k < |front| {
      ArrayReplies(be, g, front, w, k);
      assert front[..k] == calls[..k];
    }
  }

  /** The stand-alone call that a multicall entry abbreviates. */
  function AsCall(c: Value): Value {
    Obj(map["method" := Str(TextField(c, "methodName")), "params" := ParamsOf(c)])
  }

  predicate OrdinaryEntry(c: Value) {
    TextField(c, "methodName") != "" && TextField(c, "methodName") != MULTICALL
  }

  lemma EntryOfReply(body: Body)
    ensures Entry(RpcReply(Null, body)) == match body case Success(v) => Arr([v]) case Error(m) => ErrorObject(1, m)
  {
    var r := RpcReply(Null, body);
    assert Has(r, "result") <==> body.Success?;
  }

  /** An entry with array parameters does to the host, and reports, what the same
      call does alone. */
  lemma EntryIsItsCall<H>(be: Backend<H>, g: Guard, c: Value, w: World<H>)
    requires OrdinaryEntry(c) && ParamsOf(c).Arr? && !w.crashed
    ensures RunSub(be, g, c, w) == (RunCall(be, g, AsCall(c), w).0, Entry(RunCall(be, g, AsCall(c), w).1))
  {
    var call := AsCall(c);
    var name := TextField(c, "methodName");
    assert TextField(call, "method") == name && ParamsOf(call) == ParamsOf(c) && !Has(call, "id");
    if Exempt(name) {
      ExemptIsHostless(be, name, StripToken(ItemsOf(ParamsOf(c))), w);
    } else if !TokenOk(g, ParamsOf(c)) {
      EntryOfReply(Error("Unauthorized"));
    }
  }

  function AsCalls(calls: seq<Value>): seq<Value> {
    seq(|calls|, i requires 0 <= i < |calls| => AsCall(calls[i]))
  }

  function Entries(replies: seq<Value>): seq<Value> {
    seq(|replies|, i requires 0 <= i < |replies| => Entry(replies[i]))
  }

  lemma CrashStays<H>(be: Backend<H>, g: Guard, c: Value, w: World<H>)
    ensures w.crashed ==> RunSub(be, g, c, w).0 == w
  {
  }

  lemma AsCallsMore(calls: seq<Value>)
    requires calls != []
    ensures AsCalls(calls) == AsCalls(calls[..|calls| - 1]) + [AsCall(calls[|calls| - 1])]
  {
  }

  lemma EntriesMore(replies: seq<Value>, v: Value)
    ensures Entries(replies + [v]) == Entries(replies) + [Entry(v)]
  {
  }

  /** Panic or not, an entry with array parameters does to the host what the
      same call does alone. */
  lemma EntryMovesTheHost<H>(be: Backend<H>, g: Guard, c: Value, w: World<H>)
    requires OrdinaryEntry(c) && ParamsOf(c).Arr?
    ensures RunSub(be, g, c, w).0 == RunCall(be, g, AsCall(c), w).0
  {
    if w.crashed {
      CrashStays(be, g, c, w);
    } else {
      EntryIsItsCall(be, g, c, w);
    }
  }

  /** A multicall leaves the host as the array of its entries would. */
  lemma {:induction false} MulticallMovesTheHost<H>(be: Backend<H>, g: Guard, calls: seq<Value>, w: World<H>)
    requires forall k :: 0 <= k < |calls| ==> OrdinaryEntry(calls[k]) && ParamsOf(calls[k]).Arr?
    ensures RunSubs(be, g, calls, w).0 == RunCalls(be, g, AsCalls(calls), w).0
    decreases |calls|
  {
    if calls != [] {
      var front, last := calls[..|calls| - 1], calls[|calls| - 1];
      MulticallMovesTheHost(be, g, front, w);
      EntryMovesTheHost(be, g, last, RunSubs(be, g, front, w).0);
      AsCallsMore(calls);
    }
  }

  /** A multicall leaves the host as the array of its entries would, and, unless
      one of them panics and there is no reply at all, it reports what that would. */
  lemma {:induction false} MulticallIsItsCalls<H>(be: Backend<H>, g: Guard, calls: seq<Value>, w: World<H>)
    requires forall k :: 0 <= k < |calls| ==> OrdinaryEntry(calls[k]) && ParamsOf(calls[k]).Arr?
    ensures RunSubs(be, g, calls, w).0 == RunCalls(be, g, AsCalls(calls), w).0
    ensures !RunSubs(be, g, calls, w).0.crashed ==>
              RunSubs(be, g, calls, w).1 == Entries(RunCalls(be, g, AsCalls(calls), w).1)
    decreases |calls|
  {
    MulticallMovesTheHost(be, g, calls, w);
    if calls != [] && !RunSubs(be, g, calls, w).0.crashed {
      var front, last := calls[..|calls| - 1], calls[|calls| - 1];
      var w1 := RunSubs(be, g, front, w).0;
      CrashStays(be, g, last, w1);
      MulticallIsItsCalls(be, g, front, w);
      EntryIsItsCall(be, g, last, w1);
      AsCallsMore(calls);
      EntriesMore(RunCalls(be, g, AsCalls(front), w).1, RunCall(be, g, AsCall(last), w1).1);
    }
  }

  /** The rule needs its array parameters: alone, other parameters are an error;
      as an entry they count as none. */
  lemma EntryIgnoresOddParams<H>(be: Backend<H>, g: Guard, c: Value, w: World<H>)
    requires OrdinaryEntry(c) && !ParamsOf(c).Arr? && !Exempt(TextField(c, "methodName")) && !w.crashed
    requires TokenOk(g, ParamsOf(c))
    ensures RunCall(be, g, AsCall(c), w) == (w, RpcError(Null, 1, "params must be an array"))
    ensures RunSub(be, g, c, w).0 == Dispatch(be, TextField(c, "methodName"), [], w).0
  {
    var call := AsCall(c);
    assert TextField(call, "method") == TextField(c, "methodName") && ParamsOf(call) == ParamsOf(c) && !Has(call, "id");
  }

  // ---- purging -----------------------------------------------------------------------

  /** The deletions a purge asks for, by task. */
  function Deletions(ts: seq<Task>): seq<HostCall> {
    if ts == [] then []
    else Deletions(ts[..|ts| - 1])
         + (if IsStopped(ts[|ts| - 1].status) then [DeleteTask(ts[|ts| - 1].taskId)] else [])
  }

  lemma {:induction false} DeleteStoppedTrace<H>(be: Backend<H>, ts: seq<Task>, w: World<H>)
    ensures DeleteStopped(be, ts, w).trace == w.trace + Deletions(ts)
    ensures DeleteStopped(be, ts, w).crashed == w.crashed
  {
    if ts != [] {
      DeleteStoppedTrace(be, ts[..|ts| - 1], w);
    }
  }

  lemma {:induction false} DeletionsExactly(ts: seq<Task>)
    ensures forall c :: c in Deletions(ts) <==> exists t :: t in ts && t.status in {3, 4} && c == DeleteTask(t.taskId)
  {
    if ts != [] {
      DeletionsExactly(ts[..|ts| - 1]);
      assert ts == ts[..|ts| - 1] + [ts[|ts| - 1]];
    }
  }

  /** A purge asks for the list once and then for the deletion of exactly the
      stopped tasks, in list order, and answers OK whatever the host says. */
  lemma PurgeDeletesTheStopped<H>(be: Backend<H>, w: World<H>, ts: seq<Task>)
    requires be.step(w.host, ListTasks).1 == Tasks(ts)
    ensures Purge(be, w).1 == OK
    ensures Purge(be, w).0.trace == w.trace + [ListTasks] + Deletions(ts)
    ensures forall c :: c in Deletions(ts) <==> exists t :: t in ts && t.status in {3, 4} && c == DeleteTask(t.taskId)
  {
    DeleteStoppedTrace(be, ts, Ask(be, w, ListTasks).0);
    DeletionsExactly(ts);
  }

  // ---- the layer as it runs --------------------------------------------------------------

  /** The handlers as loops over one live host. */
  class RpcServer<!H> {
    const be: Backend<H>
    const guard: Guard
    var world: World<H>

    constructor (be: Backend<H>, guard: Guard, host: H)
      ensures world == World(host, [], false) && this.be == be && this.guard == guard
    {
      this.be, this.guard := be, guard;
      world := World(host, [], false);
    }

    method SystemMulticall(calls: seq<Value>) returns (results: seq<Value>)
      modifies this`world
      ensures (world, results) == RunSubs(be, guard, calls, old(world))
    {
      results := [];
      assert calls[..0] == [];
      for i := 0 to |calls|
        invariant (world, results) == RunSubs(be, guard, calls[..i], old(world))
      {
        assert calls[..i + 1][..i] == calls[..i];
        var w, v := RunSub(be, guard, calls[i], world).0, RunSub(be, guard, calls[i], world).1;
        world := w;
        results := results + [v];
      }
      assert calls[..|calls|] == calls;
    }

    method PurgeDownloadResult() returns (body: Body)
      modifies this`world
      ensures (world, body) == Purge(be, old(world))
    {
      var asked := Ask(be, world, ListTasks);
      world := asked.0;
      if TasksOf(asked.1).Ok? {
        var ts := TasksOf(asked.1).value;
        assert ts[..0] == [];
        for i := 0 to |ts|
          invariant world == DeleteStopped(be, ts[..i], asked.0)
        {
          assert ts[..i + 1][..i] == ts[..i];
          if IsStopped(ts[i].status) {
            world := Ask(be, world, DeleteTask(ts[i].taskId)).0;
          }
        }
        assert ts[..|ts|] == ts;
      }
      body := OK;
    }

    method DispatchRpcCall(call: Value) returns (reply: Value)
      modifies this`world
      ensures (world, reply) == RunCall(be, guard, call, old(world))
    {
      var id := if Has(call, "id") then Get(call, "id") else Null;
      var name := TextField(call, "method");
      var params := ParamsOf(call);
      var arr := StripToken(ItemsOf(params));
      if world.crashed {
        return Null;
      }
      if Exempt(name) {
        return RpcReply(id, Hostless(be, name));
      }
      if name == MULTICALL {
        if arr == [] {
          return RpcError(id, 1, MissingParam(0));
        }
        if !arr[0].Arr? {
          return RpcError(id, 1, WrongType(0));
        }
        var results := SystemMulticall(arr[0].items);
        return RpcReply(id, Success(Arr(results)));
      }
      if !TokenOk(guard, params) {
        return RpcError(id, 1, "Unauthorized");
      }
      if !params.Arr? {
        return RpcError(id, 1, "params must be an array");
      }
      var done := Dispatch(be, name, arr, world);
      world := done.0;
      reply := RpcReply(id, done.1);
    }

    method HandleJsonRpc(body: Option<Value>) returns (reply: Value)
      modifies this`world
      ensures (world, reply) == Handle(be, guard, body, old(world))
    {
      if body.None? {
        return RpcError(Null, -32700, "parse error");
      }
      if body.value.Arr? {
        var calls := body.value.items;
        var out := [];
        assert calls[..0] == [];
        for i := 0 to |calls|
          invariant (world, out) == RunCalls(be, guard, calls[..i], old(world))
        {
          assert calls[..i + 1][..i] == calls[..i];
          var v := DispatchRpcCall(calls[i]);
          out := out + [v];
        }
        assert calls[..|calls|] == calls;
        return Arr(out);
      }
      if body.value.Obj? {
        reply := DispatchRpcCall(body.value);
        return;
      }
      reply := RpcError(Null, -32600, "invalid request");
    }
  }
}
