/** What single JSON-RPC calls do, name by name: who is let in, what the host is
    asked, and what is answered. */
module JsonRpcMethods {
  import opened Wrappers
  import opened Text
  import opened Json
  import opened Aria2
  import opened Auth
  import opened GlobalOptions
  import opened JsonRpc
  import opened JsonRpcResults

  // ---- who is let in -----------------------------------------------------------

  /** The server has a token and the request's header did not carry it. */
  predicate Guarded(g: Guard) { g.token != "" && !g.headerOk }

  /** The parameters begin with the text "token:" followed by the server's token. */
  predicate Carries(g: Guard, params: Value) {
    params.Arr? && params.items != [] && params.items[0] == Str("token:" + g.token)
  }

  /** Exactly when a call's parameters are let in. */
  lemma TokenExactly(g: Guard, params: Value)
    ensures TokenOk(g, params) <==> !Guarded(g) || Carries(g, params)
  {
    if params.Arr? && params.items != [] && params.items[0].Str? {
      var s := params.items[0].s;
      if "token:" <= s {
        TextEqIsEquality(s[6..], g.token);
        assert s == "token:" + s[6..];
      }
      assert ("token:" + g.token)[6..] == g.token;
    }
  }

  /** For every body: on a guarded server each host call is made by a leaf whose
      own parameters begin with the server's token. */
  lemma HostCallsCarryTheToken<H>(be: Backend<H>, g: Guard, body: Option<Value>, w: World<H>)
    requires Guarded(g)
    ensures var ls := BodyLeaves(body);
            var groups := Groups(be, g, ls, w);
            && Handle(be, g, body, w).0.trace == w.trace + Joined(groups)
            && forall k :: 0 <= k < |ls| && groups[k] != [] ==> Carries(g, ls[k].params)
  {
    BodyIsAuthorised(be, g, body, w);
    var ls := BodyLeaves(body);
    forall k | 0 <= k < |ls| && Groups(be, g, ls, w)[k] != [] ensures Carries(g, ls[k].params) {
      TokenExactly(g, ls[k].params);
    }
  }

  /** The parameters a method sees: those of the call without a leading token. */
  function Seen(params: seq<Value>): seq<Value> {
    if params != [] && params[0].Str? && "token:" <= params[0].s then params[1..] else params
  }

  predicate NeedsToken(name: string) {
    name !in {"system.listMethods", "system.listNotifications", "system.multicall"}
  }

  /** A call is turned away, and leaves the host alone, exactly when the server
      is guarded and the call carries no token or another one; every other call
      with an array of parameters is answered by its method, token stripped. */
  lemma CallIsLetIn<H>(be: Backend<H>, g: Guard, call: Value, w: World<H>)
    requires !w.crashed && NeedsToken(TextField(call, "method"))
    ensures var id := if Has(call, "id") then Get(call, "id") else Null;
            var params := ParamsOf(call);
            RunCall(be, g, call, w) ==
              if Guarded(g) && !Carries(g, params) then (w, RpcError(id, 1, "Unauthorized"))
              else if !params.Arr? then (w, RpcError(id, 1, "params must be an array"))
              else
                var (v, body) := Dispatch(be, TextField(call, "method"), Seen(params.items), w);
                (v, RpcReply(id, body))
  {
    TokenExactly(g, ParamsOf(call));
  }

  /** With the server's token in front a method sees the rest, whatever that is. */
  lemma TokenIsTakenOff<H>(be: Backend<H>, g: Guard, name: string, token: string, rest: seq<Value>, w: World<H>)
    requires !w.crashed && NeedsToken(name) && name != "" && Guarded(g)
    ensures var call := Obj(map["method" := Str(name), "params" := Arr([Str("token:" + token)] + rest)]);
            RunCall(be, g, call, w) ==
              if token == g.token then
                var (v, body) := Dispatch(be, name, rest, w);
                (v, RpcReply(Null, body))
              else (w, RpcError(Null, 1, "Unauthorized"))
  {
    var params := Arr([Str("token:" + token)] + rest);
    var call := Obj(map["method" := Str(name), "params" := params]);
    assert TextField(call, "method") == name && ParamsOf(call) == params && !Has(call, "id");
    assert params.items[0] == Str("token:" + token) && params.items[1..] == rest;
    assert ("token:" + token)[6..] == token && ("token:" + g.token)[6..] == g.token;
    CallIsLetIn(be, g, call, w);
  }

  /** The same entry by entry in a multicall, which needs no token itself. */
  lemma EntryIsLetIn<H>(be: Backend<H>, g: Guard, c: Value, w: World<H>)
    requires !w.crashed
    ensures var name := TextField(c, "methodName");
            var params := ParamsOf(c);
            RunSub(be, g, c, w) ==
              if name == "" then (w, ErrorObject(1, "Missing methodName."))
              else if name == "system.multicall" then (w, ErrorObject(1, "Recursive system.multicall forbidden."))
              else if NeedsToken(name) && Guarded(g) && !Carries(g, params) then (w, ErrorObject(1, "Unauthorized"))
              else
                var (v, body) := Dispatch(be, name, Seen(if params.Arr? then params.items else []), w);
                (v, match body case Success(value) => Arr([value]) case Error(m) => ErrorObject(1, m))
  {
    TokenExactly(g, ParamsOf(c));
    EntryOfReply(Dispatch(be, TextField(c, "methodName"), Seen(ItemsOf(ParamsOf(c))), w).1);
  }

  /** The two lists of names are answered to anyone. */
  lemma ListsNeedNoToken<H>(be: Backend<H>, g: Guard, id: Value, w: World<H>)
    requires !w.crashed
    ensures RunCall(be, g, Obj(map["method" := Str("system.listMethods"), "id" := id]), w)
         == (w, RpcReply(id, Success(Texts(METHOD_NAMES))))
    ensures RunCall(be, g, Obj(map["method" := Str("system.listNotifications"), "id" := id]), w)
         == (w, RpcReply(id, Success(Texts(NOTIFICATION_NAMES))))
  {
  }

  // ---- what the host is asked -----------------------------------------------------

  /** What a method that only passes a wish on answers. */
  predicate Confirms(r: HostReply, body: Body) {
    body == if r.Refused? then Error(r.message) else Success(Str("OK"))
  }

  /** Pausing and resuming everything. */
  lemma AllTasksAtOnce<H>(be: Backend<H>, arr: seq<Value>, w: World<H>)
    ensures forall name: string | name == "aria2.pauseAll" || name == "aria2.forcePauseAll" ::
              var (v, body) := Dispatch(be, name, arr, w);
              v.trace == w.trace + [PauseAllTasks] && Confirms(be.step(w.host, PauseAllTasks).1, body)
    ensures var (v, body) := Dispatch(be, "aria2.unpauseAll", arr, w);
            v.trace == w.trace + [ContinueAllTasks] && Confirms(be.step(w.host, ContinueAllTasks).1, body)
  {
  }

  /** The options object of a creating method. */
  function OptionsAt(arr: seq<Value>, at: nat): Option<map<string, Value>> {
    if at < |arr| && arr[at].Obj? then Some(arr[at].fields) else None
  }

  /** A creating method asks for one task and answers its GID. */
  predicate CreatesOne<H>(be: Backend<H>, w: World<H>, r: (World<H>, Body), call: HostCall) {
    && r.0.trace == w.trace + [call]
    && var reply := be.step(w.host, call).1;
       (reply.Created? ==> r.1 == Success(Str(TaskIdToGid(reply.taskId))))
       && (reply.Refused? ==> r.1 == Error(reply.message))
  }

  predicate Usable(v: Value) { v.Str? && Trim(v.s) != "" }

  lemma {:induction false} FirstUsable(vs: seq<Value>, k: nat)
    requires k <= |vs| && forall j :: 0 <= j < k ==> !Usable(vs[j])
    requires k < |vs| ==> Usable(vs[k])
    ensures FirstUri(Strings(vs)) == if k < |vs| then Trim(vs[k].s) else ""
  {
    if k > 0 {
      FirstUsable(vs[1..], k - 1);
      assert !Usable(vs[0]);
      if vs[0].Str? {
        assert Strings(vs)[0] == vs[0].s && Strings(vs)[1..] == Strings(vs[1..]);
      } else {
        assert Strings(vs) == Strings(vs[1..]);
      }
    } else if vs != [] {
      assert Strings(vs)[0] == vs[0].s;
    }
  }

  /** `addUri` asks for the first address that is not blank, trimmed, with the
      options behind it; without one it asks nothing. */
  lemma AddUriAsks<H>(be: Backend<H>, arr: seq<Value>, k: nat, w: World<H>)
    requires arr != [] && arr[0].Arr? && k <= |arr[0].items|
    requires forall j :: 0 <= j < k ==> !Usable(arr[0].items[j])
    requires k < |arr[0].items| ==> Usable(arr[0].items[k])
    ensures var us := arr[0].items;
            var r := Dispatch(be, "aria2.addUri", arr, w);
            var options := be.parseRequest(OptionsAt(arr, 1));
            if k == |us| then r == (w, Error("URI is not provided."))
            else if options.Err? then r == (w, Error(options.message))
            else CreatesOne(be, w, r, CreateTask(Trim(us[k].s), None, options.value))
  {
    FirstUsable(arr[0].items, k);
  }

  /** `addTorrent` passes the torrent on as it is. */
  lemma AddTorrentAsks<H>(be: Backend<H>, arr: seq<Value>, w: World<H>)
    requires arr != [] && arr[0].Str?
    ensures var r := Dispatch(be, "aria2.addTorrent", arr, w);
            var options := be.parseRequest(OptionsAt(arr, 2));
            if !Usable(arr[0]) then r == (w, Error("No Torrent to download."))
            else if options.Err? then r == (w, Error(options.message))
            else CreatesOne(be, w, r, CreateTask("", Some(arr[0].s), options.value))
  {
  }

  /** A stopped task's record is removed by its GID, and no other task's is. */
  lemma RemoveResultAsks<H>(be: Backend<H>, gid: string, w: World<H>, ts: seq<Task>)
    requires be.step(w.host, ListTasks).1 == Tasks(ts)
    ensures var (v, body) := Dispatch(be, "aria2.removeDownloadResult", [Str(gid)], w);
            var found := ResolveGid(ts, gid);
            if found.Ok? && found.value.status in {3, 4} then
              v.trace == w.trace + [ListTasks, DeleteTask(found.value.taskId)]
            else v.trace == w.trace + [ListTasks] && body.Error?
  {
    assert RequireGid([Str(gid)]) == Ok(gid);
    var found := ResolveGid(ts, gid);
    if found.Ok? {
      var last := [DeleteTask(found.value.taskId)];
      assert w.trace + [ListTasks] + last == w.trace + [ListTasks, DeleteTask(found.value.taskId)];
    }
  }

  /** What a status request shows: the task that the GID names with its speed,
      all of it or the selected keys. */
  lemma TellStatusShows<H>(be: Backend<H>, gid: string, keys: seq<string>, w: World<H>, ts: seq<Task>,
                           speeds: map<string, Speed>)
    requires be.step(w.host, ListTasks) == (w.host, Tasks(ts)) && be.step(w.host, LiveSpeeds).1 == Speeds(speeds)
    requires ResolveGid(ts, gid).Ok?
    ensures var t := ResolveGid(ts, gid).value;
            var speed := if t.taskId in speeds then speeds[t.taskId] else Speed(0, 0);
            var all := be.status(t, speed);
            var arr := [Str(gid), Texts(keys)];
            Dispatch(be, "aria2.tellStatus", arr, w).1
            == Success(Obj(if keys == [] then all else map k | k in all && k in keys :: all[k]))
  {
    var arr := [Str(gid), Texts(keys)];
    assert RequireGid(arr) == Ok(gid);
    StringsOfTexts(keys);
    assert Keys(arr, 1) == keys;
  }

  lemma {:induction false} StringsOfTexts(names: seq<string>)
    ensures Strings(Texts(names).items) == names
  {
    if names != [] {
      StringsOfTexts(names[1..]);
      assert Texts(names).items[1..] == Texts(names[1..]).items;
    }
  }

  /** Files, addresses and options are those of the task the GID names. */
  lemma ShowsTheTask<H>(be: Backend<H>, gid: string, w: World<H>, ts: seq<Task>)
    requires be.step(w.host, ListTasks).1 == Tasks(ts) && ResolveGid(ts, gid).Ok?
    ensures var t := ResolveGid(ts, gid).value;
            && Dispatch(be, "aria2.getFiles", [Str(gid)], w).1 == Success(be.files(t))
            && Dispatch(be, "aria2.getUris", [Str(gid)], w).1 == Success(be.uris(t))
            && Dispatch(be, "aria2.getOption", [Str(gid)], w).1 == Success(be.options(t))
  {
    assert RequireGid([Str(gid)]) == Ok(gid);
  }

  /** How many tasks have one of these states. */
  function CountIn(ts: seq<Task>, states: set<int>): nat {
    if ts == [] then 0 else (if ts[0].status in states then 1 else 0) + CountIn(ts[1..], states)
  }

  lemma {:induction false} BucketCounts(ts: seq<Task>, belongs: int -> bool, states: set<int>)
    requires forall n :: belongs(n) <==> n in states
    ensures |Bucket(ts, belongs)| == CountIn(ts, states)
  {
    if ts != [] {
      BucketCounts(ts[1..], belongs, states);
    }
  }

  lemma Totals(obj: map<string, Value>, a: Value, b: Value, c: Value, stat: map<string, Value>)
    requires stat == obj + map["numActive" := a, "numWaiting" := b, "numStopped" := c, "numStoppedTotal" := c]
    ensures {"numActive", "numWaiting", "numStopped", "numStoppedTotal"} <= stat.Keys
    ensures stat["numActive"] == a && stat["numWaiting"] == b && stat["numStopped"] == stat["numStoppedTotal"] == c
    ensures forall k :: k in obj && k !in {"numActive", "numWaiting", "numStopped", "numStoppedTotal"} ==>
              k in stat && stat[k] == obj[k]
  {
  }

  /** The totals count each task once: running and preparing ones are active,
      queued and paused ones waiting, finished and failed ones stopped. */
  lemma TotalsCount<H>(be: Backend<H>, w: World<H>, ts: seq<Task>, speeds: map<string, Speed>)
    returns (stat: map<string, Value>)
    requires be.step(w.host, ListTasks) == (w.host, Tasks(ts)) && be.step(w.host, LiveSpeeds).1 == Speeds(speeds)
    ensures Dispatch(be, "aria2.getGlobalStat", [], w).1 == Success(Obj(stat))
    ensures {"numActive", "numWaiting", "numStopped", "numStoppedTotal"} <= stat.Keys
    ensures stat["numActive"] == Str(Decimal(CountIn(ts, {1, 5})))
    ensures stat["numWaiting"] == Str(Decimal(CountIn(ts, {0, 2})))
    ensures stat["numStopped"] == stat["numStoppedTotal"] == Str(Decimal(CountIn(ts, {3, 4})))
    ensures forall k :: k in be.totals(speeds) && k !in {"numActive", "numWaiting", "numStopped", "numStoppedTotal"} ==>
              k in stat && stat[k] == be.totals(speeds)[k]
  {
    BucketCounts(ts, IsActive, {1, 5});
    BucketCounts(ts, IsWaiting, {0, 2});
    BucketCounts(ts, IsStopped, {3, 4});
    var a, b, c := Count(ts, IsActive), Count(ts, IsWaiting), Count(ts, IsStopped);
    stat := be.totals(speeds) + map["numActive" := a, "numWaiting" := b, "numStopped" := c, "numStoppedTotal" := c];
    Totals(be.totals(speeds), a, b, c, stat);
    StatIsAnswered(be, w, ts, speeds);
  }

  lemma StatIsAnswered<H>(be: Backend<H>, w: World<H>, ts: seq<Task>, speeds: map<string, Speed>)
    requires be.step(w.host, ListTasks) == (w.host, Tasks(ts)) && be.step(w.host, LiveSpeeds).1 == Speeds(speeds)
    ensures var a, b, c := Count(ts, IsActive), Count(ts, IsWaiting), Count(ts, IsStopped);
            Dispatch(be, "aria2.getGlobalStat", [], w).1 == Success(Obj(be.totals(speeds)
              + map["numActive" := a, "numWaiting" := b, "numStopped" := c, "numStoppedTotal" := c]))
  {
    assert Dispatch(be, "aria2.getGlobalStat", [], w) == GlobalStat(be, w);
  }

  /** A purge asks for the list and then for the deletion of every finished or
      failed task, and is confirmed whatever the host says. */
  lemma PurgeAsks<H>(be: Backend<H>, arr: seq<Value>, w: World<H>)
    ensures var (v, body) := Dispatch(be, "aria2.purgeDownloadResult", arr, w);
            && body == Success(Str("OK"))
            && match be.step(w.host, ListTasks).1
               case Tasks(ts) =>
                 && v.trace == w.trace + [ListTasks] + Deletions(ts)
                 && forall c :: c in Deletions(ts) <==>
                      exists t :: t in ts && t.status in {3, 4} && c == DeleteTask(t.taskId)
               case _ => v.trace == w.trace + [ListTasks]
  {
    match be.step(w.host, ListTasks).1
    case Tasks(ts) => PurgeDeletesTheStopped(be, w, ts);
    case _ => DeleteStoppedTrace(be, [], Ask(be, w, ListTasks).0);
  }

  /** What is answered without the host: empty lists and confirmations for what has
      no counterpart, and refusals. */
  lemma AnsweredAlone<H>(be: Backend<H>, name: string, arr: seq<Value>, w: World<H>)
    ensures name in {"aria2.getPeers", "aria2.getServers"} ==> Dispatch(be, name, arr, w) == (w, Success(Arr([])))
    ensures name in {"aria2.saveSession", "aria2.changeOption"} ==>
              Dispatch(be, name, arr, w) == (w, Success(Str("OK")))
    ensures name in {"aria2.addMetalink", "aria2.changePosition", "aria2.changeUri", "aria2.shutdown",
                     "aria2.forceShutdown"} ==>
              Dispatch(be, name, arr, w) == (w, Error(name + " is not supported by LDownload."))
  {
  }

  /** Version and session. */
  lemma WhoAnswers<H>(be: Backend<H>, arr: seq<Value>, w: World<H>)
    ensures Dispatch(be, "aria2.getSessionInfo", arr, w) == (w, Success(Obj(map["sessionId" := Str(be.sessionId)])))
    ensures Dispatch(be, "aria2.getVersion", arr, w)
         == (w, Success(Obj(map["version" := Str("1.37.0"), "enabledFeatures" := Texts(FEATURES)])))
  {
  }

  /** A name that is not on the list of methods is refused. */
  lemma UnknownMethods<H>(be: Backend<H>, name: string, arr: seq<Value>, w: World<H>)
    requires name !in METHOD_NAMES
    ensures Dispatch(be, name, arr, w) == (w, Error("No such method: " + name))
  {
    assert forall k :: 0 <= k < |METHOD_NAMES| ==> METHOD_NAMES[k] != name;
  }

  // ---- wrong parameters and refusals -------------------------------------------------

  const MISSING := "The parameter at " + "0" + " is required but missing."
  const WRONG := "The parameter at " + "0" + " has wrong type."
  const MISSING_COUNT := "The parameter at " + "1" + " is required but missing."
  const WRONG_COUNT := "The parameter at " + "1" + " has wrong type."
  const NEGATIVE := "The integer parameter at 1 has invalid value: the value must be greater than or equal to 0."

  predicate ActsOnOne(name: string) {
    name in {"aria2.remove", "aria2.forceRemove", "aria2.pause", "aria2.forcePause", "aria2.unpause"}
  }

  predicate AsksAboutOne(name: string) {
    name in {"aria2.tellStatus", "aria2.getUris", "aria2.getFiles", "aria2.getOption", "aria2.removeDownloadResult"}
  }

  /** What a method that is about one task reports instead of doing anything. */
  function GidError<H>(be: Backend<H>, arr: seq<Value>, w: World<H>): Option<string> {
    if arr == [] then Some(MISSING)
    else if !arr[0].Str? then Some(WRONG)
    else
      match be.step(w.host, ListTasks).1
      case Refused(m) => Some(m)
      case Tasks(ts) => if ResolveGid(ts, arr[0].s).Err? then Some(ResolveGid(ts, arr[0].s).message) else None
      case _ => None
  }

  /** Without a GID, with something else in its place, with a host that refuses
      the list, or with a GID that names no task, these methods report just that
      and ask the host for the list at most. */
  lemma GidIsRequired<H>(be: Backend<H>, name: string, arr: seq<Value>, w: World<H>)
    requires (ActsOnOne(name) || AsksAboutOne(name)) && GidError(be, arr, w).Some?
    ensures var (v, body) := Dispatch(be, name, arr, w);
            && body == Error(GidError(be, arr, w).value)
            && v.trace == (if arr == [] || !arr[0].Str? then w.trace else w.trace + [ListTasks])
  {
    assert FindTask(be, arr, w) == (if arr == [] || !arr[0].Str? then w else Ask(be, w, ListTasks).0,
                                    Err(GidError(be, arr, w).value));
  }

  /** The answer to acting on one task: its GID, or why the host refused. */
  lemma ActAnswers<H>(be: Backend<H>, name: string, gid: string, w: World<H>, ts: seq<Task>)
    requires be.step(w.host, ListTasks).1 == Tasks(ts) && ResolveGid(ts, gid).Ok? && ActsOnOne(name)
    ensures var t := ResolveGid(ts, gid).value;
            var call := if name == "aria2.remove" || name == "aria2.forceRemove" then DeleteTask(t.taskId)
                        else if name == "aria2.unpause" then ContinueTask(t.taskId) else PauseTask(t.taskId);
            var (h, r) := be.step(be.step(w.host, ListTasks).0, call);
            Dispatch(be, name, [Str(gid)], w)
            == (w.(host := h, trace := w.trace + [ListTasks] + [call]),
                if r.Refused? then Error(r.message) else Success(Str(TaskIdToGid(t.taskId))))
  {
    assert RequireGid([Str(gid)]) == Ok(gid);
  }

  /** Where a first parameter of another type is required. */
  lemma FirstParameter<H>(be: Backend<H>, arr: seq<Value>, w: World<H>)
    ensures arr == [] ==> Dispatch(be, "aria2.addUri", arr, w) == (w, Error(MISSING))
    ensures arr == [] ==> Dispatch(be, "aria2.addTorrent", arr, w) == (w, Error(MISSING))
    ensures arr == [] ==> Dispatch(be, "aria2.changeGlobalOption", arr, w) == (w, Error(MISSING))
    ensures arr != [] && !arr[0].Arr? ==> Dispatch(be, "aria2.addUri", arr, w) == (w, Error(WRONG))
    ensures arr != [] && !arr[0].Str? ==> Dispatch(be, "aria2.addTorrent", arr, w) == (w, Error(WRONG))
    ensures arr != [] && !arr[0].Obj? ==> Dispatch(be, "aria2.changeGlobalOption", arr, w) == (w, Error(WRONG))
  {
  }

  predicate PagedName(name: string) { name == "aria2.tellWaiting" || name == "aria2.tellStopped" }

  predicate Whole(v: Value) { v.Int? && -9223372036854775808 <= v.n <= 9223372036854775807 }

  /** A page needs an offset and a count, both 64-bit integers, the count not
      negative; otherwise nothing is asked. */
  lemma PageParameters<H>(be: Backend<H>, name: string, arr: seq<Value>, w: World<H>)
    requires PagedName(name)
    ensures var r := Dispatch(be, name, arr, w);
            && (arr == [] ==> r == (w, Error(MISSING)))
            && (arr != [] && !Whole(arr[0]) ==> r == (w, Error(WRONG)))
            && (|arr| == 1 && Whole(arr[0]) ==> r == (w, Error(MISSING_COUNT)))
            && (|arr| >= 2 && Whole(arr[0]) && !Whole(arr[1]) ==> r == (w, Error(WRONG_COUNT)))
            && (|arr| >= 2 && Whole(arr[0]) && Whole(arr[1]) && arr[1].n < 0 ==>
                  r == (w, Error(NEGATIVE)))
  {
  }

  /** One entry of a list: the task with its speed, whole or the selected keys. */
  function Row<H>(be: Backend<H>, t: Task, speeds: map<string, Speed>, keys: seq<string>): Value {
    var all := be.status(t, if t.taskId in speeds then speeds[t.taskId] else Speed(0, 0));
    Obj(if keys == [] then all else map k | k in all && k in keys :: all[k])
  }

  function Rows<H>(be: Backend<H>, ts: seq<Task>, speeds: map<string, Speed>, keys: seq<string>): seq<Value> {
    seq(|ts|, i requires 0 <= i < |ts| => Row(be, ts[i], speeds, keys))
  }

  lemma RenderRows<H>(be: Backend<H>, ts: seq<Task>, speeds: map<string, Speed>, keys: seq<string>)
    ensures Render(be, ts, speeds, keys) == Arr(Rows(be, ts, speeds, keys))
  {
    var shown := Render(be, ts, speeds, keys).items;
    forall i | 0 <= i < |ts| ensures shown[i] == Rows(be, ts, speeds, keys)[i] {
      assert shown[i] == FilterKeys(be.status(ts[i], SpeedOf(speeds, ts[i])), keys);
    }
    assert shown == Rows(be, ts, speeds, keys);
  }

  /** The tasks the two paged methods are about. */
  function BucketOf(name: string, ts: seq<Task>): (r: seq<Task>)
    ensures |r| <= |ts|
  {
    Bucket(ts, if name == "aria2.tellWaiting" then IsWaiting else IsStopped)
  }

  /** A page of the right bucket, from either end, with the selected keys; when it
      cannot be computed the request panics. */
  lemma PageShows<H>(be: Backend<H>, name: string, offset: int, num: int, keys: seq<string>, w: World<H>,
                     ts: seq<Task>, speeds: map<string, Speed>)
    requires be.step(w.host, ListTasks) == (w.host, Tasks(ts)) && be.step(w.host, LiveSpeeds).1 == Speeds(speeds)
    requires PagedName(name) && InI64(offset) && 0 <= num <= I64_MAX && |ts| <= I64_MAX
    ensures var (v, body) := Dispatch(be, name, [Int(offset), Int(num), Texts(keys)], w);
            match Paginate(BucketOf(name, ts), offset, num)
            case Panic => v.crashed
            case Items(page) => body == Success(Arr(Rows(be, page, speeds, keys))) && v.crashed == w.crashed
  {
    var arr := [Int(offset), Int(num), Texts(keys)];
    var page := Paginate(BucketOf(name, ts), offset, num);
    PageKeys(offset, num, keys);
    if page.Items? {
      RenderRows(be, page.items, speeds, keys);
    }
  }

  lemma PageKeys(offset: int, num: int, keys: seq<string>)
    requires InI64(offset) && 0 <= num <= I64_MAX
    ensures var arr := [Int(offset), Int(num), Texts(keys)];
            Keys(arr, 2) == keys && PageParams(arr) == Ok((offset, num))
  {
    StringsOfTexts(keys);
  }

  /** The active tasks are listed whole, with the selected keys. */
  lemma ActiveShows<H>(be: Backend<H>, keys: seq<string>, w: World<H>, ts: seq<Task>, speeds: map<string, Speed>)
    requires be.step(w.host, ListTasks) == (w.host, Tasks(ts)) && be.step(w.host, LiveSpeeds).1 == Speeds(speeds)
    ensures Dispatch(be, "aria2.tellActive", [Texts(keys)], w).1
         == Success(Arr(Rows(be, Bucket(ts, IsActive), speeds, keys)))
  {
    StringsOfTexts(keys);
    assert Keys([Texts(keys)], 0) == keys;
    RenderRows(be, Bucket(ts, IsActive), speeds, keys);
  }

  /** A host that refuses the list is reported as it is. */
  lemma RefusedList<H>(be: Backend<H>, w: World<H>, message: string, arr: seq<Value>)
    requires be.step(w.host, ListTasks).1 == Refused(message)
    ensures Dispatch(be, "aria2.tellActive", arr, w).1 == Error(message)
    ensures Dispatch(be, "aria2.getGlobalStat", arr, w).1 == Error(message)
    ensures PageParams(arr).Ok? ==> Dispatch(be, "aria2.tellWaiting", arr, w).1 == Error(message)
    ensures PageParams(arr).Ok? ==> Dispatch(be, "aria2.tellStopped", arr, w).1 == Error(message)
  {
  }

  // ---- global options over the wire ---------------------------------------------------

  /** A change of options reaches the host at once and whole, or not at all. */
  lemma ChangeIsApplied<H>(be: Backend<H>, options: map<string, Value>, w: World<H>)
    ensures var (v, body) := Dispatch(be, "aria2.changeGlobalOption", [Obj(options)], w);
            var changes := Changes(options, |TABLE|);
            if changes.Err? then v == w && body == Error(changes.message)
            else if changes.value == map[] then v == w && body == Success(Str("OK"))
            else v.trace == w.trace + [ApplyConfig(changes.value)]
                 && Confirms(be.step(w.host, ApplyConfig(changes.value)).1, body)
  {
  }

  /** Asking for the options and submitting the answer applies the stored values
      again, if they are in their printed form. */
  lemma EchoIsApplied<H>(be: Backend<H>, w: World<H>, config: map<string, string>)
    requires be.step(w.host, GetConfig).1 == Config(config) && Normal(config)
    ensures var shown := Dispatch(be, "aria2.getGlobalOption", [], w).1;
            && shown.Success?
            && var v := Dispatch(be, "aria2.changeGlobalOption", [shown.value], w).0;
               exists changes: map<string, string> ::
                 && v.trace == w.trace + [ApplyConfig(changes)]
                 && forall i :: 0 <= i < |TABLE| && TABLE[i].configKey in config ==>
                      TABLE[i].configKey in changes && changes[TABLE[i].configKey] == config[TABLE[i].configKey]
  {
    var options := BuildGlobalOption(config);
    EchoExactly(config);
    Shows(config, 0);
    ValueExactly(options, |TABLE|, 0);
    ChangeIsApplied(be, options, w);
    assert TABLE[0].configKey in Changes(options, |TABLE|).value;
  }

  // ---- replies --------------------------------------------------------------------------

  /** Every call is answered with a result or an error. */
  lemma RepliesAreReplies<H>(be: Backend<H>, g: Guard, call: Value, w: World<H>) returns (body: Body)
    requires !w.crashed
    ensures RunCall(be, g, call, w).1 == RpcReply(if Has(call, "id") then Get(call, "id") else Null, body)
  {
    var name, params := TextField(call, "method"), ParamsOf(call);
    var arr := StripToken(ItemsOf(params));
    if Exempt(name) {
      body := Hostless(be, name);
    } else if name == MULTICALL {
      body := if arr == [] then Error(MissingParam(0)) else if !arr[0].Arr? then Error(WrongType(0))
              else Success(Arr(RunSubs(be, g, arr[0].items, w).1));
    } else if !TokenOk(g, params) {
      body := Error("Unauthorized");
    } else if !params.Arr? {
      body := Error("params must be an array");
    } else {
      body := Dispatch(be, name, arr, w).1;
    }
  }

  /** How a reply is written: version, id, and either the result or an error object
      with a code and a text. */
  lemma ReplySpelling(id: Value, body: Body)
    ensures RpcReply(id, body) ==
              match body
              case Success(v) => Obj(map["jsonrpc" := Str("2.0"), "id" := id, "result" := v])
              case Error(m) => Obj(map["jsonrpc" := Str("2.0"), "id" := id,
                                       "error" := Obj(map["code" := Int(1), "message" := Str(m)])])
  {
  }

  /** A body that is no call is refused with the protocol's own codes. */
  lemma OddBodies<H>(be: Backend<H>, g: Guard, v: Value, w: World<H>)
    requires !v.Arr? && !v.Obj?
    ensures Handle(be, g, None, w) == (w, RpcError(Null, -32700, "parse error"))
    ensures Handle(be, g, Some(v), w) == (w, RpcError(Null, -32600, "invalid request"))
  {
  }
}
