/** The aria2-compatible JSON-RPC layer over a stateful host: single calls,
    arrays of calls and `system.multicall`, each call with its own token. */
module JsonRpc {
  import opened Wrappers
  import opened Text
  import opened Json
  import opened Aria2
  import opened Auth
  import opened GlobalOptions

  // ---- the host --------------------------------------------------------------

  datatype Speed = Speed(download: int, upload: int)

  datatype HostCall =
    | CreateTask(url: string, torrent: Option<string>, options: Value)
    | DeleteTask(taskId: string)
    | PauseTask(taskId: string)
    | ContinueTask(taskId: string)
    | PauseAllTasks
    | ContinueAllTasks
    | ListTasks
    | LiveSpeeds
    | GetConfig
    | ApplyConfig(changes: map<string, string>)

  datatype HostReply =
    | Refused(message: string)
    | Done
    | Created(taskId: string)
    | Tasks(tasks: seq<Task>)
    | Speeds(speeds: map<string, Speed>)
    | Config(config: map<string, string>)

  /** Everything behind the layer: the host's reaction to a call, and the
      rendering and option parsing that involve no host call. */
  datatype Backend<!H> = Backend(
    step: (H, HostCall) -> (H, HostReply),
    status: (Task, Speed) -> map<string, Value>,
    files: Task -> Value,
    uris: Task -> Value,
    options: Task -> Value,
    parseRequest: Option<map<string, Value>> -> Result<Value>,
    totals: map<string, Speed> -> map<string, Value>,
    sessionId: string)

  /** The host, the calls made to it, and whether a call made the request panic. */
  datatype World<!H> = World(host: H, trace: seq<HostCall>, crashed: bool)

  function Ask<H>(be: Backend<H>, w: World<H>, call: HostCall): (World<H>, HostReply) {
    var (h, r) := be.step(w.host, call);
    (w.(host := h, trace := w.trace + [call]), r)
  }

  // ---- single methods --------------------------------------------------------

  /** The outcome of a method: a result, or aria2's error code 1 with a text. */
  datatype Body = Success(value: Value) | Error(message: string)

  const OK := Success(Str("OK"))

  function MissingParam(i: nat): string { "The parameter at " + Decimal(i) + " is required but missing." }
  function WrongType(i: nat): string { "The parameter at " + Decimal(i) + " has wrong type." }

  function UnitResult(r: HostReply): Body { if r.Refused? then Error(r.message) else OK }

  function GidResult(gid: string, r: HostReply): Body {
    if r.Refused? then Error(r.message) else Success(Str(gid))
  }

  function RequireGid(arr: seq<Value>): Result<string> {
    if arr == [] then Err(MissingParam(0)) else if arr[0].Str? then Ok(arr[0].s) else Err(WrongType(0))
  }

  function TasksOf(r: HostReply): Result<seq<Task>> {
    match r
    case Tasks(ts) => Ok(ts)
    case Refused(m) => Err(m)
    case _ => Ok([])
  }

  function SpeedsOf(r: HostReply): map<string, Speed> { if r.Speeds? then r.speeds else map[] }

  function SpeedOf(speeds: map<string, Speed>, t: Task): Speed {
    if t.taskId in speeds then speeds[t.taskId] else Speed(0, 0)
  }

  /** The task a GID parameter names, asked for once. */
  function FindTask<H>(be: Backend<H>, arr: seq<Value>, w: World<H>): (r: (World<H>, Result<Task>))
    ensures w.trace <= r.0.trace
  {
    match RequireGid(arr)
    case Err(m) => (w, Err(m))
    case Ok(gid) =>
      var (w1, r) := Ask(be, w, ListTasks);
      match TasksOf(r)
      case Err(m) => (w1, Err(m))
      case Ok(ts) => (w1, ResolveGid(ts, gid))
  }

  /** remove, pause and unpause: find the task, act on it, answer its GID. */
  function ActOnTask<H>(be: Backend<H>, arr: seq<Value>, act: string -> HostCall, w: World<H>): (r: (World<H>, Body))
    ensures w.trace <= r.0.trace
  {
    var (w1, found) := FindTask(be, arr, w);
    match found
    case Err(m) => (w1, Error(m))
    case Ok(t) =>
      var (w2, r) := Ask(be, w1, act(t.taskId));
      (w2, GidResult(TaskIdToGid(t.taskId), r))
  }

  function ShowTask<H>(be: Backend<H>, arr: seq<Value>, show: Task -> Value, w: World<H>): (r: (World<H>, Body))
    ensures w.trace <= r.0.trace
  {
    var (w1, found) := FindTask(be, arr, w);
    (w1, if found.Err? then Error(found.message) else Success(show(found.value)))
  }

  /** The string entries of an optional array parameter. */
  function Keys(arr: seq<Value>, i: nat): seq<string> {
    if i < |arr| && arr[i].Arr? then Strings(arr[i].items) else []
  }

  function Strings(vs: seq<Value>): seq<string> {
    if vs == [] then [] else (if vs[0].Str? then [vs[0].s] else []) + Strings(vs[1..])
  }

  function FilterKeys(obj: map<string, Value>, keys: seq<string>): Value {
    Obj(if keys == [] then obj else map k | k in obj && k in keys :: obj[k])
  }

  function Render<H>(be: Backend<H>, ts: seq<Task>, speeds: map<string, Speed>, keys: seq<string>): Value {
    Arr(seq(|ts|, i requires 0 <= i < |ts| => FilterKeys(be.status(ts[i], SpeedOf(speeds, ts[i])), keys)))
  }

  function TellStatus<H>(be: Backend<H>, arr: seq<Value>, w: World<H>): (r: (World<H>, Body))
    ensures w.trace <= r.0.trace
  {
    var (w1, found) := FindTask(be, arr, w);
    match found
    case Err(m) => (w1, Error(m))
    case Ok(t) =>
      var (w2, r) := Ask(be, w1, LiveSpeeds);
      (w2, Success(FilterKeys(be.status(t, SpeedOf(SpeedsOf(r), t)), Keys(arr, 1))))
  }

  function TellActive<H>(be: Backend<H>, arr: seq<Value>, w: World<H>): (r: (World<H>, Body))
    ensures w.trace <= r.0.trace
  {
    var (w1, r) := Ask(be, w, ListTasks);
    match TasksOf(r)
    case Err(m) => (w1, Error(m))
    case Ok(ts) =>
      var (w2, r2) := Ask(be, w1, LiveSpeeds);
      (w2, Success(Render(be, Bucket(ts, IsActive), SpeedsOf(r2), Keys(arr, 0))))
  }

  /** Offset and count of a page request. */
  function PageParams(arr: seq<Value>): Result<(int, int)> {
    if arr == [] then Err(MissingParam(0))
    else if !arr[0].Int? || !InI64(arr[0].n) then Err(WrongType(0))
    else if |arr| < 2 then Err(MissingParam(1))
    else if !arr[1].Int? || !InI64(arr[1].n) then Err(WrongType(1))
    else if arr[1].n < 0 then
      Err("The integer parameter at 1 has invalid value: the value must be greater than or equal to 0.")
    else Ok((arr[0].n, arr[1].n))
  }

  function TellPage<H>(be: Backend<H>, arr: seq<Value>, belongs: int -> bool, w: World<H>): (r: (World<H>, Body))
    ensures w.trace <= r.0.trace
  {
    match PageParams(arr)
    case Err(m) => (w, Error(m))
    case Ok((offset, num)) =>
      var (w1, r) := Ask(be, w, ListTasks);
      match TasksOf(r)
      case Err(m) => (w1, Error(m))
      case Ok(ts) =>
        var (w2, r2) := Ask(be, w1, LiveSpeeds);
        if |Bucket(ts, belongs)| > I64_MAX then (w2.(crashed := true), Error("panic")) // no list is that long
        else
          match Paginate(Bucket(ts, belongs), offset, num)
          case Panic => (w2.(crashed := true), Error("panic"))
          case Items(page) => (w2, Success(Render(be, page, SpeedsOf(r2), Keys(arr, 2))))
  }

  function ChangeGlobal<H>(be: Backend<H>, arr: seq<Value>, w: World<H>): (r: (World<H>, Body))
    ensures w.trace <= r.0.trace
  {
    if arr == [] then (w, Error(MissingParam(0)))
    else if !arr[0].Obj? then (w, Error(WrongType(0)))
    else
      match Changes(arr[0].fields, |TABLE|)
      case Err(m) => (w, Error(m))
      case Ok(changes) =>
        if changes == map[] then (w, OK)
        else
          var (w1, r) := Ask(be, w, ApplyConfig(changes));
          (w1, UnitResult(r))
  }

  /** Deleting the stopped tasks one after the other, whatever each answers. */
  function DeleteStopped<H>(be: Backend<H>, ts: seq<Task>, w: World<H>): (v: World<H>)
    ensures w.trace <= v.trace
  {
    if ts == [] then w
    else
      var w1 := DeleteStopped(be, ts[..|ts| - 1], w);
      var t := ts[|ts| - 1];
      if IsStopped(t.status) then Ask(be, w1, DeleteTask(t.taskId)).0 else w1
  }

  function Purge<H>(be: Backend<H>, w: World<H>): (r: (World<H>, Body))
    ensures w.trace <= r.0.trace
  {
    var (w1, r) := Ask(be, w, ListTasks);
    (if TasksOf(r).Ok? then DeleteStopped(be, TasksOf(r).value, w1) else w1, OK)
  }

  function RemoveResult<H>(be: Backend<H>, arr: seq<Value>, w: World<H>): (r: (World<H>, Body))
    ensures w.trace <= r.0.trace
  {
    var (w1, found) := FindTask(be, arr, w);
    match found
    case Err(m) => (w1, Error(m))
    case Ok(t) =>
      if !IsStopped(t.status) then
        (w1, Error("Could not remove download result of GID#" + TaskIdToGid(t.taskId)))
      else
        var (w2, r) := Ask(be, w1, DeleteTask(t.taskId));
        (w2, UnitResult(r))
  }

  function Create<H>(be: Backend<H>, url: string, torrent: Option<string>, arr: seq<Value>, at: nat, w: World<H>)
    : (r: (World<H>, Body))
    ensures w.trace <= r.0.trace
  {
    match be.parseRequest(if at < |arr| && arr[at].Obj? then Some(arr[at].fields) else None)
    case Err(m) => (w, Error(m))
    case Ok(options) =>
      var (w1, r) := Ask(be, w, CreateTask(url, torrent, options));
      (w1, if r.Created? then Success(Str(TaskIdToGid(r.taskId))) else UnitResult(r))
  }

  function FirstUri(uris: seq<string>): string {
    if uris == [] then "" else if Trim(uris[0]) != "" then Trim(uris[0]) else FirstUri(uris[1..])
  }

  function AddUri<H>(be: Backend<H>, arr: seq<Value>, w: World<H>): (r: (World<H>, Body))
    ensures w.trace <= r.0.trace
  {
    if arr == [] then (w, Error(MissingParam(0)))
    else if !arr[0].Arr? then (w, Error(WrongType(0)))
    else
      var url := FirstUri(Strings(arr[0].items));
      if url == "" then (w, Error("URI is not provided.")) else Create(be, url, None, arr, 1, w)
  }

  function AddTorrent<H>(be: Backend<H>, arr: seq<Value>, w: World<H>): (r: (World<H>, Body))
    ensures w.trace <= r.0.trace
  {
    if arr == [] then (w, Error(MissingParam(0)))
    else if !arr[0].Str? then (w, Error(WrongType(0)))
    else if Trim(arr[0].s) == "" then (w, Error("No Torrent to download."))
    else Create(be, "", Some(arr[0].s), arr, 2, w)
  }

  function Count(ts: seq<Task>, belongs: int -> bool): Value { Str(Decimal(|Bucket(ts, belongs)|)) }

  function GlobalStat<H>(be: Backend<H>, w: World<H>): (r: (World<H>, Body))
    ensures w.trace <= r.0.trace
  {
    var (w1, r) := Ask(be, w, ListTasks);
    match TasksOf(r)
    case Err(m) => (w1, Error(m))
    case Ok(ts) =>
      var (w2, r2) := Ask(be, w1, LiveSpeeds);
      (w2, Success(Obj(be.totals(SpeedsOf(r2)) + map[
        "numActive" := Count(ts, IsActive), "numWaiting" := Count(ts, IsWaiting),
        "numStopped" := Count(ts, IsStopped), "numStoppedTotal" := Count(ts, IsStopped)])))
  }

  function GlobalOption<H>(be: Backend<H>, w: World<H>): (r: (World<H>, Body))
    ensures w.trace <= r.0.trace
  {
    var (w1, r) := Ask(be, w, GetConfig);
    (w1, Success(Obj(BuildGlobalOption(if r.Config? then r.config else map[]))))
  }

  function AskUnit<H>(be: Backend<H>, call: HostCall, w: World<H>): (r: (World<H>, Body))
    ensures w.trace <= r.0.trace
  {
    var (w1, r) := Ask(be, w, call);
    (w1, UnitResult(r))
  }

  // ---- method names ------------------------------------------------------------

  const MULTICALL := "system.multicall"
  const LIST_METHODS := "system.listMethods"
  const LIST_NOTIFICATIONS := "system.listNotifications"

  const METHOD_NAMES: seq<string> := [
    "aria2.addUri", "aria2.addTorrent", "aria2.getPeers", "aria2.addMetalink", "aria2.remove", "aria2.pause",
    "aria2.forcePause", "aria2.pauseAll", "aria2.forcePauseAll", "aria2.unpause", "aria2.unpauseAll",
    "aria2.forceRemove", "aria2.changePosition", "aria2.tellStatus", "aria2.getUris", "aria2.getFiles",
    "aria2.getServers", "aria2.tellActive", "aria2.tellWaiting", "aria2.tellStopped", "aria2.getOption",
    "aria2.changeUri", "aria2.changeOption", "aria2.getGlobalOption", "aria2.changeGlobalOption",
    "aria2.purgeDownloadResult", "aria2.removeDownloadResult", "aria2.getVersion", "aria2.getSessionInfo",
    "aria2.shutdown", "aria2.forceShutdown", "aria2.getGlobalStat", "aria2.saveSession", MULTICALL,
    LIST_METHODS, LIST_NOTIFICATIONS
  ]

  const NOTIFICATION_NAMES: seq<string> := [
    "aria2.onDownloadStart", "aria2.onDownloadPause", "aria2.onDownloadStop", "aria2.onDownloadComplete",
    "aria2.onDownloadError", "aria2.onBtDownloadComplete"
  ]

  const FEATURES: seq<string> := ["Async DNS", "BitTorrent", "GZip", "HTTPS", "Message Digest"]

  function Texts(names: seq<string>): Value { Arr(seq(|names|, i requires 0 <= i < |names| => Str(names[i]))) }

  /** One method by name, on parameters already stripped of their token. */
  function Dispatch<H>(be: Backend<H>, name: string, arr: seq<Value>, w: World<H>): (r: (World<H>, Body))
    ensures w.trace <= r.0.trace
  {
    if name == "aria2.addUri" then AddUri(be, arr, w)
    else if name == "aria2.addTorrent" then AddTorrent(be, arr, w)
    else if name == "aria2.remove" || name == "aria2.forceRemove" then ActOnTask(be, arr, id => DeleteTask(id), w)
    else if name == "aria2.pause" || name == "aria2.forcePause" then ActOnTask(be, arr, id => PauseTask(id), w)
    else if name == "aria2.unpause" then ActOnTask(be, arr, id => ContinueTask(id), w)
    else if name == "aria2.pauseAll" || name == "aria2.forcePauseAll" then AskUnit(be, PauseAllTasks, w)
    else if name == "aria2.unpauseAll" then AskUnit(be, ContinueAllTasks, w)
    else if name == "aria2.tellStatus" then TellStatus(be, arr, w)
    else if name == "aria2.tellActive" then TellActive(be, arr, w)
    else if name == "aria2.tellWaiting" then TellPage(be, arr, IsWaiting, w)
    else if name == "aria2.tellStopped" then TellPage(be, arr, IsStopped, w)
    else if name == "aria2.getUris" then ShowTask(be, arr, be.uris, w)
    else if name == "aria2.getFiles" then ShowTask(be, arr, be.files, w)
    else if name == "aria2.getOption" then ShowTask(be, arr, be.options, w)
    else if name == "aria2.getGlobalOption" then GlobalOption(be, w)
    else if name == "aria2.changeGlobalOption" then ChangeGlobal(be, arr, w)
    else if name == "aria2.getGlobalStat" then GlobalStat(be, w)
    else if name == "aria2.purgeDownloadResult" then Purge(be, w)
    else if name == "aria2.removeDownloadResult" then RemoveResult(be, arr, w)
    else (w, Hostless(be, name))
  }

  /** The methods that involve no host call. */
  function Hostless<H>(be: Backend<H>, name: string): Body {
    if name == "aria2.getVersion" then
      Success(Obj(map["version" := Str("1.37.0"), "enabledFeatures" := Texts(FEATURES)]))
    else if name == "aria2.getSessionInfo" then Success(Obj(map["sessionId" := Str(be.sessionId)]))
    else if name == LIST_METHODS then Success(Texts(METHOD_NAMES))
    else if name == LIST_NOTIFICATIONS then Success(Texts(NOTIFICATION_NAMES))
    else if name == "aria2.getPeers" || name == "aria2.getServers" then Success(Arr([]))
    else if name == "aria2.saveSession" || name == "aria2.changeOption" then OK
    else if name == "aria2.addMetalink" || name == "aria2.changePosition" || name == "aria2.changeUri"
            || name == "aria2.shutdown" || name == "aria2.forceShutdown" then
      Error(name + " is not supported by LDownload.")
    else Error("No such method: " + name)
  }

  // ---- calls, arrays and multicall ---------------------------------------------

  /** The server's token, and whether the request's header carried it. */
  datatype Guard = Guard(token: string, headerOk: bool)

  const TOKEN_PREFIX := "token:"

  predicate TokenOk(g: Guard, params: Value) {
    || g.token == ""
    || g.headerOk
    || (&& params.Arr? && params.items != [] && params.items[0].Str? && TOKEN_PREFIX <= params.items[0].s
        && ConstantTimeEqText(params.items[0].s[|TOKEN_PREFIX|..], g.token))
  }

  function StripToken(arr: seq<Value>): seq<Value> {
    if arr != [] && arr[0].Str? && TOKEN_PREFIX <= arr[0].s then arr[1..] else arr
  }

  function ItemsOf(v: Value): seq<Value> { if v.Arr? then v.items else [] }

  function ErrorObject(code: int, message: string): Value {
    Obj(map["code" := Int(code), "message" := Str(message)])
  }

  function RpcError(id: Value, code: int, message: string): Value {
    Obj(map["jsonrpc" := Str("2.0"), "id" := id, "error" := ErrorObject(code, message)])
  }

  function RpcReply(id: Value, body: Body): Value {
    match body
    case Success(v) => Obj(map["jsonrpc" := Str("2.0"), "id" := id, "result" := v])
    case Error(m) => RpcError(id, 1, m)
  }

  function TextField(v: Value, key: string): string {
    if Has(v, key) && Get(v, key).Str? then Get(v, key).s else ""
  }

  function ParamsOf(call: Value): Value { if Has(call, "params") then Get(call, "params") else Arr([]) }

  predicate Exempt(name: string) { name == LIST_METHODS || name == LIST_NOTIFICATIONS }

  /** One entry of a multicall: its own token check, its own entry in the reply. */
  function RunSub<H>(be: Backend<H>, g: Guard, c: Value, w: World<H>): (World<H>, Value) {
    var name := TextField(c, "methodName");
    if name == "" then (w, ErrorObject(1, "Missing methodName."))
    else if name == MULTICALL then (w, ErrorObject(1, "Recursive system.multicall forbidden."))
    else if !Exempt(name) && !TokenOk(g, ParamsOf(c)) then (w, ErrorObject(1, "Unauthorized"))
    else if w.crashed then (w, Null)
    else
      var (w1, body) := Dispatch(be, name, StripToken(ItemsOf(ParamsOf(c))), w);
      (w1, Entry(RpcReply(Null, body)))
  }

  /** A reply as a multicall reports it: a wrapped result, or the bare error. */
  function Entry(resp: Value): Value {
    if Has(resp, "result") then Arr([Get(resp, "result")])
    else if Has(resp, "error") then Get(resp, "error") else Null
  }

  function RunSubs<H>(be: Backend<H>, g: Guard, calls: seq<Value>, w: World<H>): (World<H>, seq<Value>)
    decreases |calls|
  {
    if calls == [] then (w, [])
    else
      var (w1, out) := RunSubs(be, g, calls[..|calls| - 1], w);
      var (w2, v) := RunSub(be, g, calls[|calls| - 1], w1);
      (w2, out + [v])
  }

  function RunCall<H>(be: Backend<H>, g: Guard, call: Value, w: World<H>): (World<H>, Value) {
    var id := if Has(call, "id") then Get(call, "id") else Null;
    var name := TextField(call, "method");
    var params := ParamsOf(call);
    var arr := StripToken(ItemsOf(params));
    if w.crashed then (w, Null)
    else if Exempt(name) then (w, RpcReply(id, Hostless(be, name)))
    else if name == MULTICALL then
      if arr == [] then (w, RpcError(id, 1, MissingParam(0)))
      else if !arr[0].Arr? then (w, RpcError(id, 1, WrongType(0)))
      else
        var (w1, out) := RunSubs(be, g, arr[0].items, w);
        (w1, RpcReply(id, Success(Arr(out))))
    else if !TokenOk(g, params) then (w, RpcError(id, 1, "Unauthorized"))
    else if !params.Arr? then (w, RpcError(id, 1, "params must be an array"))
    else
      var (w1, body) := Dispatch(be, name, arr, w);
      (w1, RpcReply(id, body))
  }

  function RunCalls<H>(be: Backend<H>, g: Guard, calls: seq<Value>, w: World<H>): (World<H>, seq<Value>)
    decreases |calls|
  {
    if calls == [] then (w, [])
    else
      var (w1, out) := RunCalls(be, g, calls[..|calls| - 1], w);
      var (w2, v) := RunCall(be, g, calls[|calls| - 1], w1);
      (w2, out + [v])
  }

  /** A whole request body, `None` when it is not JSON. */
  function Handle<H>(be: Backend<H>, g: Guard, body: Option<Value>, w: World<H>): (World<H>, Value) {
    match body
    case None => (w, RpcError(Null, -32700, "parse error"))
    case Some(Arr(calls)) =>
      var (w1, out) := RunCalls(be, g, calls, w);
      (w1, Arr(out))
    case Some(Obj(_)) => RunCall(be, g, body.value, w)
    case Some(_) => (w, RpcError(Null, -32600, "invalid request"))
  }
}
