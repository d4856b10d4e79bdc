/** The browser extension's native-messaging client: one shared port, numbered
    requests with timers, and retrying calls that run interleaved on top of it.

    `State` and `Step` describe every interleaving of the client with its
    environment; the class `NativeClient.Client` is the imperative client, and
    each of its methods is proved to take exactly one such step. */
module NativeMessaging {
  import opened Wrappers

  /** The part of an answer the client itself looks at. */
  datatype ApiResponse = ApiResponse(success: bool, message: Option<string>)

  const UNAVAILABLE := "native_messaging_unavailable"
  const TIMEOUT := "timeout"
  const DISCONNECTED := "port disconnected"
  const POST_FAILED := "postMessage failed"
  const NOT_RUNNING := "app_not_running"
  const RECONNECTED := "delivered (reconnected after transient failure)"

  function Failure(message: string): ApiResponse { ApiResponse(false, Some(message)) }

  /** What brought a request to its end. */
  datatype Cause = ByReply | ByTimeout | ByDisconnect | ByPostFailure

  datatype Settlement = Settlement(id: nat, response: ApiResponse, cause: Cause)

  /** Content of a frame: the action of a retrying call, that call's liveness
      probe, or traffic that is never retried (task polling, warm-up). */
  datatype Content = Action(call: nat) | Probe(call: nat) | Plain

  datatype Frame = Frame(id: nat, content: Content)

  /** A `sendMessage` either found no port or got a message id. */
  datatype Attempt = NoPort | Issued(id: nat)

  /** A `sendWithRetry` in progress or finished: the attempts made so far, in
      order, and the answer once it has returned. */
  datatype Call = Call(isPing: bool, first: Attempt, probe: Option<Attempt>, second: Option<Attempt>,
                       result: Option<ApiResponse>)

  /** The module's variables, the promises it resolved, the retrying calls, and
      (last three) what the outside saw: the frames handed to postMessage, those
      of them that entered the channel, and the ids the App acted on. */
  datatype State = State(connected: bool, nextMsgId: nat, pending: map<nat, nat>, timers: map<nat, nat>,
                         nextTimer: nat, settled: seq<Settlement>, calls: seq<Call>,
                         posted: seq<Frame>, channel: seq<Frame>, handled: set<nat>)

  const INITIAL := State(false, 1, map[], map[], 0, [], [], [], [], {})

  /** One turn of the environment or of the event loop. The booleans are the
      environment's answers to `connectNative` and `postMessage`. */
  datatype Event =
    | StartCall(isPing: bool, connects: bool, posts: bool)
    | Resume(call: nat, connects: bool, posts: bool)
    | PlainSend(connects: bool, posts: bool)
    | Reply(id: Option<nat>, response: ApiResponse)
    | TimerFires(timer: nat)
    | PortLost
    | AppActs(frame: nat)

  // ---- the client as functions on values ---------------------------------

  function Settle(s: State, id: nat, response: ApiResponse, cause: Cause): State
    requires id in s.pending
  {
    s.(pending := s.pending - {id},
       timers := s.timers - {s.pending[id]},
       settled := s.settled + [Settlement(id, response, cause)])
  }

  function SendMessage(s: State, content: Content, connects: bool, posts: bool): (State, Attempt) {
    if !s.connected && !connects then (s, NoPort)
    else
      var id := s.nextMsgId;
      var waiting := s.(connected := true, nextMsgId := id + 1, nextTimer := s.nextTimer + 1,
                        pending := s.pending[id := s.nextTimer], timers := s.timers[s.nextTimer := id],
                        posted := s.posted + [Frame(id, content)]);
      if posts then (waiting.(channel := s.channel + [Frame(id, content)]), Issued(id))
      else (Settle(waiting.(connected := false), id, Failure(POST_FAILED), ByPostFailure), Issued(id))
  }

  function OnMessage(s: State, id: Option<nat>, response: ApiResponse): State {
    if id.Some? && id.value in s.pending then Settle(s, id.value, response, ByReply) else s
  }

  function OnTimer(s: State, timer: nat): State {
    if timer !in s.timers then s
    else if s.timers[timer] in s.pending && s.pending[s.timers[timer]] == timer then
      Settle(s, s.timers[timer], Failure(TIMEOUT), ByTimeout)
    else s.(timers := s.timers - {timer})
  }

  /** The pending table is walked in insertion order, which is id order. */
  function SettleFrom(s: State, id: nat): State
    decreases s.nextMsgId - id
  {
    if id >= s.nextMsgId then s
    else SettleFrom(if id in s.pending then Settle(s, id, Failure(DISCONNECTED), ByDisconnect) else s, id + 1)
  }

  function OnDisconnect(s: State): State { SettleFrom(s.(connected := false), 1) }

  function DisconnectPort(s: State): State { s.(connected := false) }

  predicate Retryable(r: ApiResponse) {
    r.message == Some(DISCONNECTED) || r.message == Some(POST_FAILED) || r.message == Some(NOT_RUNNING)
    || r.message == Some(TIMEOUT)
  }

  predicate MaybeDelivered(r: ApiResponse) {
    r.message == Some(DISCONNECTED) || r.message == Some(TIMEOUT) || r.message == Some(NOT_RUNNING)
  }

  function Lookup(settled: seq<Settlement>, id: nat): Option<ApiResponse> {
    if settled == [] then None
    else if settled[0].id == id then Some(settled[0].response)
    else Lookup(settled[1..], id)
  }

  /** The answer an awaited attempt has, if it has one yet. */
  function Answer(settled: seq<Settlement>, a: Attempt): Option<ApiResponse> {
    match a
    case NoPort => Some(Failure(UNAVAILABLE))
    case Issued(id) => Lookup(settled, id)
  }

  function StartRetry(s: State, isPing: bool, connects: bool, posts: bool): State {
    var (s1, a) := SendMessage(s, Action(|s.calls|), connects, posts);
    s1.(calls := s.calls + [Call(isPing, a, None, None, None)])
  }

  /** The attempt call `c` is waiting for. */
  function Awaited(c: Call): Attempt {
    if c.second.Some? then c.second.value else if c.probe.Some? then c.probe.value else c.first
  }

  /** What a retrying call does when it is resumed. */
  datatype Move = Stay | Return(response: ApiResponse) | AskAlive | SendAgain

  function NextMove(settled: seq<Settlement>, c: Call): Move {
    var answer := Answer(settled, Awaited(c));
    if c.result.Some? || answer.None? then Stay
    else if c.second.Some? then Return(answer.value)
    else if c.probe.Some? then
      if answer.value.success then Return(ApiResponse(true, Some(RECONNECTED))) else SendAgain
    else if answer.value.success || !Retryable(answer.value) then Return(answer.value)
    else if MaybeDelivered(answer.value) && !c.isPing then AskAlive
    else SendAgain
  }

  /** The stale port is dropped before anything is sent again. */
  function Resend(s: State, content: Content, connects: bool, posts: bool): (State, Attempt) {
    SendMessage(DisconnectPort(s), content, connects, posts)
  }

  function ResumeRetry(s: State, i: nat, connects: bool, posts: bool): State {
    if i >= |s.calls| then s
    else
      var c := s.calls[i];
      match NextMove(s.settled, c)
      case Stay => s
      case Return(r) => s.(calls := s.calls[i := c.(result := Some(r))])
      case AskAlive =>
        var (s1, a) := Resend(s, Probe(i), connects, posts);
        s1.(calls := s.calls[i := c.(probe := Some(a))])
      case SendAgain =>
        var (s1, a) := Resend(s, Action(i), connects, posts);
        s1.(calls := s.calls[i := c.(second := Some(a))])
  }

  function Step(s: State, e: Event): State {
    match e
    case StartCall(isPing, connects, posts) => StartRetry(s, isPing, connects, posts)
    case Resume(i, connects, posts) => ResumeRetry(s, i, connects, posts)
    case PlainSend(connects, posts) => SendMessage(s, Plain, connects, posts).0
    case Reply(id, response) => OnMessage(s, id, response)
    case TimerFires(timer) => OnTimer(s, timer)
    case PortLost => OnDisconnect(s)
    case AppActs(id) =>
      if exists k :: 0 <= k < |s.channel| && s.channel[k].id == id then s.(handled := s.handled + {id}) else s
  }

  function Run(s: State, events: seq<Event>): State
    decreases |events|
  {
    if events == [] then s else Run(Step(s, events[0]), events[1..])
  }

  // ---- accounting of message ids -----------------------------------------

  ghost predicate IsSettled(s: State, id: nat) {
    exists k :: 0 <= k < |s.settled| && s.settled[k].id == id
  }

  /** Every issued id is pending or settled, never both, settled once; the live
      timers are exactly those of the pending ids. */
  ghost predicate Accounted(s: State) {
    && s.nextMsgId >= 1
    && (forall id :: id in s.pending ==>
          1 <= id < s.nextMsgId && s.pending[id] in s.timers && s.timers[s.pending[id]] == id)
    && (forall t :: t in s.timers ==>
          t < s.nextTimer && s.timers[t] in s.pending && s.pending[s.timers[t]] == t)
    && (forall k :: 0 <= k < |s.settled| ==>
          1 <= s.settled[k].id < s.nextMsgId && s.settled[k].id !in s.pending)
    && (forall j, k :: 0 <= j < k < |s.settled| ==> s.settled[j].id != s.settled[k].id)
    && (forall id :: 1 <= id < s.nextMsgId && id !in s.pending ==> IsSettled(s, id))
  }

  lemma SettleAccounted(s: State, id: nat, response: ApiResponse, cause: Cause)
    requires Accounted(s) && id in s.pending
    ensures Accounted(Settle(s, id, response, cause))
  {
    var t := Settle(s, id, response, cause);
    forall x | 1 <= x < t.nextMsgId && x !in t.pending ensures IsSettled(t, x) {
      if x == id {
        assert t.settled[|s.settled|].id == id;
      } else {
        assert IsSettled(s, x);
        var k :| 0 <= k < |s.settled| && s.settled[k].id == x;
        assert t.settled[k].id == x;
      }
    }
  }

  lemma SendAccounted(s: State, content: Content, connects: bool, posts: bool)
    requires Accounted(s)
    ensures Accounted(SendMessage(s, content, connects, posts).0)
  {
    if s.connected || connects {
      var w := SendMessage(s, content, connects, true).0;
      forall x | 1 <= x < w.nextMsgId && x !in w.pending ensures IsSettled(w, x) {
        assert IsSettled(s, x);
      }
      if !posts {
        var open := w.(channel := s.channel, connected := false);
        forall x | 1 <= x < open.nextMsgId && x !in open.pending ensures IsSettled(open, x) {
          assert IsSettled(s, x);
        }
        SettleAccounted(open, s.nextMsgId, Failure(POST_FAILED), ByPostFailure);
      }
    }
  }

  lemma {:induction false} SettleFromAccounted(s: State, id: nat)
    requires Accounted(s)
    ensures Accounted(SettleFrom(s, id))
    decreases s.nextMsgId - id
  {
    if id < s.nextMsgId {
      if id in s.pending {
        SettleAccounted(s, id, Failure(DISCONNECTED), ByDisconnect);
        SettleFromAccounted(Settle(s, id, Failure(DISCONNECTED), ByDisconnect), id + 1);
      } else {
        SettleFromAccounted(s, id + 1);
      }
    }
  }

  /** Losing the port leaves pending only what is below the first id settled. */
  lemma {:induction false} SettleFromPending(s: State, id: nat)
    requires forall x :: x in s.pending ==> x < s.nextMsgId
    ensures forall x :: x in SettleFrom(s, id).pending <==> x in s.pending && x < id
    decreases s.nextMsgId - id
  {
    if id < s.nextMsgId {
      SettleFromPending(if id in s.pending then Settle(s, id, Failure(DISCONNECTED), ByDisconnect) else s, id + 1);
    }
  }

  /** Each settlement is the work of an event of its own: the reply that names
      the id, the timer set for it, the loss of the port while it was pending, or
      the very call that failed to post it. */
  ghost predicate OwnEvent(s: State, e: Event, n: Settlement) {
    match n.cause
    case ByReply => e.Reply? && e.id == Some(n.id) && n.id in s.pending && n.response == e.response
    case ByTimeout =>
      e.TimerFires? && n.id in s.pending && s.pending[n.id] == e.timer && n.response == Failure(TIMEOUT)
    case ByDisconnect => e.PortLost? && n.id in s.pending && n.response == Failure(DISCONNECTED)
    case ByPostFailure => n.id == s.nextMsgId && n.response == Failure(POST_FAILED)
                          && (e.StartCall? || e.Resume? || e.PlainSend?) && !e.posts
  }

  lemma {:induction false} SettleFromHistory(s: State, id: nat)
    ensures var t := SettleFrom(s, id);
            && s.settled <= t.settled
            && t == s.(pending := t.pending, timers := t.timers, settled := t.settled)
            && forall k :: |s.settled| <= k < |t.settled| ==>
                 t.settled[k].id in s.pending && t.settled[k].cause == ByDisconnect
                 && t.settled[k].response == Failure(DISCONNECTED)
    decreases s.nextMsgId - id
  {
    if id < s.nextMsgId {
      var s1 := if id in s.pending then Settle(s, id, Failure(DISCONNECTED), ByDisconnect) else s;
      SettleFromHistory(s1, id + 1);
    }
  }

  /** What a step may add to the log, apart from the accounting itself. */
  ghost predicate Progress(s: State, e: Event, t: State) {
    && s.nextMsgId <= t.nextMsgId
    && s.settled <= t.settled
    && forall k :: |s.settled| <= k < |t.settled| ==> OwnEvent(s, e, t.settled[k])
  }

  /** Two states that differ only in what the accounting does not look at. */
  ghost predicate SameAccount(s: State, t: State) {
    s.nextMsgId == t.nextMsgId && s.pending == t.pending && s.timers == t.timers && s.nextTimer == t.nextTimer
    && s.settled == t.settled
  }

  lemma CarryAccount(s: State, t: State)
    requires Accounted(s) && SameAccount(s, t)
    ensures Accounted(t)
  {
    forall id | 1 <= id < t.nextMsgId && id !in t.pending ensures IsSettled(t, id) {
      assert IsSettled(s, id);
    }
  }

  /** Resuming a call either changes the call table only, or sends one message. */
  lemma ResumeShape(s: State, i: nat, connects: bool, posts: bool)
    ensures var t := ResumeRetry(s, i, connects, posts);
            || SameAccount(s, t)
            || SameAccount(SendMessage(DisconnectPort(s), Probe(i), connects, posts).0, t)
            || SameAccount(SendMessage(DisconnectPort(s), Action(i), connects, posts).0, t)
  {
  }

  lemma ResumeAccounted(s: State, i: nat, connects: bool, posts: bool)
    requires Accounted(s)
    ensures Accounted(ResumeRetry(s, i, connects, posts))
  {
    var t := ResumeRetry(s, i, connects, posts);
    var p := SendMessage(DisconnectPort(s), Probe(i), connects, posts).0;
    var a := SendMessage(DisconnectPort(s), Action(i), connects, posts).0;
    CarryAccount(s, DisconnectPort(s));
    SendAccounted(DisconnectPort(s), Probe(i), connects, posts);
    SendAccounted(DisconnectPort(s), Action(i), connects, posts);
    ResumeShape(s, i, connects, posts);
    if SameAccount(s, t) {
      CarryAccount(s, t);
    } else if SameAccount(p, t) {
      CarryAccount(p, t);
    } else {
      CarryAccount(a, t);
    }
  }

  lemma StepAccounted(s: State, e: Event)
    requires Accounted(s)
    ensures Accounted(Step(s, e))
  {
    match e
    case StartCall(_, connects, posts) =>
      SendAccounted(s, Action(|s.calls|), connects, posts);
      CarryAccount(SendMessage(s, Action(|s.calls|), connects, posts).0, Step(s, e));
    case PlainSend(connects, posts) => SendAccounted(s, Plain, connects, posts);
    case Reply(id, response) =>
      if id.Some? && id.value in s.pending {
        SettleAccounted(s, id.value, response, ByReply);
      }
    case TimerFires(timer) =>
      if timer in s.timers {
        SettleAccounted(s, s.timers[timer], Failure(TIMEOUT), ByTimeout);
      }
    case PortLost =>
      CarryAccount(s, DisconnectPort(s));
      SettleFromAccounted(DisconnectPort(s), 1);
    case Resume(i, connects, posts) => ResumeAccounted(s, i, connects, posts);
    case AppActs(_) => CarryAccount(s, Step(s, e));
  }

  /** Ids only grow, the log is never rewritten, and every new settlement is the
      work of its own event. */
  lemma StepProgress(s: State, e: Event)
    requires Accounted(s)
    ensures Progress(s, e, Step(s, e))
  {
    match e
    case PortLost => SettleFromHistory(DisconnectPort(s), 1);
    case Resume(i, connects, posts) => ResumeProgress(s, i, connects, posts);
    case _ =>
  }

  lemma ResumeProgress(s: State, i: nat, connects: bool, posts: bool)
    ensures Progress(s, Resume(i, connects, posts), ResumeRetry(s, i, connects, posts))
  {
    ResumeShape(s, i, connects, posts);
  }

  lemma {:induction false} RunConcat(s: State, a: seq<Event>, b: seq<Event>)
    ensures Run(s, a + b) == Run(Run(s, a), b)
    decreases |a|
  {
    if a == [] {
      assert a + b == b;
    } else {
      RunConcat(Step(s, a[0]), a[1..], b);
      assert (a + b)[1..] == a[1..] + b;
    }
  }

  /** Over every interleaving: the account stays balanced, ids are never reused
      and a settlement, once made, is never changed or repeated. */
  lemma {:induction false} EveryRunAccounted(s: State, events: seq<Event>)
    requires Accounted(s)
    ensures Accounted(Run(s, events))
    ensures s.nextMsgId <= Run(s, events).nextMsgId && s.settled <= Run(s, events).settled
    decreases |events|
  {
    if events != [] {
      StepAccounted(s, events[0]);
      StepProgress(s, events[0]);
      EveryRunAccounted(Step(s, events[0]), events[1..]);
    }
  }

  lemma RunFront(s: State, events: seq<Event>, j: nat)
    requires j < |events|
    ensures Run(s, events[..j + 1]) == Run(Step(s, events[0]), events[1..][..j])
  {
    assert events[..j + 1][1..] == events[1..][..j];
  }

  /** Event `j` of a run made the settlement at place `k`, and it is the event
      of that settlement. */
  ghost predicate SettledAt(s: State, events: seq<Event>, k: nat, n: Settlement, j: nat) {
    && j < |events|
    && OwnEvent(Run(s, events[..j]), events[j], n)
    && |Run(s, events[..j]).settled| <= k < |Run(s, events[..j + 1]).settled|
  }

  lemma SettledAtLater(s: State, events: seq<Event>, k: nat, n: Settlement, j: nat)
    requires events != [] && SettledAt(Step(s, events[0]), events[1..], k, n, j)
    ensures SettledAt(s, events, k, n, j + 1)
  {
    RunFront(s, events, j);
    RunFront(s, events, j + 1);
  }

  lemma SettledAtOnce(s: State, events: seq<Event>, k: nat)
    requires Accounted(s) && events != [] && |s.settled| <= k < |Step(s, events[0]).settled|
    ensures SettledAt(s, events, k, Step(s, events[0]).settled[k], 0)
  {
    StepProgress(s, events[0]);
    RunFront(s, events, 0);
  }

  /** The settlement at place `k` of a run was made at one event of the run, and
      that event is its own. */
  lemma {:induction false} SettledByOwnEvent(s: State, events: seq<Event>, k: nat) returns (j: nat)
    requires Accounted(s) && |s.settled| <= k < |Run(s, events).settled|
    ensures SettledAt(s, events, k, Run(s, events).settled[k], j)
    decreases |events|
  {
    var s1 := Step(s, events[0]);
    StepAccounted(s, events[0]);
    if k < |s1.settled| {
      EveryRunAccounted(s1, events[1..]);
      SettledAtOnce(s, events, k);
      j := 0;
    } else {
      var tail := SettledByOwnEvent(s1, events[1..], k);
      SettledAtLater(s, events, k, Run(s, events).settled[k], tail);
      j := tail + 1;
    }
  }

  // ---- retrying calls ------------------------------------------------------

  lemma {:induction false} LookupKeeps(a: seq<Settlement>, b: seq<Settlement>, id: nat)
    requires a <= b && Lookup(a, id).Some?
    ensures Lookup(b, id) == Lookup(a, id)
  {
    if a[0].id != id {
      LookupKeeps(a[1..], b[1..], id);
    }
  }

  lemma {:induction false} LookupIsEntry(settled: seq<Settlement>, id: nat) returns (k: nat)
    requires Lookup(settled, id).Some?
    ensures k < |settled| && settled[k].id == id && Lookup(settled, id) == Some(settled[k].response)
  {
    if settled[0].id == id {
      k := 0;
    } else {
      k := LookupIsEntry(settled[1..], id);
      k := k + 1;
    }
  }

  predicate Failed(settled: seq<Settlement>, a: Attempt) {
    Answer(settled, a).Some? && !Answer(settled, a).value.success
  }

  predicate AttemptBelow(a: Attempt, next: nat) { a.Issued? ==> a.id < next }

  predicate Earlier(a: Attempt, b: Attempt) { a.Issued? && b.Issued? ==> a.id < b.id }

  /** What a returned call reports, given the answer to its last attempt. */
  function Verdict(c: Call, r: ApiResponse): ApiResponse {
    if c.second.None? && c.probe.Some? then ApiResponse(true, Some(RECONNECTED)) else r
  }

  /** Why each attempt of a call was made. */
  predicate CallOk(settled: seq<Settlement>, next: nat, c: Call) {
    && AttemptBelow(c.first, next)
    && (c.probe.Some? ==>
          && !c.isPing && AttemptBelow(c.probe.value, next) && Earlier(c.first, c.probe.value)
          && Failed(settled, c.first) && MaybeDelivered(Answer(settled, c.first).value))
    && (c.second.Some? ==>
          && AttemptBelow(c.second.value, next) && Earlier(c.first, c.second.value)
          && Failed(settled, c.first) && Retryable(Answer(settled, c.first).value)
          && (if c.probe.Some? then Failed(settled, c.probe.value) && Earlier(c.probe.value, c.second.value)
              else c.isPing || Answer(settled, c.first).value.message == Some(POST_FAILED)))
    && (c.result.Some? ==>
          && Answer(settled, Awaited(c)).Some?
          && (var r := Answer(settled, Awaited(c)).value;
              && c.result.value == Verdict(c, r)
              && (c.second.None? && c.probe.Some? ==> r.success)
              && (c.second.None? && c.probe.None? ==> r.success || !Retryable(r))))
  }

  /** The frame `f` is one that the calls made so far account for. */
  predicate FrameOk(calls: seq<Call>, f: Frame) {
    match f.content
    case Action(i) => i < |calls| && (calls[i].first == Issued(f.id) || calls[i].second == Some(Issued(f.id)))
    case Probe(i) => i < |calls| && calls[i].probe == Some(Issued(f.id))
    case Plain => true
  }

  ghost predicate InChannel(channel: seq<Frame>, id: nat) {
    exists k :: 0 <= k < |channel| && channel[k].id == id
  }

  ghost predicate ChannelOk(s: State) {
    && (forall k :: 0 <= k < |s.channel| ==> s.channel[k].id < s.nextMsgId && FrameOk(s.calls, s.channel[k]))
    && (forall j, k :: 0 <= j < k < |s.channel| ==> s.channel[j].id != s.channel[k].id)
    && (forall k :: 0 <= k < |s.settled| && s.settled[k].cause == ByPostFailure ==>
          !InChannel(s.channel, s.settled[k].id))
    && (forall k :: 0 <= k < |s.settled| && s.settled[k].cause != ByReply ==>
          (s.settled[k].response == Failure(POST_FAILED) <==> s.settled[k].cause == ByPostFailure))
    && (forall id :: id in s.handled ==> InChannel(s.channel, id))
  }

  ghost predicate Good(s: State) {
    && Accounted(s)
    && ChannelOk(s)
    && forall i :: 0 <= i < |s.calls| ==> CallOk(s.settled, s.nextMsgId, s.calls[i])
  }

  lemma AnswerKeeps(a: seq<Settlement>, b: seq<Settlement>, t: Attempt)
    requires a <= b && Answer(a, t).Some?
    ensures Answer(b, t) == Answer(a, t)
  {
    if t.Issued? {
      LookupKeeps(a, b, t.id);
    }
  }

  /** More settlements and more ids leave every reason standing. */
  lemma CallOkKeeps(a: seq<Settlement>, b: seq<Settlement>, n: nat, m: nat, c: Call)
    requires CallOk(a, n, c) && a <= b && n <= m
    ensures CallOk(b, m, c)
  {
    if Answer(a, c.first).Some? { AnswerKeeps(a, b, c.first); }
    if c.probe.Some? && Answer(a, c.probe.value).Some? { AnswerKeeps(a, b, c.probe.value); }
    if Answer(a, Awaited(c)).Some? { AnswerKeeps(a, b, Awaited(c)); }
  }

  lemma CallsKeep(s: State, t: State)
    requires Good(s) && s.settled <= t.settled && s.nextMsgId <= t.nextMsgId
    ensures forall i :: 0 <= i < |s.calls| ==> CallOk(t.settled, t.nextMsgId, s.calls[i])
  {
    forall i | 0 <= i < |s.calls| ensures CallOk(t.settled, t.nextMsgId, s.calls[i]) {
      CallOkKeeps(s.settled, t.settled, s.nextMsgId, t.nextMsgId, s.calls[i]);
    }
  }

  /** One settlement of a pending id keeps the channel in order, provided that
      only replies may carry the post-failure text. */
  lemma SettleChannel(s: State, id: nat, response: ApiResponse, cause: Cause)
    requires ChannelOk(s) && id in s.pending && cause != ByPostFailure
    requires cause != ByReply ==> response != Failure(POST_FAILED)
    ensures ChannelOk(Settle(s, id, response, cause))
  {
  }

  lemma {:induction false} SettleFromChannel(s: State, id: nat)
    requires ChannelOk(s)
    ensures ChannelOk(SettleFrom(s, id))
    decreases s.nextMsgId - id
  {
    if id < s.nextMsgId {
      if id in s.pending {
        SettleChannel(s, id, Failure(DISCONNECTED), ByDisconnect);
        SettleFromChannel(Settle(s, id, Failure(DISCONNECTED), ByDisconnect), id + 1);
      } else {
        SettleFromChannel(s, id + 1);
      }
    }
  }

  /** Sending, and recording in the call table what was sent. */
  lemma SendChannel(s: State, content: Content, connects: bool, posts: bool, calls: seq<Call>)
    requires Accounted(s) && ChannelOk(s)
    requires forall k :: 0 <= k < |s.channel| ==> FrameOk(calls, s.channel[k])
    requires var a := SendMessage(s, content, connects, posts).1; a.Issued? ==> FrameOk(calls, Frame(a.id, content))
    ensures ChannelOk(SendMessage(s, content, connects, posts).0.(calls := calls))
  {
    var (w, a) := SendMessage(s, content, connects, posts);
    var t := w.(calls := calls);
    if a.Issued? {
      forall id | id in t.handled ensures InChannel(t.channel, id) {
        var k :| 0 <= k < |s.channel| && s.channel[k].id == id;
        assert t.channel[k].id == id;
      }
      assert forall k :: 0 <= k < |s.settled| ==> t.settled[k] == s.settled[k];
      forall k | 0 <= k < |t.settled| && t.settled[k].cause == ByPostFailure
        ensures !InChannel(t.channel, t.settled[k].id)
      {
        if k < |s.settled| {
          assert !InChannel(s.channel, s.settled[k].id);
        }
      }
    } else {
      assert t.channel == s.channel && t.settled == s.settled;
    }
  }

  lemma StartGood(s: State, isPing: bool, connects: bool, posts: bool)
    requires Good(s)
    ensures Good(StartRetry(s, isPing, connects, posts))
  {
    var t := StartRetry(s, isPing, connects, posts);
    StepAccounted(s, StartCall(isPing, connects, posts));
    SendChannel(s, Action(|s.calls|), connects, posts, t.calls);
    CallsKeep(s, t);
  }

  lemma ResendChannel(s: State, content: Content, connects: bool, posts: bool, calls: seq<Call>)
    requires Accounted(s) && ChannelOk(s)
    requires forall k :: 0 <= k < |s.channel| ==> FrameOk(calls, s.channel[k])
    requires var a := Resend(s, content, connects, posts).1; a.Issued? ==> FrameOk(calls, Frame(a.id, content))
    ensures ChannelOk(Resend(s, content, connects, posts).0.(calls := calls))
  {
    var d := DisconnectPort(s);
    CarryAccount(s, d);
    assert ChannelOk(d);
    SendChannel(d, content, connects, posts, calls);
  }

  lemma ResumeChannel(s: State, i: nat, connects: bool, posts: bool)
    requires Accounted(s) && ChannelOk(s)
    ensures ChannelOk(ResumeRetry(s, i, connects, posts))
  {
    if i < |s.calls| {
      var t := ResumeRetry(s, i, connects, posts);
      match NextMove(s.settled, s.calls[i])
      case Stay =>
      case Return(_) =>
      case AskAlive => RecordedFrames(s, i, t.calls[i]); ResendChannel(s, Probe(i), connects, posts, t.calls);
      case SendAgain => RecordedFrames(s, i, t.calls[i]); ResendChannel(s, Action(i), connects, posts, t.calls);
    }
  }

  /** Filling in a later attempt of one call disowns no frame. */
  lemma RecordedFrames(s: State, i: nat, c: Call)
    requires ChannelOk(s) && i < |s.calls|
    requires c.first == s.calls[i].first
    requires s.calls[i].probe.Some? ==> c.probe == s.calls[i].probe
    requires s.calls[i].second.Some? ==> c.second == s.calls[i].second
    ensures forall k :: 0 <= k < |s.channel| ==> FrameOk(s.calls[i := c], s.channel[k])
  {
  }

  /** The resumed call has a reason for what it did. */
  lemma ResumedCallOk(s: State, i: nat, connects: bool, posts: bool)
    requires i < |s.calls| && CallOk(s.settled, s.nextMsgId, s.calls[i])
    ensures var t := ResumeRetry(s, i, connects, posts);
            && s.settled <= t.settled && s.nextMsgId <= t.nextMsgId
            && |t.calls| == |s.calls| && t.calls == s.calls[i := t.calls[i]]
            && CallOk(t.settled, t.nextMsgId, t.calls[i])
  {
    var c := s.calls[i];
    match NextMove(s.settled, c)
    case Stay =>
    case Return(_) =>
    case AskAlive => SentCallOk(s, Probe(i), connects, posts, c);
    case SendAgain => SentCallOk(s, Action(i), connects, posts, c);
  }

  lemma SentCallOk(s: State, content: Content, connects: bool, posts: bool, c: Call)
    requires CallOk(s.settled, s.nextMsgId, c) && Answer(s.settled, Awaited(c)).Some?
    ensures var (t, a) := Resend(s, content, connects, posts);
            && s.settled <= t.settled && s.nextMsgId <= t.nextMsgId
            && CallOk(t.settled, t.nextMsgId, c) && AttemptBelow(a, t.nextMsgId)
            && Earlier(c.first, a) && (c.probe.Some? ==> Earlier(c.probe.value, a))
            && Answer(t.settled, Awaited(c)) == Answer(s.settled, Awaited(c))
  {
    var t := Resend(s, content, connects, posts).0;
    CallOkKeeps(s.settled, t.settled, s.nextMsgId, t.nextMsgId, c);
    AnswerKeeps(s.settled, t.settled, Awaited(c));
  }

  lemma ResumeGood(s: State, i: nat, connects: bool, posts: bool)
    requires Good(s)
    ensures Good(ResumeRetry(s, i, connects, posts))
  {
    var t := ResumeRetry(s, i, connects, posts);
    ResumeAccounted(s, i, connects, posts);
    ResumeChannel(s, i, connects, posts);
    if i < |s.calls| {
      ResumedCallOk(s, i, connects, posts);
      CallsKeep(s, t);
    }
  }

  lemma StepGood(s: State, e: Event)
    requires Good(s)
    ensures Good(Step(s, e))
  {
    StepAccounted(s, e);
    StepProgress(s, e);
    match e
    case StartCall(isPing, connects, posts) => StartGood(s, isPing, connects, posts);
    case Resume(i, connects, posts) => ResumeGood(s, i, connects, posts);
    case PlainSend(connects, posts) =>
      SendChannel(s, Plain, connects, posts, s.calls);
      CallsKeep(s, Step(s, e));
    case Reply(id, response) =>
      if id.Some? && id.value in s.pending {
        SettleChannel(s, id.value, response, ByReply);
      }
      CallsKeep(s, Step(s, e));
    case TimerFires(timer) =>
      if timer in s.timers {
        SettleChannel(s, s.timers[timer], Failure(TIMEOUT), ByTimeout);
      }
      CallsKeep(s, Step(s, e));
    case PortLost =>
      SettleFromChannel(DisconnectPort(s), 1);
      SettleFromHistory(DisconnectPort(s), 1);
      CallsKeep(s, Step(s, e));
    case AppActs(id) => CallsKeep(s, Step(s, e));
  }

  lemma {:induction false} EveryRunGood(s: State, events: seq<Event>)
    requires Good(s)
    ensures Good(Run(s, events))
    decreases |events|
  {
    if events != [] {
      StepGood(s, events[0]);
      EveryRunGood(Step(s, events[0]), events[1..]);
    }
  }

  // ---- posts ---------------------------------------------------------------------

  /** Every post has an id of its own and a call that accounts for it, in the
      order of the call's attempts; what entered the channel was posted. */
  ghost predicate Posted(s: State) {
    && (forall k :: 0 <= k < |s.posted| ==> s.posted[k].id < s.nextMsgId && FrameOk(s.calls, s.posted[k]))
    && (forall j, k :: 0 <= j < k < |s.posted| ==> s.posted[j].id < s.posted[k].id)
    && (forall k :: 0 <= k < |s.channel| ==> s.channel[k] in s.posted)
  }

  lemma SendPosted(s: State, content: Content, connects: bool, posts: bool, calls: seq<Call>)
    requires Posted(s) && forall k :: 0 <= k < |s.posted| ==> FrameOk(calls, s.posted[k])
    requires var a := SendMessage(s, content, connects, posts).1; a.Issued? ==> FrameOk(calls, Frame(a.id, content))
    ensures Posted(SendMessage(s, content, connects, posts).0.(calls := calls))
  {
    var t := SendMessage(s, content, connects, posts).0;
    assert forall k :: 0 <= k < |s.posted| ==> t.posted[k] == s.posted[k];
    forall k | 0 <= k < |t.channel| ensures t.channel[k] in t.posted {
      if k < |s.channel| {
        assert s.channel[k] in s.posted;
      } else {
        assert t.channel[k] == t.posted[|s.posted|];
      }
    }
  }

  lemma PostsStayOwned(s: State, i: nat, c: Call)
    requires Posted(s) && i < |s.calls|
    requires c.first == s.calls[i].first
    requires s.calls[i].probe.Some? ==> c.probe == s.calls[i].probe
    requires s.calls[i].second.Some? ==> c.second == s.calls[i].second
    ensures forall k :: 0 <= k < |s.posted| ==> FrameOk(s.calls[i := c], s.posted[k])
  {
  }

  lemma ResendPosted(s: State, content: Content, connects: bool, posts: bool, calls: seq<Call>)
    requires Posted(s) && forall k :: 0 <= k < |s.posted| ==> FrameOk(calls, s.posted[k])
    requires var a := Resend(s, content, connects, posts).1; a.Issued? ==> FrameOk(calls, Frame(a.id, content))
    ensures Posted(Resend(s, content, connects, posts).0.(calls := calls))
  {
    var d := DisconnectPort(s);
    assert Posted(d);
    SendPosted(d, content, connects, posts, calls);
  }

  /** Recording what was just sent for call `i` keeps every post accounted for. */
  lemma RecordedPosted(s: State, content: Content, connects: bool, posts: bool, i: nat, c: Call)
    requires Posted(s) && i < |s.calls|
    requires c.first == s.calls[i].first
    requires s.calls[i].probe.Some? ==> c.probe == s.calls[i].probe
    requires s.calls[i].second.Some? ==> c.second == s.calls[i].second
    requires var a := Resend(s, content, connects, posts).1;
             (content == Probe(i) && c.probe == Some(a)) || (content == Action(i) && c.second == Some(a))
    ensures Posted(Resend(s, content, connects, posts).0.(calls := s.calls[i := c]))
  {
    PostsStayOwned(s, i, c);
    ResendPosted(s, content, connects, posts, s.calls[i := c]);
  }

  lemma ResumePosted(s: State, i: nat, connects: bool, posts: bool)
    requires Posted(s) && i < |s.calls|
    ensures Posted(ResumeRetry(s, i, connects, posts))
  {
    var c := s.calls[i];
    match NextMove(s.settled, c)
    case Stay =>
    case Return(r) => PostsStayOwned(s, i, c.(result := Some(r)));
    case AskAlive =>
      RecordedPosted(s, Probe(i), connects, posts, i, c.(probe := Some(Resend(s, Probe(i), connects, posts).1)));
    case SendAgain =>
      RecordedPosted(s, Action(i), connects, posts, i, c.(second := Some(Resend(s, Action(i), connects, posts).1)));
  }

  lemma StepPosted(s: State, e: Event)
    requires Posted(s)
    ensures Posted(Step(s, e))
  {
    match e
    case StartCall(_, connects, posts) => SendPosted(s, Action(|s.calls|), connects, posts, Step(s, e).calls);
    case Resume(i, connects, posts) =>
      if i < |s.calls| {
        ResumePosted(s, i, connects, posts);
      }
    case PlainSend(connects, posts) => SendPosted(s, Plain, connects, posts, s.calls);
    case PortLost => SettleFromHistory(DisconnectPort(s), 1);
    case _ =>
  }

  lemma {:induction false} EveryRunPosted(s: State, events: seq<Event>)
    requires Posted(s)
    ensures Posted(Run(s, events))
    decreases |events|
  {
    if events != [] {
      StepPosted(s, events[0]);
      EveryRunPosted(Step(s, events[0]), events[1..]);
    }
  }

  lemma ReachableGood(events: seq<Event>)
    ensures Good(Run(INITIAL, events))
  {
    EveryRunGood(INITIAL, events);
  }
}
