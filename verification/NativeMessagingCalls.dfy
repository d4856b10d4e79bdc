/** What the native-messaging client does, in its own words: each finished call
    against the answers it got, and each event as it is seen from outside. */
module NativeMessagingCalls {
  import opened Wrappers
  import opened NativeMessaging

  /** An answer after which the action may be tried again. */
  predicate Transient(r: ApiResponse) {
    && !r.success && r.message.Some?
    && r.message.value in {"port disconnected", "postMessage failed", "app_not_running", "timeout"}
  }

  /** One that leaves open whether the App got the action. */
  predicate LeavesOpen(r: ApiResponse) {
    Transient(r) && r.message.value != "postMessage failed"
  }

  /** What a finished call has done, given the answers to its attempts: it asks
      whether the App is alive exactly when the first answer leaves that open and
      it is no ping itself, it tries again exactly when the first answer is
      transient and no probe succeeded, and it returns the last answer, or its
      own text after a successful probe. */
  predicate Followed(c: Call, first: ApiResponse, probe: Option<ApiResponse>, second: Option<ApiResponse>) {
    && (c.probe.Some? <==> LeavesOpen(first) && !c.isPing)
    && (c.probe.Some? ==> probe.Some?)
    && (c.second.Some? <==> Transient(first) && !(c.probe.Some? && probe.Some? && probe.value.success))
    && c.result == if c.second.Some? then second
                   else if c.probe.Some? then
                     Some(ApiResponse(true, Some("delivered (reconnected after transient failure)")))
                   else Some(first)
  }

  function AnswerTo(settled: seq<Settlement>, a: Option<Attempt>): Option<ApiResponse> {
    if a.Some? then Answer(settled, a.value) else None
  }

  /** In every run each finished call has done exactly that, however many calls
      were interleaved with it. */
  lemma FinishedCall(events: seq<Event>, i: nat)
    requires var s := Run(INITIAL, events); i < |s.calls| && s.calls[i].result.Some?
    ensures var s := Run(INITIAL, events);
            var c := s.calls[i];
            && Answer(s.settled, c.first).Some?
            && var first, probe := Answer(s.settled, c.first).value, AnswerTo(s.settled, c.probe);
               Followed(c, first, probe, AnswerTo(s.settled, c.second))
  {
    ReachableGood(events);
  }

  /** The attempt made last. */
  function Latest(c: Call): Attempt {
    if c.second.Some? then c.second.value else if c.probe.Some? then c.probe.value else c.first
  }

  /** A call whose latest attempt is answered goes on when it is resumed: it
      returns, or it makes the next attempt; and it never goes on before. */
  lemma ResumedGoesOn(events: seq<Event>, i: nat, connects: bool, posts: bool)
    requires i < |Run(INITIAL, events).calls|
    ensures var s := Run(INITIAL, events);
            var c := s.calls[i];
            var d := Step(s, Resume(i, connects, posts)).calls[i];
            if c.result.Some? || Answer(s.settled, Latest(c)).None? then d == c
            else || (d.result.Some? && d == c.(result := d.result))
                 || (c.probe.None? && c.second.None? && d.probe.Some? && d == c.(probe := d.probe))
                 || (c.second.None? && d.second.Some? && d == c.(second := d.second))
  {
  }

  // ---- one event, seen from outside ----------------------------------------------

  ghost predicate AnsweredWith(s: State, id: nat, r: ApiResponse) {
    id !in s.pending && Lookup(s.settled, id) == Some(r)
  }

  lemma {:induction false} LookupAppended(settled: seq<Settlement>, n: Settlement)
    requires forall k :: 0 <= k < |settled| ==> settled[k].id != n.id
    ensures Lookup(settled + [n], n.id) == Some(n.response)
  {
    if settled != [] {
      LookupAppended(settled[1..], n);
      assert (settled + [n])[1..] == settled[1..] + [n];
    }
  }

  lemma SettleAnswers(s: State, id: nat, response: ApiResponse, cause: Cause)
    requires Accounted(s) && id in s.pending
    ensures AnsweredWith(Settle(s, id, response, cause), id, response)
  {
    LookupAppended(s.settled, Settlement(id, response, cause));
  }

  lemma AnsweredStays(s: State, from: nat, id: nat, r: ApiResponse)
    requires AnsweredWith(s, id, r) && forall x :: x in s.pending ==> x < s.nextMsgId
    ensures AnsweredWith(SettleFrom(s, from), id, r)
  {
    SettleFromHistory(s, from);
    SettleFromPending(s, from);
    LookupKeeps(s.settled, SettleFrom(s, from).settled, id);
  }

  lemma {:induction false} SettleFromAnswers(s: State, from: nat, id: nat)
    requires Accounted(s) && id in s.pending && from <= id
    ensures AnsweredWith(SettleFrom(s, from), id, Failure(DISCONNECTED))
    decreases s.nextMsgId - from
  {
    if from in s.pending {
      var t := Settle(s, from, Failure(DISCONNECTED), ByDisconnect);
      SettleAccounted(s, from, Failure(DISCONNECTED), ByDisconnect);
      if from == id {
        SettleAnswers(s, id, Failure(DISCONNECTED), ByDisconnect);
        AnsweredStays(t, from + 1, id, Failure(DISCONNECTED));
      } else {
        SettleFromAnswers(t, from + 1, id);
      }
    } else {
      SettleFromAnswers(s, from + 1, id);
    }
  }

  /** Each pending request has a timer, and in every reachable state a reply that
      names it, that timer, or the loss of the port ends it, each in its words;
      the first two end no other request, the last one ends them all. */
  lemma EventsSettle(events: seq<Event>, id: nat, response: ApiResponse)
    requires id in Run(INITIAL, events).pending
    ensures var s := Run(INITIAL, events);
            var replied, late, lost :=
              Step(s, Reply(Some(id), response)), Step(s, TimerFires(s.pending[id])), Step(s, PortLost);
            && AnsweredWith(replied, id, response) && replied.pending == s.pending - {id}
            && s.pending[id] in s.timers
            && AnsweredWith(late, id, ApiResponse(false, Some("timeout"))) && late.pending == s.pending - {id}
            && AnsweredWith(lost, id, ApiResponse(false, Some("port disconnected"))) && lost.pending == map[]
  {
    var s := Run(INITIAL, events);
    ReachableGood(events);
    SettleAnswers(s, id, response, ByReply);
    SettleAnswers(s, id, Failure(TIMEOUT), ByTimeout);
    var d := DisconnectPort(s);
    CarryAccount(s, d);
    SettleFromAnswers(d, 1, id);
    SettleFromPending(d, 1);
  }

  /** What a send does: without a port nothing leaves; otherwise one frame under
      the next id is handed over, and it enters the channel and waits for its
      answer under a new timer, or the post fails, which ends it and the port. */
  ghost predicate SentOne(s: State, t: State, content: Content, reachable: bool, posts: bool, a: Attempt) {
    if !reachable then
      && a == NoPort && Answer(t.settled, a) == Some(ApiResponse(false, Some("native_messaging_unavailable")))
      && !t.connected && t.posted == s.posted && t.channel == s.channel && t.pending == s.pending
      && t.nextMsgId == s.nextMsgId && t.settled == s.settled
    else
      && a == Issued(s.nextMsgId) && t.nextMsgId == s.nextMsgId + 1 && t.connected == posts
      && t.posted == s.posted + [Frame(s.nextMsgId, content)]
      && t.channel == (if posts then s.channel + [Frame(s.nextMsgId, content)] else s.channel)
      && t.pending.Keys == s.pending.Keys + (if posts then {s.nextMsgId} else {})
      && (if posts then Answer(t.settled, a).None?
          else Answer(t.settled, a) == Some(ApiResponse(false, Some("postMessage failed"))))
  }

  lemma SendSends(s: State, content: Content, connects: bool, posts: bool)
    requires Accounted(s)
    ensures var (t, a) := SendMessage(s, content, connects, posts);
            SentOne(s, t, content, s.connected || connects, posts, a)
  {
    var (t, a) := SendMessage(s, content, connects, posts);
    if a.Issued? {
      if posts {
        if Lookup(t.settled, a.id).Some? {
          var k := LookupIsEntry(t.settled, a.id);
        }
        assert t.pending.Keys == s.pending.Keys + {s.nextMsgId};
      } else {
        LookupAppended(s.settled, Settlement(a.id, Failure(POST_FAILED), ByPostFailure));
        assert t.pending == s.pending;
      }
    }
  }

  /** A new call sends its action over the port there is or a new one. */
  lemma StartSends(events: seq<Event>, isPing: bool, connects: bool, posts: bool)
    ensures var s := Run(INITIAL, events);
            var t := Step(s, StartCall(isPing, connects, posts));
            var n := |s.calls|;
            && |t.calls| == n + 1 && t.calls[..n] == s.calls
            && t.calls[n] == Call(isPing, t.calls[n].first, None, None, None)
            && SentOne(s, t, Action(n), s.connected || connects, posts, t.calls[n].first)
  {
    ReachableGood(events);
    var s := Run(INITIAL, events);
    SendSends(s, Action(|s.calls|), connects, posts);
  }

  /** Other traffic is sent likewise, and no call is touched. */
  lemma PlainSends(events: seq<Event>, connects: bool, posts: bool) returns (a: Attempt)
    ensures var s := Run(INITIAL, events);
            var t := Step(s, PlainSend(connects, posts));
            t.calls == s.calls && SentOne(s, t, Plain, s.connected || connects, posts, a)
  {
    ReachableGood(events);
    a := SendMessage(Run(INITIAL, events), Plain, connects, posts).1;
    SendSends(Run(INITIAL, events), Plain, connects, posts);
  }

  lemma AskingSends(s: State, i: nat, connects: bool, posts: bool)
    requires Accounted(s) && i < |s.calls| && NextMove(s.settled, s.calls[i]) == AskAlive
    ensures var t := ResumeRetry(s, i, connects, posts);
            && t.calls[i].probe.Some? && s.calls[i].probe.None?
            && SentOne(s, t, Probe(i), connects, posts, t.calls[i].probe.value)
  {
    CarryAccount(s, DisconnectPort(s));
    SendSends(DisconnectPort(s), Probe(i), connects, posts);
  }

  lemma SendingAgain(s: State, i: nat, connects: bool, posts: bool)
    requires Accounted(s) && i < |s.calls| && NextMove(s.settled, s.calls[i]) == SendAgain
    ensures var t := ResumeRetry(s, i, connects, posts);
            && t.calls[i].probe == s.calls[i].probe && t.calls[i].second.Some? && s.calls[i].second.None?
            && SentOne(s, t, Action(i), connects, posts, t.calls[i].second.value)
  {
    CarryAccount(s, DisconnectPort(s));
    SendSends(DisconnectPort(s), Action(i), connects, posts);
  }

  /** A probe or a second attempt first drops the port, so it goes over a new
      one or not at all; and a resumed call sends nothing else. */
  lemma ResumeSends(events: seq<Event>, i: nat, connects: bool, posts: bool)
    requires i < |Run(INITIAL, events).calls|
    ensures var s := Run(INITIAL, events);
            var t := Step(s, Resume(i, connects, posts));
            var c, d := s.calls[i], t.calls[i];
            if d.probe != c.probe then d.probe.Some? && SentOne(s, t, Probe(i), connects, posts, d.probe.value)
            else if d.second != c.second then
              d.second.Some? && SentOne(s, t, Action(i), connects, posts, d.second.value)
            else t == s.(calls := t.calls)
  {
    ReachableGood(events);
    var s := Run(INITIAL, events);
    match NextMove(s.settled, s.calls[i])
    case Stay =>
    case Return(_) =>
    case AskAlive => AskingSends(s, i, connects, posts);
    case SendAgain => SendingAgain(s, i, connects, posts);
  }
}
