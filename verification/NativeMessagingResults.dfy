/** What every run of the native-messaging client guarantees about an action: how
    often it is posted and why, how often the App may act on it, and what a
    reported success is worth. */
module NativeMessagingResults {
  import opened Wrappers
  import opened NativeMessaging

  /** The places among all posts at which the action of call `i` was posted,
      whether or not the post failed. */
  ghost function ActionPosts(s: State, i: nat): set<nat> {
    set k | 0 <= k < |s.posted| && s.posted[k].content == Action(i)
  }

  /** The message ids under which the action of call `i` entered the channel. */
  ghost function ActionIds(s: State, i: nat): set<nat> {
    set k | 0 <= k < |s.channel| && s.channel[k].content == Action(i) :: s.channel[k].id
  }

  /** As many places as ids, when no id is posted twice. */
  lemma {:induction false} PlacesAreIds(posted: seq<Frame>, places: set<nat>, ids: set<nat>)
    requires forall j, k :: 0 <= j < k < |posted| ==> posted[j].id != posted[k].id
    requires forall k :: k in places ==> k < |posted| && posted[k].id in ids
    ensures |places| <= |ids|
  {
    if places != {} {
      var k :| k in places;
      PlacesAreIds(posted, places - {k}, ids - {posted[k].id});
    }
  }

  /** In every run, a call hands its action to postMessage at most twice. */
  lemma PostedAtMostTwice(events: seq<Event>, i: nat)
    requires i < |Run(INITIAL, events).calls|
    ensures |ActionPosts(Run(INITIAL, events), i)| <= 2
  {
    EveryRunPosted(INITIAL, events);
    var s := Run(INITIAL, events);
    var c := s.calls[i];
    var first := if c.first.Issued? then {c.first.id} else {};
    var second := if c.second.Some? && c.second.value.Issued? then {c.second.value.id} else {};
    PlacesAreIds(s.posted, ActionPosts(s, i), first + second);
  }

  /** The other side answered a request in the client's own words for a frame
      that never left. The client cannot tell the two apart. */
  ghost predicate AnsweredAsUnposted(s: State, a: Attempt) {
    a.Issued? && exists k :: 0 <= k < |s.settled| && s.settled[k].id == a.id && s.settled[k].cause == ByReply
                             && s.settled[k].response.message == Some(POST_FAILED)
  }

  /** In every run, a call other than a ping tries its action a second time only
      after the first post never entered the channel, or after a failed probe
      (or after such a misleading answer). */
  lemma SecondPostReason(events: seq<Event>, i: nat)
    requires var s := Run(INITIAL, events);
             i < |s.calls| && !s.calls[i].isPing && s.calls[i].second.Some?
    ensures var s := Run(INITIAL, events);
            var c := s.calls[i];
            || (c.first.Issued? && !InChannel(s.channel, c.first.id))
            || (c.probe.Some? && Failed(s.settled, c.probe.value))
            || AnsweredAsUnposted(s, c.first)
  {
    ReachableGood(events);
    var s := Run(INITIAL, events);
    var c := s.calls[i];
    if c.probe.None? {
      var n := LookupIsEntry(s.settled, c.first.id);
    }
  }

  /** What is posted twice was posted first by the call's first attempt and then
      by its second, so the reasons above are the reasons of the second post. */
  lemma PostedTwiceIsRetried(events: seq<Event>, i: nat, j: nat, k: nat)
    requires var s := Run(INITIAL, events);
             && i < |s.calls| && j < k < |s.posted| && s.posted[j].content == s.posted[k].content == Action(i)
    ensures var s := Run(INITIAL, events);
            var c := s.calls[i];
            c.first == Issued(s.posted[j].id) && c.second == Some(Issued(s.posted[k].id))
  {
    ReachableGood(events);
    EveryRunPosted(INITIAL, events);
  }

  /** So a second copy in the channel means a failed probe (or such an answer). */
  lemma SecondCopyReason(events: seq<Event>, i: nat, j: nat, k: nat)
    requires var s := Run(INITIAL, events);
             && i < |s.calls| && !s.calls[i].isPing && j < k < |s.channel|
             && s.channel[j].content == s.channel[k].content == Action(i)
    ensures var s := Run(INITIAL, events);
            var c := s.calls[i];
            && (c.first == Issued(s.channel[j].id) || c.first == Issued(s.channel[k].id))
            && ((c.probe.Some? && Failed(s.settled, c.probe.value)) || AnsweredAsUnposted(s, c.first))
  {
    ReachableGood(events);
    var s := Run(INITIAL, events);
    SecondPostReason(events, i);
    assert InChannel(s.channel, s.calls[i].first.id);
  }

  /** The code's premise for call `i`: when its probe fails the first copy is
      never acted on, and nobody imitates the post-failure text. */
  ghost predicate Premise(s: State, i: nat)
    requires i < |s.calls|
  {
    var c := s.calls[i];
    && (c.probe.Some? && Failed(s.settled, c.probe.value) && c.first.Issued? ==> c.first.id !in s.handled)
    && !AnsweredAsUnposted(s, c.first)
  }

  /** Under that premise, in every run, the App acts on an action at most once. */
  lemma ActedOnAtMostOnce(events: seq<Event>, i: nat)
    requires var s := Run(INITIAL, events); i < |s.calls| && !s.calls[i].isPing && Premise(s, i)
    ensures var s := Run(INITIAL, events); |s.handled * ActionIds(s, i)| <= 1
  {
    ReachableGood(events);
    var s := Run(INITIAL, events);
    var both := s.handled * ActionIds(s, i);
    forall a, b | a in both && b in both ensures a == b {
      var j :| 0 <= j < |s.channel| && s.channel[j].content == Action(i) && s.channel[j].id == a;
      var k :| 0 <= k < |s.channel| && s.channel[k].content == Action(i) && s.channel[k].id == b;
      if j < k {
        SecondCopyReason(events, i, j, k);
      } else if k < j {
        SecondCopyReason(events, i, k, j);
      }
    }
    if both != {} {
      var a :| a in both;
      SubsetSize(both, {a});
    }
  }

  /** A slow App: it acts on the action after the client has given up on it. */
  lemma SlowApp(events: seq<Event>) returns (s: State)
    requires events == [StartCall(false, true, true), AppActs(1), TimerFires(0), Resume(0, true, true)]
    ensures s == Run(INITIAL, events)
    ensures s.handled == {1} && s.channel == [Frame(1, Action(0)), Frame(2, Probe(0))]
    ensures s.settled == [Settlement(1, Failure(TIMEOUT), ByTimeout)]
    ensures s.calls == [Call(false, Issued(1), Some(Issued(2)), None, None)]
    ensures s.nextMsgId == 3 && 1 in s.timers && s.timers[1] == 2 && 2 in s.pending && s.pending[2] == 1
  {
    var s1 := Step(INITIAL, events[0]);
    assert s1.channel == [Frame(1, Action(0))];
    var s2 := Step(s1, events[1]);
    assert s1.channel[0].id == 1 && s2.handled == {1};
    var s3 := Step(s2, events[2]);
    assert s3.settled == [Settlement(1, Failure(TIMEOUT), ByTimeout)];
    s := Step(s3, events[3]);
    Peel(INITIAL, events, 0); Peel(s1, events, 1); Peel(s2, events, 2); Peel(s3, events, 3);
    assert events[0..] == events && events[4..] == [];
  }

  /** The probe times out as well; the action is sent, and acted on, again. */
  lemma SlowProbe(s: State, events: seq<Event>) returns (t: State)
    requires events == [TimerFires(1), Resume(0, true, true), AppActs(3)]
    requires s.channel == [Frame(1, Action(0)), Frame(2, Probe(0))]
    requires s.settled == [Settlement(1, Failure(TIMEOUT), ByTimeout)]
    requires s.calls == [Call(false, Issued(1), Some(Issued(2)), None, None)]
    requires s.nextMsgId == 3 && 1 in s.timers && s.timers[1] == 2 && 2 in s.pending && s.pending[2] == 1
    ensures t == Run(s, events)
    ensures t.handled == s.handled + {3} && t.channel == s.channel + [Frame(3, Action(0))]
    ensures t.settled == s.settled + [Settlement(2, Failure(TIMEOUT), ByTimeout)]
    ensures t.calls == [Call(false, Issued(1), Some(Issued(2)), Some(Issued(3)), None)]
  {
    var s1 := Step(s, events[0]);
    assert s1.settled == s.settled + [Settlement(2, Failure(TIMEOUT), ByTimeout)];
    assert Lookup(s1.settled, 2) == Lookup(s1.settled[1..], 2) == Some(Failure(TIMEOUT));
    var s2 := Step(s1, events[1]);
    assert s2.channel == s.channel + [Frame(3, Action(0))] && s2.channel[2].id == 3;
    t := Step(s2, events[2]);
    Peel(s, events, 0); Peel(s1, events, 1); Peel(s2, events, 2);
    assert events[0..] == events && events[3..] == [];
  }

  /** The premise is needed: with a slow App and a slow probe it acts twice. */
  lemma PremiseIsNeeded() returns (events: seq<Event>)
    ensures var s := Run(INITIAL, events);
            && |s.calls| == 1 && !s.calls[0].isPing && !Premise(s, 0)
            && {1, 3} <= s.handled * ActionIds(s, 0)
  {
    var first := [StartCall(false, true, true), AppActs(1), TimerFires(0), Resume(0, true, true)];
    var late := [TimerFires(1), Resume(0, true, true), AppActs(3)];
    var s := SlowApp(first);
    var t := SlowProbe(s, late);
    events := first + late;
    RunConcat(INITIAL, first, late);
    assert t.channel[0].id in ActionIds(t, 0) && t.channel[2].id in ActionIds(t, 0);
    assert Lookup(t.settled, 2) == Lookup(t.settled[1..], 2) == Some(Failure(TIMEOUT));
  }

  lemma Peel(s: State, e: seq<Event>, k: nat)
    requires k < |e|
    ensures Run(s, e[k..]) == Run(Step(s, e[k]), e[k + 1..])
  {
    assert e[k..][1..] == e[k + 1..];
  }

  /** What the client can see of a state: everything except what the App did. */
  function View(s: State): State { s.(handled := {}) }

  /** A reply that says an attempt of call `c` succeeded. */
  predicate Confirms(c: Call, n: Settlement) {
    n.cause == ByReply && n.response.success && (c.first == Issued(n.id) || c.second == Some(Issued(n.id)))
  }

  /** The App confirms an attempt of call `i` only after acting on it. */
  predicate Honest(s: State, i: nat)
    requires i < |s.calls|
  {
    forall k :: 0 <= k < |s.settled| && Confirms(s.calls[i], s.settled[k]) ==> s.settled[k].id in s.handled
  }

  predicate ActedOn(s: State, a: Attempt) { a.Issued? && a.id in s.handled }

  /** The App acted on the action of call `i`. */
  predicate Delivered(s: State, i: nat)
    requires i < |s.calls|
  {
    ActedOn(s, s.calls[i].first) || (s.calls[i].second.Some? && ActedOn(s, s.calls[i].second.value))
  }

  /** The call returned on the answer to its probe. */
  predicate OnProbe(c: Call) { c.second.None? && c.probe.Some? }

  lemma {:induction false} SettleFromView(s: State, id: nat)
    ensures SettleFrom(View(s), id) == View(SettleFrom(s, id))
    decreases s.nextMsgId - id
  {
    if id < s.nextMsgId {
      SettleFromView(if id in s.pending then Settle(s, id, Failure(DISCONNECTED), ByDisconnect) else s, id + 1);
    }
  }

  lemma ResumeView(s: State, i: nat, connects: bool, posts: bool)
    ensures ResumeRetry(View(s), i, connects, posts) == View(ResumeRetry(s, i, connects, posts))
  {
    if i < |s.calls| {
      match NextMove(s.settled, s.calls[i])
      case Stay =>
      case Return(_) =>
      case AskAlive =>
      case SendAgain =>
    }
  }

  lemma StepView(s: State, e: Event)
    ensures View(Step(s, e)) == if e.AppActs? then View(s) else Step(View(s), e)
  {
    match e
    case StartCall(_, connects, posts) =>
    case Resume(i, connects, posts) => ResumeView(s, i, connects, posts);
    case PlainSend(connects, posts) =>
    case PortLost => SettleFromView(DisconnectPort(s), 1);
    case _ =>
  }

  /** The same events with an App that does nothing at all. */
  function Silent(events: seq<Event>): seq<Event> {
    if events == [] then []
    else if events[0].AppActs? then Silent(events[1..])
    else [events[0]] + Silent(events[1..])
  }

  /** The client sees no difference. */
  lemma {:induction false} SilentLooksTheSame(s: State, events: seq<Event>)
    ensures Run(View(s), Silent(events)) == View(Run(s, events))
    decreases |events|
  {
    if events != [] {
      StepView(s, events[0]);
      SilentLooksTheSame(Step(s, events[0]), events[1..]);
    }
  }

  /** Some run that looks the same to the client has the App act on the action of
      call `i` more than once. */
  ghost predicate MayHaveActedTwice(s: State, i: nat) {
    exists events: seq<Event> ::
      View(Run(INITIAL, events)) == View(s) && |Run(INITIAL, events).handled * ActionIds(s, i)| > 1
  }

  /** The App acts late on two frames that are in the channel. */
  lemma ActsLate(events: seq<Event>, a: nat, b: nat) returns (late: seq<Event>)
    requires InChannel(Run(INITIAL, events).channel, a) && InChannel(Run(INITIAL, events).channel, b)
    ensures Run(INITIAL, late) == Run(INITIAL, events).(handled := Run(INITIAL, events).handled + {a, b})
  {
    var s := Run(INITIAL, events);
    var more := [AppActs(a), AppActs(b)];
    late := events + more;
    RunConcat(INITIAL, events, more);
    var s1 := Step(s, more[0]);
    var s2 := Step(s1, more[1]);
    Peel(s, more, 0); Peel(s1, more, 1);
    assert more[0..] == more && more[2..] == [];
    assert s2.handled == s.handled + {a, b};
  }

  /** A double action cannot be ruled out exactly when two copies of the action
      are in the channel; `SecondCopyReason` says why there are two. */
  lemma TwiceExactly(events: seq<Event>, i: nat)
    ensures var s := Run(INITIAL, events);
            MayHaveActedTwice(s, i) <==> |ActionIds(s, i)| > 1
  {
    var s := Run(INITIAL, events);
    var ids := ActionIds(s, i);
    if |ids| > 1 {
      var a :| a in ids;
      if ids <= {a} {
        SubsetSize(ids, {a});
      }
      var b :| b in ids && b != a;
      var late := ActsLate(events, a, b);
      SubsetSize({a, b}, Run(INITIAL, late).handled * ids);
      assert View(Run(INITIAL, late)) == View(s);
    }
    forall other: seq<Event> | |Run(INITIAL, other).handled * ids| > 1 ensures |ids| > 1 {
      SubsetSize(Run(INITIAL, other).handled * ids, ids);
    }
  }

  /** When a finished call reports success without returning on its probe, some
      attempt of its action was confirmed, and an honest App has acted on it. */
  lemma SuccessIsDelivery(events: seq<Event>, i: nat)
    requires var s := Run(INITIAL, events);
             i < |s.calls| && s.calls[i].result.Some? && s.calls[i].result.value.success && Honest(s, i)
    ensures var s := Run(INITIAL, events);
            !OnProbe(s.calls[i]) ==> Delivered(s, i)
    ensures var r := Run(INITIAL, events).calls[i].result.value;
            OnProbe(Run(INITIAL, events).calls[i]) ==> r.message == Some(RECONNECTED)
  {
    ReachableGood(events);
    var s := Run(INITIAL, events);
    var a := Awaited(s.calls[i]);
    if a.Issued? {
      var k := LookupIsEntry(s.settled, a.id);
      var j := SettledByOwnEvent(INITIAL, events, k);
    }
  }

  /** A call that returned on its probe knows nothing: the same run with an App
      that never acts looks the same to it, and that App is honest. */
  lemma ProbeSaysNothing(events: seq<Event>, i: nat)
    requires var s := Run(INITIAL, events);
             i < |s.calls| && s.calls[i].result.Some? && OnProbe(s.calls[i])
    ensures var t := Run(INITIAL, Silent(events));
            t == View(Run(INITIAL, events)) && Honest(t, i) && !Delivered(t, i)
  {
    SilentLooksTheSame(INITIAL, events);
    ReachableGood(Silent(events));
    var t := Run(INITIAL, Silent(events));
    var c := t.calls[i];
    if c.first.Issued? {
      var k := LookupIsEntry(t.settled, c.first.id);
    }
  }

  /** Every run that looks the same to the client, with an App that is honest
      about call `i`, is one in which the App acted on the call's action. */
  ghost predicate SureOfDelivery(s: State, i: nat)
    requires i < |s.calls|
  {
    forall events: seq<Event> ::
      var t := Run(INITIAL, events);
      View(t) == View(s) && Honest(t, i) ==> Delivered(t, i)
  }

  /** What a reported success is worth, exactly: it means delivery unless the
      call returned on the answer to its probe. */
  lemma SuccessMeansExactly(events: seq<Event>, i: nat)
    requires var s := Run(INITIAL, events);
             i < |s.calls| && s.calls[i].result.Some? && s.calls[i].result.value.success
    ensures var s := Run(INITIAL, events);
            SureOfDelivery(s, i) <==> !OnProbe(s.calls[i])
  {
    var s := Run(INITIAL, events);
    if OnProbe(s.calls[i]) {
      ProbeSaysNothing(events, i);
      assert View(Run(INITIAL, Silent(events))) == View(s);
    } else {
      forall other: seq<Event> |
        View(Run(INITIAL, other)) == View(s) && Honest(Run(INITIAL, other), i)
        ensures Delivered(Run(INITIAL, other), i)
      {
        assert Run(INITIAL, other).calls == View(Run(INITIAL, other)).calls == s.calls;
        SuccessIsDelivery(other, i);
      }
    }
  }

  /** The App is down when the action arrives; the call turns to its probe. */
  lemma AppDown(events: seq<Event>) returns (s: State)
    requires events == [StartCall(false, true, true), Reply(Some(1), Failure(NOT_RUNNING)), Resume(0, true, true)]
    ensures s == Run(INITIAL, events) && s.handled == {} && s.nextMsgId == 3
    ensures s.channel == [Frame(1, Action(0)), Frame(2, Probe(0))]
    ensures s.settled == [Settlement(1, Failure(NOT_RUNNING), ByReply)]
    ensures s.calls == [Call(false, Issued(1), Some(Issued(2)), None, None)]
    ensures s.pending.Keys == {2}
  {
    var s1 := Step(INITIAL, events[0]);
    assert s1.channel == [Frame(1, Action(0))];
    var s2 := Step(s1, events[1]);
    assert s2.settled == [Settlement(1, Failure(NOT_RUNNING), ByReply)];
    s := Step(s2, events[2]);
    Peel(INITIAL, events, 0); Peel(s1, events, 1); Peel(s2, events, 2);
    assert events[0..] == events && events[3..] == [];
  }

  /** The App is up again and answers the probe; the call reports success. */
  lemma ProbeAnswered(s: State, events: seq<Event>) returns (t: State)
    requires events == [Reply(Some(2), ApiResponse(true, None)), Resume(0, true, true)]
    requires s.settled == [Settlement(1, Failure(NOT_RUNNING), ByReply)] && s.pending.Keys == {2}
    requires s.calls == [Call(false, Issued(1), Some(Issued(2)), None, None)]
    ensures t == Run(s, events) && t.handled == s.handled && t.channel == s.channel && t.pending == map[]
    ensures |t.calls| == 1 && t.calls[0].result == Some(ApiResponse(true, Some(RECONNECTED)))
  {
    var ok := ApiResponse(true, None);
    var s1 := Step(s, events[0]);
    assert s1.settled == s.settled + [Settlement(2, ok, ByReply)];
    assert Lookup(s1.settled, 2) == Lookup(s1.settled[1..], 2) == Some(ok);
    t := Step(s1, events[1]);
    Peel(s, events, 0); Peel(s1, events, 1);
    assert events[0..] == events && events[2..] == [];
  }

  /** Success is not delivery: an App that was not running when the action was
      sent and is up for the probe makes the call succeed with nothing done. */
  lemma SuccessIsNotDelivery() returns (events: seq<Event>)
    ensures var s := Run(INITIAL, events);
            && |s.calls| == 1 && s.calls[0].result.Some? && s.calls[0].result.value.success
            && Honest(s, 0) && s.handled == {} && s.pending == map[]
            && |s.channel| == 2 && s.channel[1].content == Probe(0)
  {
    var down := [StartCall(false, true, true), Reply(Some(1), Failure(NOT_RUNNING)), Resume(0, true, true)];
    var up := [Reply(Some(2), ApiResponse(true, None)), Resume(0, true, true)];
    var s := AppDown(down);
    var t := ProbeAnswered(s, up);
    events := down + up;
    RunConcat(INITIAL, down, up);
  }

  /** Exactly when a finished call reports success: the answer to the last thing
      it sent, action or probe, was a success. */
  lemma SuccessMeans(events: seq<Event>, i: nat)
    requires var s := Run(INITIAL, events); i < |s.calls| && s.calls[i].result.Some?
    ensures var s := Run(INITIAL, events);
            var c := s.calls[i];
            && Answer(s.settled, Awaited(c)).Some?
            && (c.result.value.success <==> Answer(s.settled, Awaited(c)).value.success)
            && (c.result.value == ApiResponse(true, Some(RECONNECTED)) || Answer(s.settled, Awaited(c)) == c.result)
            && (c.isPing ==> c.probe.None?)
  {
    ReachableGood(events);
  }
}
