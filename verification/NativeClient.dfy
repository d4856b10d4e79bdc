/** The native-messaging client as the object it is: module variables that the
    listeners, timers and async functions update. Each method is one step of
    `NativeMessaging.Step`, so whatever holds of every run holds of the object. */
module NativeClient {
  import opened Wrappers
  import opened NativeMessaging

  class Client {
    var connected: bool
    var nextMsgId: nat
    var pending: map<nat, nat>
    var timers: map<nat, nat>
    var nextTimer: nat
    var settled: seq<Settlement>
    var calls: seq<Call>

    // What the outside world has seen of this client.
    ghost var posted: seq<Frame>
    ghost var channel: seq<Frame>
    ghost var handled: set<nat>

    ghost function Abs(): State
      reads this
    {
      State(connected, nextMsgId, pending, timers, nextTimer, settled, calls, posted, channel, handled)
    }

    constructor ()
      ensures Abs() == INITIAL && Good(Abs())
    {
      connected, nextMsgId, pending, timers, nextTimer := false, 1, map[], map[], 0;
      settled, calls, posted, channel, handled := [], [], [], [], {};
    }

    /** Removes a pending request, clears its timer and resolves its promise. */
    method SettleRequest(id: nat, response: ApiResponse, cause: Cause)
      requires id in pending
      modifies this
      ensures Abs() == Settle(old(Abs()), id, response, cause)
    {
      timers := timers - {pending[id]};
      pending := pending - {id};
      settled := settled + [Settlement(id, response, cause)];
    }

    method DropPort()
      modifies this`connected
      ensures Abs() == DisconnectPort(old(Abs()))
    {
      if connected {
        connected := false;
      }
    }

    /** `connects` and `posts` are what connectNative and postMessage do. */
    method Send(ghost content: Content, connects: bool, posts: bool) returns (a: Attempt)
      modifies this
      ensures (Abs(), a) == SendMessage(old(Abs()), content, connects, posts)
    {
      if !connected {
        if !connects {
          return NoPort;
        }
        connected := true;
      }
      var msgId := nextMsgId;
      nextMsgId := nextMsgId + 1;
      var timer := nextTimer;
      nextTimer := nextTimer + 1;
      timers := timers[timer := msgId];
      pending := pending[msgId := timer];
      posted := posted + [Frame(msgId, content)];
      if posts {
        channel := channel + [Frame(msgId, content)];
      } else {
        pending := pending - {msgId};
        timers := timers - {timer};
        DropPort();
        settled := settled + [Settlement(msgId, Failure(POST_FAILED), ByPostFailure)];
      }
      a := Issued(msgId);
    }

    method MessageArrives(id: Option<nat>, response: ApiResponse)
      modifies this
      ensures Abs() == Step(old(Abs()), Reply(id, response))
    {
      if id.Some? {
        if id.value in pending {
          SettleRequest(id.value, response, ByReply);
        }
      }
    }

    method TimerExpires(timer: nat)
      requires Accounted(Abs()) && timer in timers
      modifies this
      ensures Abs() == Step(old(Abs()), TimerFires(timer))
    {
      var msgId := timers[timer];
      timers := timers - {timer};
      pending := pending - {msgId};
      settled := settled + [Settlement(msgId, Failure(TIMEOUT), ByTimeout)];
    }

    /** Any port's disconnect listener: it clears the shared port, whichever port
        it was registered on, and rejects everything pending. */
    method PortDisconnects()
      modifies this
      ensures Abs() == Step(old(Abs()), PortLost)
    {
      connected := false;
      var id := 1;
      while id < nextMsgId
        invariant nextMsgId == old(nextMsgId)
        invariant SettleFrom(Abs(), id) == SettleFrom(DisconnectPort(old(Abs())), 1)
      {
        if id in pending {
          SettleRequest(id, Failure(DISCONNECTED), ByDisconnect);
        }
        id := id + 1;
      }
    }

    /** The synchronous head of a retrying call, up to its first await. */
    method StartRetrying(isPing: bool, connects: bool, posts: bool)
      modifies this
      ensures Abs() == Step(old(Abs()), StartCall(isPing, connects, posts))
    {
      var a := Send(Action(|calls|), connects, posts);
      calls := calls + [Call(isPing, a, None, None, None)];
    }

    method Record(i: nat, c: Call)
      requires i < |calls|
      modifies this`calls
      ensures Abs() == old(Abs()).(calls := old(calls)[i := c])
    {
      calls := calls[i := c];
    }

    /** From one await of a retrying call to its next, once that one has settled. */
    method ResumeRetrying(i: nat, connects: bool, posts: bool)
      requires i < |calls| && calls[i].result.None? && Answer(settled, Awaited(calls[i])).Some?
      modifies this
      ensures Abs() == Step(old(Abs()), Resume(i, connects, posts))
    {
      var c := calls[i];
      var result := Answer(settled, Awaited(c)).value;
      if c.second.Some? {
        Record(i, c.(result := Some(result)));
        return;
      }
      if c.probe.Some? {
        if result.success {
          Record(i, c.(result := Some(ApiResponse(true, Some(RECONNECTED)))));
          return;
        }
      } else {
        if result.success || !Retryable(result) {
          Record(i, c.(result := Some(result)));
          return;
        }
        DropPort();
        if MaybeDelivered(result) && !c.isPing {
          var p := Send(Probe(i), connects, posts);
          Record(i, c.(probe := Some(p)));
          return;
        }
      }
      DropPort();
      var again := Send(Action(i), connects, posts);
      Record(i, c.(second := Some(again)));
    }
  }
}
