/** Sending a batch over the native channel, its legacy fallback for old Apps,
    and the router that may hand the batch to a remote server instead. */
module Dispatch {
  import opened Wrappers
  import opened Text
  import opened NativeMessaging
  import opened BatchChunking

  /** What awaiting a retrying call yields. */
  datatype Outcome = Answered(response: ApiResponse) | Threw(reason: string)

  /** Everything the environment decides during one batch: the outcome of the
      k-th chunk, of the k-th single download, and of the remote server. */
  datatype Environment = Environment(chunk: nat -> Outcome, single: nat -> Outcome, remote: ApiResponse)

  /** What leaves the extension, in order. */
  datatype Effect<T> =
    | Offered(items: seq<T>, acknowledged: bool)
    | OfferedSingle(item: T)
    | OfferedRemote(items: seq<T>)

  const UNKNOWN_ACTION := "unknown action"
  const UNREACHABLE: set<string> := {UNAVAILABLE, TIMEOUT, DISCONNECTED, POST_FAILED, NOT_RUNNING}

  predicate Acked(o: Outcome) { o.Answered? && o.response.success }

  predicate IsNmhUnreachable(r: ApiResponse) {
    !r.success && r.message.Some? && r.message.value in UNREACHABLE
  }

  /** A missing message shows up in texts as the word the language prints for it. */
  function Shown(message: Option<string>): string {
    if message.Some? then message.value else "undefined"
  }

  // ---- the legacy loop -----------------------------------------------------

  function CountAcked(single: nat -> Outcome, n: nat): nat {
    if n == 0 then 0 else CountAcked(single, n - 1) + (if Acked(single(n - 1)) then 1 else 0)
  }

  function LegacyAnswer(n: nat, single: nat -> Outcome): ApiResponse
    requires n > 0
  {
    var succeeded := CountAcked(single, n);
    if succeeded == 0 then
      var first := single(0);
      Failure("Batch failed: " +
              (if first.Answered? then Shown(first.response.message) else first.reason))
    else if succeeded < n then
      var counts := Decimal(succeeded) + "/" + Decimal(n) + " items sent (" + Decimal(n - succeeded) + " failed)";
      ApiResponse(true, Some(counts))
    else ApiResponse(true, Some(Decimal(succeeded) + " items sent"))
  }

  function Singles<T>(items: seq<T>): seq<Effect<T>> {
    seq(|items|, i requires 0 <= i < |items| => OfferedSingle(items[i]))
  }

  // ---- the chunk loop --------------------------------------------------------

  function PartialText(k: nat, n: nat, message: Option<string>): string {
    "partial batch: " + Decimal(k) + "/" + Decimal(n) + " chunks sent, then: " + Shown(message)
  }

  /** What becomes of the batch when chunk `k` is the first without a success. */
  function Stopped<T>(items: seq<T>, chunks: seq<seq<T>>, k: nat, env: Environment): (seq<Effect<T>>, Outcome)
    requires k < |chunks| && items != []
  {
    var offered := [Offered(chunks[k], false)];
    var o := env.chunk(k);
    if o.Threw? then (offered, o)
    else if k > 0 then (offered, Answered(Failure(PartialText(k, |chunks|, o.response.message))))
    else if o.response.message.Some? && Includes(o.response.message.value, UNKNOWN_ACTION) then
      (offered + Singles(items), Answered(LegacyAnswer(|items|, env.single)))
    else (offered, o)
  }

  /** How the batch ends, once `m` chunks in a row were acknowledged. */
  function Ending<T>(items: seq<T>, chunks: seq<seq<T>>, m: nat, env: Environment): (seq<Effect<T>>, Outcome)
    requires m <= |chunks| && items != []
  {
    if m == |chunks| then ([], Answered(ApiResponse(true, Some(Decimal(|items|) + " items sent"))))
    else Stopped(items, chunks, m, env)
  }

  function SendChunks<T>(items: seq<T>, chunks: seq<seq<T>>, k: nat, env: Environment): (seq<Effect<T>>, Outcome)
    requires k <= |chunks| && items != []
    decreases |chunks| - k
  {
    if k == |chunks| then ([], Answered(ApiResponse(true, Some(Decimal(|items|) + " items sent"))))
    else if Acked(env.chunk(k)) then
      var (log, o) := SendChunks(items, chunks, k + 1, env);
      ([Offered(chunks[k], true)] + log, o)
    else Stopped(items, chunks, k, env)
  }

  ghost function NmhBatch<T>(items: seq<T>, size: T -> nat, env: Environment): (seq<Effect<T>>, Outcome) {
    if items == [] then ([], Answered(Failure("No items")))
    else SendChunks(items, Greedy(items, size), 0, env)
  }

  method NmhSendBatchDownloadLegacy<T>(items: seq<T>, env: Environment)
    returns (log: seq<Effect<T>>, answer: ApiResponse)
    requires items != []
    ensures log == Singles(items) && answer == LegacyAnswer(|items|, env.single)
  {
    log := [];
    var succeeded := 0;
    for i := 0 to |items|
      invariant log == Singles(items)[..i]
      invariant succeeded == CountAcked(env.single, i)
    {
      log := log + [OfferedSingle(items[i])];
      if Acked(env.single(i)) {
        succeeded := succeeded + 1;
      }
    }
    answer := LegacyAnswer(|items|, env.single);
  }

  /** What the chunk loop keeps: its log so far and the rest of the loop make
      up the whole batch. */
  ghost predicate Sending<T>(log: seq<Effect<T>>, k: nat, items: seq<T>, chunks: seq<seq<T>>, env: Environment)
    requires k <= |chunks| && items != []
  {
    var (rest, o) := SendChunks(items, chunks, k, env);
    SendChunks(items, chunks, 0, env) == (log + rest, o)
  }

  lemma SendingAcked<T>(log: seq<Effect<T>>, k: nat, items: seq<T>, chunks: seq<seq<T>>, env: Environment)
    requires k < |chunks| && items != [] && Sending(log, k, items, chunks, env) && Acked(env.chunk(k))
    ensures Sending(log + [Offered(chunks[k], true)], k + 1, items, chunks, env)
  {
    assert log + SendChunks(items, chunks, k, env).0
        == log + [Offered(chunks[k], true)] + SendChunks(items, chunks, k + 1, env).0;
  }

  method SendAllChunks<T>(items: seq<T>, chunks: seq<seq<T>>, env: Environment)
    returns (log: seq<Effect<T>>, outcome: Outcome)
    requires items != []
    ensures (log, outcome) == SendChunks(items, chunks, 0, env)
  {
    log := [];
    var sentChunks := 0;
    assert [] + SendChunks(items, chunks, 0, env).0 == SendChunks(items, chunks, 0, env).0;
    for k := 0 to |chunks|
      invariant sentChunks == k && Sending(log, k, items, chunks, env)
    {
      var o := env.chunk(k);
      if !Acked(o) {
        var offered := [Offered(chunks[k], false)];
        if o.Threw? {
          return log + offered, o;
        }
        if sentChunks > 0 {
          return log + offered, Answered(Failure(PartialText(sentChunks, |chunks|, o.response.message)));
        }
        if o.response.message.Some? && Includes(o.response.message.value, UNKNOWN_ACTION) {
          var singles, answer := NmhSendBatchDownloadLegacy(items, env);
          return log + (offered + singles), Answered(answer);
        }
        return log + offered, o;
      }
      SendingAcked(log, k, items, chunks, env);
      log := log + [Offered(chunks[k], true)];
      sentChunks := sentChunks + 1;
    }
    assert log + [] == log;
    outcome := Answered(ApiResponse(true, Some(Decimal(|items|) + " items sent")));
  }

  method NmhSendBatchDownloadRequest<T>(items: seq<T>, size: T -> nat, env: Environment)
    returns (log: seq<Effect<T>>, outcome: Outcome)
    ensures (log, outcome) == NmhBatch(items, size, env)
  {
    if items == [] {
      return [], Answered(Failure("No items"));
    }
    var chunks := ChunkBatchWireItems(items, size);
    log, outcome := SendAllChunks(items, chunks, env);
  }

  // ---- what the log looks like --------------------------------------------

  /** The first chunk without a success, or their number. */
  ghost function FirstBad(env: Environment, k: nat, n: nat): (m: nat)
    requires k <= n
    ensures k <= m <= n
    ensures forall j :: k <= j < m ==> Acked(env.chunk(j))
    ensures m < n ==> !Acked(env.chunk(m))
    decreases n - k
  {
    if k == n || !Acked(env.chunk(k)) then k else FirstBad(env, k + 1, n)
  }

  function AllAcked<T>(chunks: seq<seq<T>>): seq<Effect<T>> {
    seq(|chunks|, k requires 0 <= k < |chunks| => Offered(chunks[k], true))
  }

  /** The chunk loop acknowledges a run of chunks and then stops for good. */
  lemma {:induction false} LogShape<T>(items: seq<T>, chunks: seq<seq<T>>, k: nat, env: Environment)
    requires k <= |chunks| && items != []
    ensures var m := FirstBad(env, k, |chunks|);
            var e := Ending(items, chunks, m, env);
            SendChunks(items, chunks, k, env) == (AllAcked(chunks[k..m]) + e.0, e.1)
    decreases |chunks| - k
  {
    var m := FirstBad(env, k, |chunks|);
    var e := Ending(items, chunks, m, env);
    if k < |chunks| && Acked(env.chunk(k)) {
      LogShape(items, chunks, k + 1, env);
      assert AllAcked(chunks[k..m]) == [Offered(chunks[k], true)] + AllAcked(chunks[k + 1..m]);
      assert AllAcked(chunks[k..m]) + e.0 == [Offered(chunks[k], true)] + (AllAcked(chunks[k + 1..m]) + e.0);
    } else {
      assert m == k && AllAcked(chunks[k..m]) + e.0 == e.0;
    }
  }

  lemma BatchShape<T>(items: seq<T>, size: T -> nat, env: Environment) returns (chunks: seq<seq<T>>, m: nat)
    requires items != []
    ensures chunks == Greedy(items, size) && chunks != [] && m == FirstBad(env, 0, |chunks|)
    ensures NmhBatch(items, size, env)
         == (AllAcked(chunks[..m]) + Ending(items, chunks, m, env).0, Ending(items, chunks, m, env).1)
  {
    chunks := Greedy(items, size);
    m := FirstBad(env, 0, |chunks|);
    LogShape(items, chunks, 0, env);
    assert chunks[0..m] == chunks[..m];
  }

  /** Chunks are offered strictly in order, and none after the first that is
      not acknowledged: the offers are a prefix of the chunks, acknowledged but
      possibly for the last one. */
  ghost predicate OfferedInOrder<T>(log: seq<Effect<T>>, chunks: seq<seq<T>>, upTo: nat) {
    && upTo <= |log| && upTo <= |chunks|
    && (forall j :: 0 <= j < upTo ==> log[j].Offered? && log[j].items == chunks[j])
    && (forall j :: 0 <= j < upTo - 1 ==> log[j].acknowledged)
    && (forall j :: upTo <= j < |log| ==> !log[j].Offered?)
    && (upTo < |chunks| ==> upTo > 0 && !log[upTo - 1].acknowledged)
  }

  lemma EndingShape<T>(items: seq<T>, chunks: seq<seq<T>>, m: nat, env: Environment)
    requires items != [] && chunks != [] && m == FirstBad(env, 0, |chunks|)
    ensures var tail := Ending(items, chunks, m, env).0;
            && (if m == |chunks| then tail == [] else tail != [] && tail[0] == Offered(chunks[m], false))
            && forall j :: 1 <= j < |tail| ==> !tail[j].Offered?
  {
  }

  lemma OffersAreAPrefix<T>(items: seq<T>, size: T -> nat, env: Environment) returns (upTo: nat)
    requires items != []
    ensures OfferedInOrder(NmhBatch(items, size, env).0, Greedy(items, size), upTo)
  {
    var chunks, m := BatchShape(items, size, env);
    upTo := if m < |chunks| then m + 1 else m;
    EndingShape(items, chunks, m, env);
  }

  /** The old App's signature: the very first chunk is refused as unknown. */
  predicate LegacyApp(env: Environment) {
    && env.chunk(0).Answered? && !env.chunk(0).response.success && env.chunk(0).response.message.Some?
    && Includes(env.chunk(0).response.message.value, UNKNOWN_ACTION)
  }

  /** The item loop runs exactly against an old App; then it offers each item
      once, and no chunk was acknowledged before it. */
  lemma LegacyExactly<T>(items: seq<T>, size: T -> nat, env: Environment)
    requires items != []
    ensures var log := NmhBatch(items, size, env).0;
            if LegacyApp(env) then log == [Offered(Greedy(items, size)[0], false)] + Singles(items)
            else forall j :: 0 <= j < |log| ==> log[j].Offered?
  {
    var chunks, m := BatchShape(items, size, env);
    if LegacyApp(env) {
      assert m == 0 && AllAcked(chunks[..0]) + Ending(items, chunks, 0, env).0 == Ending(items, chunks, 0, env).0;
    }
  }

  // ---- what the batch answers ------------------------------------------------

  /** The items whose own download the App acknowledged. */
  ghost function Sent(env: Environment, n: nat): set<nat> {
    set i: nat | i < n && env.single(i).Answered? && env.single(i).response.success
  }

  lemma {:induction false} CountIsSent(env: Environment, n: nat)
    ensures CountAcked(env.single, n) == |Sent(env, n)| <= n
  {
    if n > 0 {
      CountIsSent(env, n - 1);
      if Acked(env.single(n - 1)) {
        assert Sent(env, n) == Sent(env, n - 1) + {n - 1};
      } else {
        assert Sent(env, n) == Sent(env, n - 1);
      }
    }
  }

  /** What an App's refusal says: its own words, or what the language prints. */
  function Words(r: ApiResponse): string {
    match r.message case Some(text) => text case None => "undefined"
  }

  /** The summary of a batch offered item by item: a failure in the words of the
      first item if none was sent, and else a success with the counts. */
  ghost predicate Summarised(env: Environment, n: nat, r: ApiResponse)
    requires n > 0
  {
    var sent := |Sent(env, n)|;
    if sent == 0 then
      var first := env.single(0);
      r == ApiResponse(false, Some("Batch failed: " +
             match first case Answered(answer) => Words(answer) case Threw(reason) => reason))
    else if sent < n then
      r == ApiResponse(true, Some(Decimal(sent) + "/" + Decimal(n) + " items sent (" + Decimal(n - sent) + " failed)"))
    else r == ApiResponse(true, Some(Decimal(n) + " items sent"))
  }

  lemma LegacySummary(env: Environment, n: nat)
    requires n > 0
    ensures Summarised(env, n, LegacyAnswer(n, env.single))
  {
    CountIsSent(env, n);
  }

  /** The answer of a batch, for every environment. With all chunks acknowledged
      it is a success; a chunk that throws makes it throw; a later chunk that
      fails makes it a failure that says how far it got; and of a first chunk
      that fails it is the App's own answer, or the summary of the single items
      if those words contain "unknown action". */
  lemma BatchAnswer<T>(items: seq<T>, size: T -> nat, env: Environment)
    requires items != []
    ensures var n := |Greedy(items, size)|;
            var m := FirstBad(env, 0, n);
            var o := NmhBatch(items, size, env).1;
            if m == n then o == Answered(ApiResponse(true, Some(Decimal(|items|) + " items sent")))
            else if env.chunk(m).Threw? then o == env.chunk(m)
            else if m > 0 then
              o == Answered(ApiResponse(false, Some("partial batch: " + Decimal(m) + "/" + Decimal(n)
                                                    + " chunks sent, then: " + Words(env.chunk(m).response))))
            else if env.chunk(0).response.message.Some?
                    && Includes(env.chunk(0).response.message.value, "unknown action") then
              o.Answered? && Summarised(env, |items|, o.response)
            else o == env.chunk(0)
  {
    var chunks, m := BatchShape(items, size, env);
    LegacySummary(env, |items|);
  }

  /** An empty batch is a failure and sends nothing. */
  lemma NothingToSend<T>(size: T -> nat, env: Environment)
    ensures NmhBatch([], size, env) == ([], Answered(ApiResponse(false, Some("No items"))))
  {
  }

  /** An answered batch reports success exactly when every chunk was acknowledged
      or, against an old App, at least one item was. */
  lemma SuccessExactly<T>(items: seq<T>, size: T -> nat, env: Environment)
    requires items != [] && NmhBatch(items, size, env).1.Answered?
    ensures NmhBatch(items, size, env).1.response.success <==>
              || (forall k: nat :: k < |Greedy(items, size)| ==> Acked(env.chunk(k)))
              || (LegacyApp(env) && exists i: nat :: i < |items| && Acked(env.single(i)))
  {
    var chunks, m := BatchShape(items, size, env);
    BatchAnswer(items, size, env);
    if m < |chunks| {
      assert !Acked(env.chunk(m));
      if LegacyApp(env) && Sent(env, |items|) != {} {
        var i :| i in Sent(env, |items|);
        assert Acked(env.single(i));
      }
      if i: nat :| i < |items| && Acked(env.single(i)) {
        assert i in Sent(env, |items|);
      }
    }
  }

  // ---- the router ------------------------------------------------------------

  datatype RemoteMode = Off | Fallback | Always
  datatype RoutingConfig = RoutingConfig(mode: RemoteMode, remoteUrl: string)
  datatype Channel = Local | Remote

  /** A routed request is answered, with the channel stamped on, or rejects. */
  datatype Routed = Routed(response: ApiResponse, channel: Channel) | Raised

  /** Without an address the remote server does not exist, whatever the mode. */
  function EffectiveMode(cfg: RoutingConfig): RemoteMode {
    if JsTrim(cfg.remoteUrl) == "" then Off else cfg.mode
  }

  function FromNative(o: Outcome): Routed {
    if o.Threw? then Raised else Routed(o.response, Local)
  }

  predicate FallsThrough(o: Outcome) { o.Threw? || IsNmhUnreachable(o.response) }

  ghost function RouteBatch<T>(cfg: RoutingConfig, items: seq<T>, size: T -> nat, env: Environment)
    : (seq<Effect<T>>, Routed)
  {
    var viaRemote := Routed(env.remote, Remote);
    var (log, o) := NmhBatch(items, size, env);
    match EffectiveMode(cfg)
    case Off => (log, FromNative(o))
    case Always => ([OfferedRemote(items)], viaRemote)
    case Fallback => if FallsThrough(o) then (log + [OfferedRemote(items)], viaRemote) else (log, FromNative(o))
  }

  method SendBatchDownloadRequest<T>(cfg: RoutingConfig, items: seq<T>, size: T -> nat, env: Environment)
    returns (log: seq<Effect<T>>, r: Routed)
    ensures (log, r) == RouteBatch(cfg, items, size, env)
  {
    var mode := EffectiveMode(cfg);
    if mode == Always {
      return [OfferedRemote(items)], Routed(env.remote, Remote);
    }
    var o;
    log, o := NmhSendBatchDownloadRequest(items, size, env);
    if mode == Off {
      return log, if o.Threw? then Raised else Routed(o.response, Local);
    }
    if o.Answered? {
      if o.response.success || !IsNmhUnreachable(o.response) {
        return log, Routed(o.response, Local);
      }
    }
    log := log + [OfferedRemote(items)];
    r := Routed(env.remote, Remote);
  }

  lemma NoneHasK(text: string)
    requires text in UNREACHABLE
    ensures 'k' !in text
  {
    if text == UNAVAILABLE {
    } else if text == NOT_RUNNING {
    } else if text == POST_FAILED {
    } else if text == DISCONNECTED {
    } else {
      assert text == TIMEOUT;
    }
  }

  /** None of the unreachable texts is an old App's refusal. */
  lemma UnreachableIsNotLegacy(text: string)
    requires text in UNREACHABLE
    ensures !Includes(text, UNKNOWN_ACTION)
  {
    NoneHasK(text);
    NotIncludes(text, UNKNOWN_ACTION, 'k');
  }

  /** The client's own summaries are never mistaken for an unreachable host. */
  lemma SummariesAreReachable(text: string)
    requires |text| >= 2 && (text[0] == 'B' || text[0] == 'N' || (text[0] == 'p' && text[1] == 'a'))
    ensures text !in UNREACHABLE
  {
    assert UNAVAILABLE[0] == 'n' && TIMEOUT[1] == 'i' && DISCONNECTED[1] == 'o' && POST_FAILED[1] == 'o'
        && NOT_RUNNING[1] == 'p' && TIMEOUT[0] == 't' && DISCONNECTED[0] == 'p' && POST_FAILED[0] == 'p'
        && NOT_RUNNING[0] == 'a';
  }

  /** When the native channel's answer sends the batch on: exactly when the very
      first chunk failed with one of the five texts, or something threw. */
  lemma FallsThroughExactly<T>(items: seq<T>, size: T -> nat, env: Environment)
    ensures FallsThrough(NmhBatch(items, size, env).1) <==>
              && items != []
              && var n := |Greedy(items, size)|;
                 var m := FirstBad(env, 0, n);
                 m < n && (env.chunk(m).Threw? || (m == 0 && IsNmhUnreachable(env.chunk(0).response)))
  {
    if items == [] {
      SummariesAreReachable("No items");
    } else {
      var chunks, m := BatchShape(items, size, env);
      if m < |chunks| && env.chunk(m).Answered? {
        var message := env.chunk(m).response.message;
        SummariesAreReachable(PartialText(m, |chunks|, message));
        if m == 0 && LegacyApp(env) {
          var answer := LegacyAnswer(|items|, env.single);
          if answer.message.value in UNREACHABLE && !answer.success {
            SummariesAreReachable(answer.message.value);
          }
          if message.value in UNREACHABLE { UnreachableIsNotLegacy(message.value); }
        }
      }
    }
  }

  ghost predicate UsesRemote<T>(log: seq<Effect<T>>) {
    exists j :: 0 <= j < |log| && log[j].OfferedRemote?
  }

  /** The remote server gets the batch at most once, as the last effect, and the
      stamp on the answer says so. In fallback mode it gets it exactly when the
      first chunk failed as unreachable or something threw. */
  lemma RemoteExactly<T>(cfg: RoutingConfig, items: seq<T>, size: T -> nat, env: Environment)
    ensures var (log, r) := RouteBatch(cfg, items, size, env);
            && (forall j :: 0 <= j < |log| - 1 ==> !log[j].OfferedRemote?)
            && (UsesRemote(log) <==> r.Routed? && r.channel == Remote)
            && (UsesRemote(log) ==> log[|log| - 1] == OfferedRemote(items) && r.response == env.remote)
            && (UsesRemote(log) <==>
                 || EffectiveMode(cfg) == Always
                 || (EffectiveMode(cfg) == Fallback && FallsThrough(NmhBatch(items, size, env).1)))
  {
    var log := NmhBatch(items, size, env).0;
    if items != [] {
      LegacyExactly(items, size, env);
    }
    assert forall j :: 0 <= j < |log| ==> !log[j].OfferedRemote?;
    var routed := RouteBatch(cfg, items, size, env).0;
    if EffectiveMode(cfg) == Always {
      assert routed == [OfferedRemote(items)] && routed[0].OfferedRemote?;
    } else if EffectiveMode(cfg) == Fallback && FallsThrough(NmhBatch(items, size, env).1) {
      assert routed == log + [OfferedRemote(items)] && routed[|log|].OfferedRemote?;
    } else {
      assert routed == log && !UsesRemote(routed);
    }
  }

  lemma {:induction false} TrimStartOfBlank(s: string)
    ensures TrimStart(s, IsJsSpace) == "" <==> forall c :: c in s ==> IsJsSpace(c)
  {
    if s != "" {
      TrimStartOfBlank(s[1..]);
      assert s[0] in s && forall c :: c in s <==> c == s[0] || c in s[1..];
    }
  }

  lemma {:induction false} TrimEndKeepsStart(s: string)
    requires s != "" && !IsJsSpace(s[0])
    ensures TrimEnd(s, IsJsSpace) != ""
    decreases |s|
  {
    if IsJsSpace(s[|s| - 1]) {
      TrimEndKeepsStart(s[..|s| - 1]);
    }
  }

  /** An address counts only if some character of it is not white space. */
  predicate HasAddress(cfg: RoutingConfig) { exists c :: c in cfg.remoteUrl && !IsJsSpace(c) }

  lemma AddressExactly(cfg: RoutingConfig)
    ensures HasAddress(cfg) <==> JsTrim(cfg.remoteUrl) != ""
  {
    TrimStartOfBlank(cfg.remoteUrl);
    if TrimStart(cfg.remoteUrl, IsJsSpace) != "" {
      TrimEndKeepsStart(TrimStart(cfg.remoteUrl, IsJsSpace));
    }
  }

  /** Whose answer a routed batch gets: the remote server's in mode always, or in
      mode fallback when something threw or the native answer is a failure in one
      of the five texts, provided there is an address; and else the native one. */
  lemma RoutedAnswer<T>(cfg: RoutingConfig, items: seq<T>, size: T -> nat, env: Environment)
    ensures var r := RouteBatch(cfg, items, size, env).1;
            var o := NmhBatch(items, size, env).1;
            var unreachable :=
              || o.Threw?
              || (!o.response.success && o.response.message.Some?
                  && o.response.message.value in {"native_messaging_unavailable", "timeout", "port disconnected",
                                                  "postMessage failed", "app_not_running"});
            if HasAddress(cfg) && (cfg.mode == Always || (cfg.mode == Fallback && unreachable)) then
              r == Routed(env.remote, Remote)
            else if o.Threw? then r == Raised
            else r == Routed(o.response, Local)
  {
    AddressExactly(cfg);
  }

  /** Something of the batch is sent again after a chunk was acknowledged. */
  ghost predicate Resends<T>(log: seq<Effect<T>>) {
    exists j, k :: 0 <= j < k < |log| && log[j].Offered? && log[j].acknowledged && !log[k].Offered?
  }

  /** The shape of the native log: acknowledged chunks, or a first offer that
      was not acknowledged and, against an old App, the single items. */
  lemma NmhLog<T>(items: seq<T>, size: T -> nat, env: Environment)
    requires items != []
    ensures var log := NmhBatch(items, size, env).0;
            && log != [] && log[0].Offered?
            && (log[0].acknowledged <==> FirstBad(env, 0, |Greedy(items, size)|) > 0)
            && (forall j :: 0 <= j < |log| ==> !log[j].OfferedRemote?)
            && (if log[0].acknowledged then forall j :: 0 <= j < |log| ==> log[j].Offered?
                else forall j :: 1 <= j < |log| ==> !log[j].Offered?)
  {
    var chunks, m := BatchShape(items, size, env);
    LegacyExactly(items, size, env);
    var tail := Ending(items, chunks, m, env).0;
    if m > 0 {
    } else {
      EndingShape(items, chunks, 0, env);
      assert AllAcked(chunks[..0]) == [] && NmhBatch(items, size, env).0 == tail;
    }
  }

  /** The native channel on its own never sends anything again after an ack. */
  lemma NmhNeverResends<T>(items: seq<T>, size: T -> nat, env: Environment)
    requires items != []
    ensures var log := NmhBatch(items, size, env).0;
            && !Resends(log)
            && (forall j :: 0 <= j < |log| ==> !log[j].OfferedRemote?)
            && ((exists j :: 0 <= j < |log| && log[j].Offered? && log[j].acknowledged) <==>
                  FirstBad(env, 0, |Greedy(items, size)|) > 0)
  {
    NmhLog(items, size, env);
  }

  /** Once a chunk is acknowledged no item goes out again, neither one by one nor
      to the remote server, with one exception that the code does not guard: in
      fallback mode, a later chunk that throws instead of failing. */
  lemma ResendsExactly<T>(cfg: RoutingConfig, items: seq<T>, size: T -> nat, env: Environment)
    requires items != []
    ensures var n := |Greedy(items, size)|;
            var m := FirstBad(env, 0, n);
            Resends(RouteBatch(cfg, items, size, env).0) <==>
              EffectiveMode(cfg) == Fallback && 0 < m < n && env.chunk(m).Threw?
  {
    NmhNeverResends(items, size, env);
    FallsThroughExactly(items, size, env);
    RouteResends(cfg, items, size, env);
  }

  /** The exception happens: the first of two chunks is acknowledged, the second
      throws, and the whole batch goes to the remote server. */
  lemma ResendsAfterThrow()
    ensures var cfg := RoutingConfig(Fallback, "x");
            var env := Environment(k => if k == 0 then Answered(ApiResponse(true, None)) else Threw("no listener"),
                                   k => Threw(""), ApiResponse(true, None));
            RouteBatch(cfg, [0, 1], _ => 800 * 1024, env).0
            == [Offered([0], true), Offered([1], false), OfferedRemote([0, 1])]
  {
    var cfg := RoutingConfig(Fallback, "x");
    var env := Environment(k => if k == 0 then Answered(ApiResponse(true, None)) else Threw("no listener"),
                           k => Threw(""), ApiResponse(true, None));
    var size: int -> nat := _ => 800 * 1024;
    TwoHeavyItems(size);
    var chunks := Greedy([0, 1], size);
    assert SendChunks([0, 1], chunks, 1, env) == ([Offered([1], false)], Threw("no listener"));
    assert SendChunks([0, 1], chunks, 0, env).0 == [Offered([0], true)] + [Offered([1], false)];
    assert JsTrim("x") == "x";
  }

  lemma TwoHeavyItems(size: int -> nat)
    requires forall i :: size(i) == 800 * 1024
    ensures Greedy([0, 1], size) == [[0], [1]]
  {
    assert [0, 1][..1] == [0] && [0, 1][1..] == [1] && [1][..1] == [1] && [1][1..] == [];
    assert Bytes([0, 1], size) >= size(1);
    assert [0, 1][..2] == [0, 1] && !Admissible([0, 1], size);
    assert Longest([0, 1], size, 1) == 1 && Longest([1], size, 1) == 1;
  }

  /** Resending is the router's doing alone: the remote after an acknowledged chunk. */
  lemma RouteResends<T>(cfg: RoutingConfig, items: seq<T>, size: T -> nat, env: Environment)
    requires var log := NmhBatch(items, size, env).0;
             !Resends(log) && forall j :: 0 <= j < |log| ==> !log[j].OfferedRemote?
    ensures var (log, o) := NmhBatch(items, size, env);
            Resends(RouteBatch(cfg, items, size, env).0) <==>
              && EffectiveMode(cfg) == Fallback && FallsThrough(o)
              && exists j :: 0 <= j < |log| && log[j].Offered? && log[j].acknowledged
  {
    var (log, o) := NmhBatch(items, size, env);
    var routed := RouteBatch(cfg, items, size, env).0;
    if EffectiveMode(cfg) == Fallback && FallsThrough(o) {
      assert routed == log + [OfferedRemote(items)];
      if j :| 0 <= j < |log| && log[j].Offered? && log[j].acknowledged {
        assert routed[j] == log[j] && routed[|log|].OfferedRemote?;
      }
      if j, k :| 0 <= j < k < |routed| && routed[j].Offered? && routed[j].acknowledged && !routed[k].Offered? {
        assert routed[j] == log[j];
      }
    } else {
      assert routed == log || routed == [OfferedRemote(items)];
    }
  }
}
