/** The quick-download popup of the three desktop hosts: the show / ready /
    reveal handshake between the main engine, the window and the popup engine.
    A payload shown before the popup engine is ready waits; the window stays
    hidden until the popup engine reveals it or the fallback timer fires. */
module PopupHost {
  import opened Wrappers

  datatype Platform = Linux | Windows | MacOS

  /** What the main engine and the popup engine ask for, and what happens to
      the window. `None` stands for an argument of the wrong type; `creates`
      is whether making the window would succeed. */
  datatype Event =
    | Show(payload: Option<string>, creates: bool)
    | Append(url: Option<string>)
    | Relay(json: Option<string>)
    | Close
    | Ready
    | Submit(json: Option<string>)
    | Cancel
    | Reveal(sized: bool)
    | ChildRelay(json: Option<string>)
    | SystemClose
    | FallbackFires

  datatype Reply = BadArgs | Answer(ok: bool) | Done

  /** Messages to the popup engine. */
  datatype ToChild = SetPayload(payload: string) | AppendPayload(url: string) | OnRelay(json: string)

  /** Messages to the main engine. */
  datatype ToHost = OnResult(json: string) | OnClosed | OnRelay(json: string)

  datatype State = State(window: bool, visible: bool, ready: bool, pending: Option<string>, timer: bool,
                         child: seq<ToChild>, host: seq<ToHost>)

  const START := State(false, false, false, None, false, [], [])

  function Hide(p: Platform, s: State): State {
    if p == Windows && !s.window then s
    else s.(timer := false, visible := s.visible && !s.window)
  }

  function Present(p: Platform, s: State): State {
    match p
    case Linux => if s.window then s.(visible := true) else s
    case Windows => if s.window then s.(visible := true, timer := false) else s
    case MacOS => s.(visible := s.visible || s.window, timer := false)
  }

  function Send(s: State, m: ToChild): State {
    if s.window then s.(child := s.child + [m]) else s
  }

  function StepShow(p: Platform, s: State, payload: string, creates: bool): (State, Reply) {
    var making := p == Windows && !s.window;
    var t := if making then s.(ready := false, pending := None) else s;
    if making && !creates then (t, Answer(false))
    else
      var h := Hide(p, t.(window := true));
      var d := if h.ready then Send(h, SetPayload(payload)) else h.(pending := Some(payload));
      (d.(timer := true), Answer(true))
  }

  function StepReveal(p: Platform, s: State, sized: bool): (State, Reply) {
    if p != Linux then (Present(p, s), Done)
    else if !s.window then (s, Done)
    else if !sized then (s, BadArgs)
    else (Present(p, s.(timer := false)), Done)
  }

  function Step(p: Platform, s: State, e: Event): (State, Reply) {
    match e
    case Show(None, _) => (s, BadArgs)
    case Show(Some(payload), creates) => StepShow(p, s, payload, creates)
    case Append(None) => (s, if p == Windows then Answer(false) else BadArgs)
    case Append(Some(url)) =>
      var can := s.window && s.visible && s.ready;
      (if can then Send(s, AppendPayload(url)) else s, Answer(can))
    case Relay(None) => (s, BadArgs)
    case Relay(Some(json)) =>
      var can := s.ready && s.window;
      (if can then Send(s, ToChild.OnRelay(json)) else s, Answer(can))
    case Close => (Hide(p, s), Done)
    case Ready =>
      var t := s.(ready := true);
      (if t.pending.Some? then Send(t, SetPayload(t.pending.value)).(pending := None) else t, Done)
    case Submit(None) => (s, BadArgs)
    case Submit(Some(json)) => (Hide(p, s).(host := s.host + [OnResult(json)]), Done)
    case Cancel => (Hide(p, s).(host := s.host + [OnClosed]), Done)
    case Reveal(sized) => StepReveal(p, s, sized)
    case ChildRelay(None) => (s, BadArgs)
    case ChildRelay(Some(json)) => (s.(host := s.host + [ToHost.OnRelay(json)]), Done)
    case SystemClose => (Hide(p, s).(host := s.host + [OnClosed]), Done)
    case FallbackFires => (Present(p, s.(timer := s.timer && p == Windows)), Done)
  }

  // ---- runs ------------------------------------------------------------------

  function Run(p: Platform, es: seq<Event>): State {
    if es == [] then START else Step(p, Run(p, es[..|es| - 1]), es[|es| - 1]).0
  }

  /** The popup engine and the window manager only speak once there is a window,
      and the fallback only fires when it is armed. */
  predicate Possible(s: State, e: Event) {
    match e
    case Ready | Submit(_) | Cancel | Reveal(_) | ChildRelay(_) | SystemClose => s.window
    case FallbackFires => s.timer
    case _ => true
  }

  predicate Legal(p: Platform, es: seq<Event>) {
    es == [] || (Legal(p, es[..|es| - 1]) && Possible(Run(p, es[..|es| - 1]), es[|es| - 1]))
  }

  /** The payload a show accepted in state `s` would hand over. */
  function AcceptedBy(p: Platform, s: State, e: Event): (r: seq<string>)
    ensures |r| <= 1
  {
    if e.Show? && e.payload.Some? && Step(p, s, e).1 == Answer(true) then [e.payload.value] else []
  }

  /** The payloads of the accepted shows of a run, from event `k` on. */
  function Accepted(p: Platform, es: seq<Event>, k: nat): seq<string> {
    if |es| <= k then []
    else
      var n := |es| - 1;
      Accepted(p, es[..n], k) + AcceptedBy(p, Run(p, es[..n]), es[n])
  }

  function LastOnly(s: seq<string>): seq<string> {
    if s == [] then [] else [s[|s| - 1]]
  }

  function Payloads(child: seq<ToChild>): seq<string> {
    if child == [] then []
    else
      var n := |child| - 1;
      Payloads(child[..n]) + if child[n].SetPayload? then [child[n].payload] else []
  }

  /** What holds in every state a legal run reaches. */
  predicate Sound(s: State) {
    && (s.timer ==> s.window && !s.visible)
    && (s.visible || s.ready || s.pending.Some? ==> s.window)
    && (s.ready ==> s.pending.None?)
    && (s.child != [] ==> s.ready)
  }

  lemma StepSound(p: Platform, s: State, e: Event)
    requires Sound(s) && Possible(s, e)
    ensures Sound(Step(p, s, e).0)
  {
  }

  lemma {:induction false} EveryRunSound(p: Platform, es: seq<Event>)
    requires Legal(p, es)
    ensures Sound(Run(p, es))
  {
    if es != [] {
      EveryRunSound(p, es[..|es| - 1]);
      StepSound(p, Run(p, es[..|es| - 1]), es[|es| - 1]);
    }
  }

  /** Before ready, a step keeps the newest payload and sends nothing. */
  lemma StepWaiting(p: Platform, s: State, e: Event)
    requires Sound(s) && Possible(s, e) && !s.ready && e != Ready
    ensures var t := Step(p, s, e).0;
            var a := AcceptedBy(p, s, e);
            && !t.ready && t.child == []
            && t.pending == if a == [] then s.pending else Some(a[0])
  {
  }

  function Waiting(s: State): seq<string> {
    if s.pending.Some? then [s.pending.value] else []
  }

  /** Until the popup engine reports ready, only the newest payload is kept. */
  lemma {:induction false} WaitingForReady(p: Platform, es: seq<Event>)
    requires Legal(p, es) && Ready !in es
    ensures !Run(p, es).ready && LastOnly(Accepted(p, es, 0)) == Waiting(Run(p, es))
  {
    if es != [] {
      var n := |es| - 1;
      WaitingForReady(p, es[..n]);
      EveryRunSound(p, es[..n]);
      assert es[n] in es;
      StepWaiting(p, Run(p, es[..n]), es[n]);
    }
  }

  /** What has been handed over, as a function of the history. */
  ghost predicate Delivered(p: Platform, es: seq<Event>, first: seq<string>, k: nat) {
    Run(p, es).ready && Payloads(Run(p, es).child) == first + Accepted(p, es, k)
  }

  lemma DeliveredAtReady(p: Platform, es: seq<Event>)
    requires es != [] && Legal(p, es) && es[|es| - 1] == Ready && Ready !in es[..|es| - 1]
    ensures Delivered(p, es, LastOnly(Accepted(p, es[..|es| - 1], 0)), |es|)
  {
    var front := es[..|es| - 1];
    WaitingForReady(p, front);
    EveryRunSound(p, front);
    StepReady(Run(p, front), p);
  }

  lemma DeliveredNext(p: Platform, es: seq<Event>, first: seq<string>, k: nat)
    requires k < |es| && Legal(p, es) && Delivered(p, es[..|es| - 1], first, k)
    ensures Delivered(p, es, first, k)
  {
    var front, last := es[..|es| - 1], es[|es| - 1];
    EveryRunSound(p, front);
    StepPayloads(p, Run(p, front), last);
    var before, more := Accepted(p, front, k), AcceptedBy(p, Run(p, front), last);
    assert Accepted(p, es, k) == before + more;
    assert first + before + more == first + (before + more);
  }

  /** The payloads that reach the popup engine: of the shows before its first
      `ready` (event `k`) the last one, then every later accepted show, in order. */
  lemma {:induction false} DeliveredExactly(p: Platform, es: seq<Event>, k: nat)
    requires Legal(p, es) && k < |es| && es[k] == Ready && Ready !in es[..k]
    ensures Run(p, es).ready
    ensures Payloads(Run(p, es).child) == LastOnly(Accepted(p, es[..k], 0)) + Accepted(p, es, k + 1)
    decreases |es|
  {
    var n := |es| - 1;
    if n == k {
      DeliveredAtReady(p, es);
    } else {
      assert es[..n][..k] == es[..k];
      DeliveredExactly(p, es[..n], k);
      DeliveredNext(p, es, LastOnly(Accepted(p, es[..k], 0)), k + 1);
    }
  }

  lemma StepReady(s: State, p: Platform)
    requires Sound(s) && s.window && !s.ready
    ensures Step(p, s, Ready).0.ready && Payloads(Step(p, s, Ready).0.child) == Waiting(s)
  {
    if s.pending.Some? {
      var m := SetPayload(s.pending.value);
      assert Step(p, s, Ready).0.child == s.child + [m] == [m];
      PayloadsOfOne(m);
    }
  }

  lemma PayloadsOfOne(m: ToChild)
    requires m.SetPayload?
    ensures Payloads([m]) == [m.payload]
  {
    assert [m][..0] == [];
  }

  /** Once ready, a step sends at most one message, and it is the payload of an
      accepted show or no payload at all. */
  lemma StepSends(p: Platform, s: State, e: Event)
    requires Sound(s) && Possible(s, e) && s.ready
    ensures var t := Step(p, s, e).0;
            && t.ready
            && if AcceptedBy(p, s, e) != [] then t.child == s.child + [SetPayload(e.payload.value)]
               else t.child == s.child || exists m: ToChild :: !m.SetPayload? && t.child == s.child + [m]
  {
    match e
    case Append(Some(url)) => assert !AppendPayload(url).SetPayload?;
    case Relay(Some(json)) => assert !ToChild.OnRelay(json).SetPayload?;
    case _ =>
  }

  /** Once ready, a step hands over exactly what it accepts. */
  lemma StepPayloads(p: Platform, s: State, e: Event)
    requires Sound(s) && Possible(s, e) && s.ready
    ensures Step(p, s, e).0.ready
    ensures Payloads(Step(p, s, e).0.child) == Payloads(s.child) + AcceptedBy(p, s, e)
  {
    StepSends(p, s, e);
    var t := Step(p, s, e).0;
    if AcceptedBy(p, s, e) != [] {
    } else if t.child != s.child {
      var m: ToChild :| !m.SetPayload? && t.child == s.child + [m];
    }
  }

  // ---- who is on screen ----------------------------------------------------------

  /** A step that hides the window: an accepted show, or the end of a request. */
  predicate Hides(p: Platform, s: State, e: Event) {
    match e
    case Show(_, _) => AcceptedBy(p, s, e) != []
    case Submit(json) => json.Some?
    case Close | Cancel | SystemClose => true
    case _ => false
  }

  /** A step that puts it on screen. */
  predicate Presents(p: Platform, e: Event) {
    e == FallbackFires || (e.Reveal? && (e.sized || p != Linux))
  }

  /** What one step does to the screen and the fallback. */
  lemma StepOnScreen(p: Platform, s: State, e: Event)
    requires Sound(s) && Possible(s, e)
    ensures var t := Step(p, s, e).0;
            if Hides(p, s, e) then !t.visible && (t.timer <==> e.Show?)
            else if Presents(p, e) then t.visible && !t.timer
            else t.visible == s.visible && t.timer == s.timer
  {
  }

  /** No step from event `k` on hides the window. */
  predicate NoneHides(p: Platform, es: seq<Event>, k: nat) {
    |es| <= k || (NoneHides(p, es[..|es| - 1], k) && !Hides(p, Run(p, es[..|es| - 1]), es[|es| - 1]))
  }

  /** Some event from `k` on presents it. */
  predicate SomePresents(p: Platform, es: seq<Event>, k: nat) {
    |es| > k && (SomePresents(p, es[..|es| - 1], k) || Presents(p, es[|es| - 1]))
  }

  lemma {:induction false} SomePresentsAt(p: Platform, es: seq<Event>, k: nat)
    ensures SomePresents(p, es, k) <==> exists i | k <= i < |es| :: Presents(p, es[i])
  {
    if |es| > k {
      var n := |es| - 1;
      SomePresentsAt(p, es[..n], k);
      assert forall i | k <= i < n :: es[..n][i] == es[i];
    }
  }

  /** After the window was last hidden, by event `k`, it is on screen exactly if
      something presented it since; the fallback is armed exactly if that event
      was a show and nothing presented the window since. */
  lemma {:induction false} OnScreenExactly(p: Platform, es: seq<Event>, k: nat)
    requires Legal(p, es) && k < |es|
    requires Hides(p, Run(p, es[..k]), es[k]) && NoneHides(p, es, k + 1)
    ensures Run(p, es).visible <==> SomePresents(p, es, k + 1)
    ensures Run(p, es).timer <==> es[k].Show? && !SomePresents(p, es, k + 1)
    decreases |es|
  {
    var n := |es| - 1;
    EveryRunSound(p, es[..n]);
    StepOnScreen(p, Run(p, es[..n]), es[n]);
    if k < n {
      assert es[..n][..k] == es[..k];
      OnScreenExactly(p, es[..n], k);
    }
  }

  /** A show is outstanding until it is submitted, cancelled or closed. */
  function Outstanding(p: Platform, es: seq<Event>): bool {
    if es == [] then false
    else
      var n := |es| - 1;
      if Hides(p, Run(p, es[..n]), es[n]) then es[n].Show? else Outstanding(p, es[..n])
  }

  /** No request is lost: while one is outstanding, its window is on screen or
      the fallback will put it there; and the fallback is never armed without one. */
  lemma {:induction false} NeverLost(p: Platform, es: seq<Event>)
    requires Legal(p, es)
    ensures Outstanding(p, es) ==> Run(p, es).visible || Run(p, es).timer
    ensures Run(p, es).timer ==> Outstanding(p, es) && !Run(p, es).visible
  {
    if es != [] {
      NeverLost(p, es[..|es| - 1]);
      EveryRunSound(p, es[..|es| - 1]);
      StepOnScreen(p, Run(p, es[..|es| - 1]), es[|es| - 1]);
    }
  }

  /** The converse fails: a reveal that arrives after a cancel shows the popup
      again although nothing is outstanding. */
  lemma ShownWithoutRequest(p: Platform)
    ensures var es := [Show(Some("a"), true), Cancel, Reveal(true)];
            Legal(p, es) && Run(p, es).visible && !Outstanding(p, es)
  {
    var a := [Show(Some("a"), true)];
    var b := [Show(Some("a"), true), Cancel];
    var c := [Show(Some("a"), true), Cancel, Reveal(true)];
    assert [] + [a[0]] == a;
    assert a + [Cancel] == b;
    assert b + [Reveal(true)] == c;
    assert c[..2] == b && b[..1] == a && a[..0] == [];
  }

  /** And that is the only way: after event `k` has ended a request, the popup
      is on screen exactly if a reveal came since; the fallback never shows it. */
  lemma ShownWithoutRequestExactly(p: Platform, es: seq<Event>, k: nat)
    requires Legal(p, es) && k < |es|
    requires Hides(p, Run(p, es[..k]), es[k]) && !es[k].Show? && NoneHides(p, es, k + 1)
    ensures FallbackFires !in es[k + 1..]
    ensures Run(p, es).visible <==> exists i | k < i < |es| :: es[i].Reveal? && Presents(p, es[i])
  {
    OnScreenExactly(p, es, k);
    SomePresentsAt(p, es, k + 1);
    NoFallbackAfterEnd(p, es, k);
  }

  lemma {:induction false} NoFallbackAfterEnd(p: Platform, es: seq<Event>, k: nat)
    requires Legal(p, es) && k < |es|
    requires Hides(p, Run(p, es[..k]), es[k]) && !es[k].Show? && NoneHides(p, es, k + 1)
    ensures forall i | k < i < |es| :: es[i] != FallbackFires
    decreases |es|
  {
    var n := |es| - 1;
    if k < n {
      assert es[..n][..k] == es[..k];
      OnScreenExactly(p, es[..n], k);
      assert es[n] != FallbackFires;
      NoFallbackAfterEnd(p, es[..n], k);
      assert forall i | k < i < n :: es[..n][i] == es[i];
    }
  }

  // ---- what the main engine hears ---------------------------------------------------

  function NoticeOf(e: Event): seq<ToHost> {
    match e
    case Submit(Some(json)) => [OnResult(json)]
    case ChildRelay(Some(json)) => [ToHost.OnRelay(json)]
    case Cancel | SystemClose => [OnClosed]
    case _ => []
  }

  function Notices(es: seq<Event>): seq<ToHost> {
    if es == [] then [] else Notices(es[..|es| - 1]) + NoticeOf(es[|es| - 1])
  }

  /** Every well-formed submit and relay, every cancel and system close reaches
      the main engine once and in order; nothing else does, in particular not a
      close that it asked for itself. */
  lemma StepNotices(p: Platform, s: State, e: Event)
    ensures Step(p, s, e).0.host == s.host + NoticeOf(e)
  {
  }

  lemma {:induction false} NoticesExactly(p: Platform, es: seq<Event>)
    ensures Run(p, es).host == Notices(es)
  {
    if es != [] {
      NoticesExactly(p, es[..|es| - 1]);
      StepNotices(p, Run(p, es[..|es| - 1]), es[|es| - 1]);
    }
  }

  // ---- what the popup engine hears, and what is answered ----------------------------

  /** What the popup engine hears of an event: of an accepted show its payload,
      at its first `ready` the payload that waits, of an append its address while
      the popup is on screen, and of a relay its text; nothing before ready. */
  function HeardOf(s: State, e: Event): seq<ToChild> {
    match e
    case Show(Some(payload), creates) => if s.ready then [SetPayload(payload)] else []
    case Ready => if s.pending.Some? then [SetPayload(s.pending.value)] else []
    case Append(Some(url)) => if s.visible && s.ready then [AppendPayload(url)] else []
    case Relay(Some(json)) => if s.ready then [ToChild.OnRelay(json)] else []
    case _ => []
  }

  function Heard(p: Platform, es: seq<Event>): seq<ToChild> {
    if es == [] then []
    else
      var n := |es| - 1;
      Heard(p, es[..n]) + HeardOf(Run(p, es[..n]), es[n])
  }

  lemma StepHeard(p: Platform, s: State, e: Event)
    requires Sound(s) && Possible(s, e)
    ensures Step(p, s, e).0.child == s.child + HeardOf(s, e)
  {
  }

  /** Over every legal run it hears exactly that, in this order. */
  lemma {:induction false} HeardExactly(p: Platform, es: seq<Event>)
    requires Legal(p, es)
    ensures Run(p, es).child == Heard(p, es)
  {
    if es != [] {
      var n := |es| - 1;
      HeardExactly(p, es[..n]);
      EveryRunSound(p, es[..n]);
      StepHeard(p, Run(p, es[..n]), es[n]);
    }
  }

  lemma StepStanding(p: Platform, s: State, e: Event)
    requires Sound(s) && Possible(s, e)
    ensures Step(p, s, e).0.ready <==> s.ready || e == Ready
    ensures Step(p, s, e).0.window <==> s.window || AcceptedBy(p, s, e) != []
  {
  }

  /** The popup engine counts as ready from its first `ready` on, and the window
      is there from the first accepted show on. */
  lemma {:induction false} StandingExactly(p: Platform, es: seq<Event>)
    requires Legal(p, es)
    ensures Run(p, es).ready <==> Ready in es
    ensures Run(p, es).window <==> Accepted(p, es, 0) != []
  {
    if es != [] {
      var n := |es| - 1;
      StandingExactly(p, es[..n]);
      EveryRunSound(p, es[..n]);
      StepStanding(p, Run(p, es[..n]), es[n]);
      assert es == es[..n] + [es[n]];
    }
  }

  /** What each request is answered: a show is refused only when Windows cannot
      make the window, an append unless the popup is on screen and ready, a relay
      unless it is ready; wrong arguments are reported, except that Windows
      answers false to a wrong append. */
  lemma RepliesExactly(p: Platform, es: seq<Event>, e: Event)
    requires Legal(p, es + [e])
    ensures var s := Run(p, es);
            Step(p, s, e).1 ==
              match e
              case Show(None, _) | Relay(None) | Submit(None) | ChildRelay(None) => BadArgs
              case Show(Some(_), creates) => Answer(creates || p != Windows || Accepted(p, es, 0) != [])
              case Append(None) => if p == Windows then Answer(false) else BadArgs
              case Append(Some(_)) => Answer(s.visible && Ready in es)
              case Relay(Some(_)) => Answer(Ready in es)
              case Reveal(sized) => if p == Linux && !sized then BadArgs else Done
              case _ => Done
  {
    EveryRunSound(p, es);
    StandingExactly(p, es);
  }

  /** The addresses among the messages to the popup engine. */
  function Urls(child: seq<ToChild>): seq<string> {
    if child == [] then []
    else
      var n := |child| - 1;
      Urls(child[..n]) + if child[n].AppendPayload? then [child[n].url] else []
  }

  /** The addresses of the appends that were answered with yes. */
  function Appended(p: Platform, es: seq<Event>): seq<string> {
    if es == [] then []
    else
      var n := |es| - 1;
      Appended(p, es[..n])
      + match es[n]
        case Append(Some(url)) => if Step(p, Run(p, es[..n]), es[n]).1 == Answer(true) then [url] else []
        case _ => []
  }

  lemma UrlsMore(child: seq<ToChild>, more: seq<ToChild>)
    requires |more| <= 1
    ensures Urls(child + more) == Urls(child) + if more != [] && more[0].AppendPayload? then [more[0].url] else []
  {
    if more == [] {
      assert child + more == child;
    } else {
      assert (child + more)[..|child|] == child;
    }
  }

  /** A yes to an append means that its address was handed over, and only then. */
  lemma {:induction false} AppendsExactly(p: Platform, es: seq<Event>)
    requires Legal(p, es)
    ensures Urls(Run(p, es).child) == Appended(p, es)
  {
    if es != [] {
      var n := |es| - 1;
      AppendsExactly(p, es[..n]);
      EveryRunSound(p, es[..n]);
      StepHeard(p, Run(p, es[..n]), es[n]);
      UrlsMore(Run(p, es[..n]).child, HeardOf(Run(p, es[..n]), es[n]));
    }
  }

  // ---- one protocol on three hosts -----------------------------------------------------

  /** Events that all three hosts treat alike. */
  predicate Portable(e: Event) {
    match e
    case Show(_, creates) => creates
    case Reveal(sized) => sized
    case _ => true
  }

  lemma StepPortable(p: Platform, q: Platform, s: State, e: Event)
    requires Sound(s) && Possible(s, e) && Portable(e)
    ensures Step(p, s, e).0 == Step(q, s, e).0
  {
  }

  lemma {:induction false} OneProtocol(p: Platform, q: Platform, es: seq<Event>)
    requires Legal(p, es) && forall e | e in es :: Portable(e)
    ensures Legal(q, es) && Run(p, es) == Run(q, es)
  {
    if es != [] {
      var n := |es| - 1;
      forall e | e in es[..n] ensures Portable(e) { assert e in es; }
      OneProtocol(p, q, es[..n]);
      EveryRunSound(p, es[..n]);
      assert es[n] in es;
      StepPortable(p, q, Run(p, es[..n]), es[n]);
    }
  }

  /** Where they part: Linux refuses a reveal without a usable height and leaves
      the popup to the fallback, the others show it. */
  lemma HostsDiffer(s: State, p: Platform)
    requires Sound(s) && s.window && p != Linux
    ensures Step(Linux, s, Reveal(false)).0 == Step(p, s, Reveal(false)).0 <==> s.visible
  {
  }

  // ---- the hosts ----------------------------------------------------------------------

  class PopupWindowHost {
    const platform: Platform
    var window: bool
    var visible: bool
    var childReady: bool
    var pendingPayload: Option<string>
    var revealTimer: bool
    var child: seq<ToChild>
    var host: seq<ToHost>

    ghost function Abs(): State
      reads this
    {
      State(window, visible, childReady, pendingPayload, revealTimer, child, host)
    }

    constructor (platform: Platform)
      ensures Abs() == START && this.platform == platform
    {
      this.platform := platform;
      window, visible, childReady, pendingPayload, revealTimer := false, false, false, None, false;
      child, host := [], [];
    }

    method CancelRevealFallback()
      modifies this`revealTimer
      ensures revealTimer == (old(revealTimer) && platform == Windows && !window)
    {
      if platform != Windows || window {
        revealTimer := false;
      }
    }

    method HidePopup()
      modifies this`revealTimer, this`visible
      ensures Abs() == Hide(platform, old(Abs()))
    {
      CancelRevealFallback();
      if window {
        visible := false;
      }
    }

    method PresentPopup()
      modifies this`revealTimer, this`visible
      ensures Abs() == Present(platform, old(Abs()))
    {
      if platform == MacOS {
        revealTimer := false;
      }
      if !window {
        return;
      }
      if platform == Windows {
        CancelRevealFallback();
      }
      visible := true;
    }

    method InvokeChild(m: ToChild)
      modifies this`child
      ensures Abs() == Send(old(Abs()), m)
    {
      if window {
        child := child + [m];
      }
    }

    method EnsureWindow(creates: bool) returns (ok: bool)
      modifies this`window, this`childReady, this`pendingPayload
      ensures ok == (old(window) || platform != Windows || creates) && window == ok
      ensures if platform == Windows && !old(window) then !childReady && pendingPayload == None
              else childReady == old(childReady) && pendingPayload == old(pendingPayload)
    {
      if window {
        return true;
      }
      if platform == Windows {
        childReady := false;
        pendingPayload := None;
        if !creates {
          return false;
        }
      }
      window := true;
      ok := true;
    }

    method HandleHostShow(payload: Option<string>, creates: bool) returns (r: Reply)
      modifies this
      ensures (Abs(), r) == Step(platform, old(Abs()), Show(payload, creates))
    {
      if payload.None? {
        return BadArgs;
      }
      var ok := EnsureWindow(creates);
      if !ok {
        return Answer(false);
      }
      HidePopup();
      if childReady {
        InvokeChild(SetPayload(payload.value));
      } else {
        pendingPayload := payload;
      }
      revealTimer := true;
      r := Answer(true);
    }

    method HandleHostAppend(url: Option<string>) returns (r: Reply)
      modifies this
      ensures (Abs(), r) == Step(platform, old(Abs()), Append(url))
    {
      if url.None? {
        return if platform == Windows then Answer(false) else BadArgs;
      }
      var can := window && visible && childReady;
      if can {
        InvokeChild(AppendPayload(url.value));
      }
      r := Answer(can);
    }

    method HandleHostRelay(json: Option<string>) returns (r: Reply)
      modifies this
      ensures (Abs(), r) == Step(platform, old(Abs()), Relay(json))
    {
      if json.None? {
        return BadArgs;
      }
      var can := childReady && window;
      if can {
        InvokeChild(ToChild.OnRelay(json.value));
      }
      r := Answer(can);
    }

    method HandleHostClose() returns (r: Reply)
      modifies this
      ensures (Abs(), r) == Step(platform, old(Abs()), Close)
    {
      HidePopup();
      r := Done;
    }

    method HandleChildReady() returns (r: Reply)
      modifies this
      ensures (Abs(), r) == Step(platform, old(Abs()), Ready)
    {
      childReady := true;
      if pendingPayload.Some? {
        InvokeChild(SetPayload(pendingPayload.value));
        pendingPayload := None;
      }
      r := Done;
    }

    method HandleChildSubmit(json: Option<string>) returns (r: Reply)
      modifies this
      ensures (Abs(), r) == Step(platform, old(Abs()), Submit(json))
    {
      if json.None? {
        return BadArgs;
      }
      HidePopup();
      host := host + [OnResult(json.value)];
      r := Done;
    }

    method HandleChildCancel() returns (r: Reply)
      modifies this
      ensures (Abs(), r) == Step(platform, old(Abs()), Cancel)
    {
      HidePopup();
      host := host + [OnClosed];
      r := Done;
    }

    method HandleChildRelay(json: Option<string>) returns (r: Reply)
      modifies this
      ensures (Abs(), r) == Step(platform, old(Abs()), ChildRelay(json))
    {
      if json.None? {
        return BadArgs;
      }
      host := host + [ToHost.OnRelay(json.value)];
      r := Done;
    }

    method HandleSystemClose() returns (r: Reply)
      modifies this
      ensures (Abs(), r) == Step(platform, old(Abs()), SystemClose)
    {
      HidePopup();
      host := host + [OnClosed];
      r := Done;
    }

    method HandleChildReveal(sized: bool) returns (r: Reply)
      modifies this
      ensures (Abs(), r) == Step(platform, old(Abs()), Reveal(sized))
    {
      if platform == Linux {
        if !window {
          return Done;
        }
        if !sized {
          return BadArgs;
        }
        CancelRevealFallback();
      }
      PresentPopup();
      r := Done;
    }

    method RevealFallback() returns (r: Reply)
      modifies this
      ensures (Abs(), r) == Step(platform, old(Abs()), FallbackFires)
    {
      if platform != Windows {
        revealTimer := false;
      }
      PresentPopup();
      r := Done;
    }
  }
}
