/** The Linux floating ball: it docks to a work-area edge when released near
    it, slides almost off-screen after the cursor leaves, and slides back when
    the cursor or a drag returns. */
module FloatingBall {
  import opened Wrappers

  datatype Area = Area(x: int, y: int, width: int, height: int)

  datatype Edge = NoEdge | Left | Right | Top

  /** A running slide: where from, where to, and when it began (microseconds). */
  datatype Slide = Slide(fromX: int, fromY: int, toX: int, toY: int, start: int)

  const DOCK_EDGE_PAD := 8
  const DOCK_SNAP_THRESHOLD := 12
  const DOCK_REVEAL_WIDTH := 14
  const DOCK_ANIM_US := 160 * 1000

  datatype State = State(x11: bool, window: bool, destroying: bool, x: int, y: int, size: int,
                         edge: Edge, collapsed: bool, pointerDown: bool, dragging: bool,
                         moveTimer: bool, collapseTimer: bool, slide: Option<Slide>)

  function Start(x11: bool): State {
    State(x11, false, false, 0, 0, 72, NoEdge, false, false, false, false, false, None)
  }

  // ---- arithmetic -------------------------------------------------------------------

  /** To the nearest integer, halves away from zero. */
  function Round(r: real): int {
    if r >= 0.0 then RoundUpFromZero(r) else 0 - RoundUpFromZero(-r)
  }

  function RoundUpFromZero(r: real): nat
    requires 0.0 <= r
    decreases r.Floor
  {
    if r < 0.5 then 0 else if r < 1.0 then 1 else 1 + RoundUpFromZero(r - 1.0)
  }

  lemma {:induction false} RoundUpMonotone(a: real, b: real)
    requires 0.0 <= a <= b
    ensures RoundUpFromZero(a) <= RoundUpFromZero(b)
    decreases b.Floor
  {
    if a >= 1.0 {
      RoundUpMonotone(a - 1.0, b - 1.0);
    }
  }

  lemma RoundMonotone(a: real, b: real)
    requires a <= b
    ensures Round(a) <= Round(b)
  {
    if a >= 0.0 {
      RoundUpMonotone(a, b);
    }
    if b < 0.0 {
      RoundUpMonotone(-b, -a);
    }
  }

  lemma {:induction false} RoundUpInt(n: nat)
    ensures RoundUpFromZero(n as real) == n
  {
    if n > 0 {
      RoundUpInt(n - 1);
      assert n as real - 1.0 == (n - 1) as real;
    }
  }

  lemma RoundInt(i: int)
    ensures Round(i as real) == i
  {
    RoundUpInt(if i >= 0 then i else -i);
    assert i < 0 ==> -(i as real) == (-i) as real;
  }

  lemma RoundUpwards(a: int, b: int, p: real, q: real)
    requires 0.0 <= p <= q <= (b - a) as real
    ensures a <= Round(a as real + p) <= Round(a as real + q) <= b
  {
    RoundInt(a);
    RoundInt(b);
    RoundMonotone(a as real, a as real + p);
    RoundMonotone(a as real + p, a as real + q);
    RoundMonotone(a as real + q, b as real);
  }

  lemma RoundDownwards(a: int, b: int, p: real, q: real)
    requires (b - a) as real <= q <= p <= 0.0
    ensures b <= Round(a as real + q) <= Round(a as real + p) <= a
  {
    RoundInt(a);
    RoundInt(b);
    RoundMonotone(b as real, a as real + q);
    RoundMonotone(a as real + q, a as real + p);
    RoundMonotone(a as real + p, a as real);
  }

  function Power(u: real, n: nat): real {
    if n == 0 then 1.0 else u * Power(u, n - 1)
  }

  lemma {:induction false} PowerMonotone(a: real, b: real, n: nat)
    requires 0.0 <= a <= b
    ensures 0.0 <= Power(a, n) <= Power(b, n)
  {
    if n > 0 {
      PowerMonotone(a, b, n - 1);
    }
  }

  /** Cubic ease-out. */
  function Ease(t: real): real {
    1.0 - Power(1.0 - t, 3)
  }

  /** How far a slide has come after some microseconds: 1 from its end on. */
  function Progress(elapsed: int): real {
    var t := (elapsed as real / 1000.0) / 160.0;
    if t >= 1.0 then 1.0 else t
  }

  lemma EasedProgress(early: int, late: int)
    requires 0 <= early <= late
    ensures 0.0 <= Ease(Progress(early)) <= Ease(Progress(late)) <= 1.0
    ensures late >= DOCK_ANIM_US ==> Ease(Progress(late)) == 1.0
  {
    var t, u := Progress(early), Progress(late);
    PowerMonotone(1.0 - u, 1.0 - t, 3);
    PowerMonotone(1.0 - t, 1.0, 3);
  }

  function Offset(a: int, b: int, e: real): real {
    (b - a) as real * e
  }

  /** The point at a fraction of the way between two coordinates. */
  function Along(a: int, b: int, e: real): int {
    Round(a as real + Offset(a, b, e))
  }

  lemma OffsetMonotone(a: int, b: int, e: real, f: real)
    requires 0.0 <= e <= f <= 1.0 && a <= b
    ensures 0.0 <= Offset(a, b, e) <= Offset(a, b, f) <= (b - a) as real
  {
    var d := (b - a) as real;
    assert Offset(a, b, f) == d * f <= d * 1.0 == d;
  }

  lemma OffsetReversed(a: int, b: int, e: real)
    ensures Offset(a, b, e) == -Offset(b, a, e)
  {
  }

  lemma AlongUpwards(a: int, b: int, e: real, f: real)
    requires 0.0 <= e <= f <= 1.0 && a <= b
    ensures a <= Along(a, b, e) <= Along(a, b, f) <= b
  {
    OffsetMonotone(a, b, e, f);
    RoundUpwards(a, b, Offset(a, b, e), Offset(a, b, f));
  }

  lemma AlongDownwards(a: int, b: int, e: real, f: real)
    requires 0.0 <= e <= f <= 1.0 && a >= b
    ensures a >= Along(a, b, e) >= Along(a, b, f) >= b
  {
    OffsetMonotone(b, a, e, f);
    OffsetReversed(a, b, e);
    OffsetReversed(a, b, f);
    RoundDownwards(a, b, Offset(a, b, e), Offset(a, b, f));
  }

  function Between(a: int, b: int, elapsed: int): int {
    Along(a, b, Ease(Progress(elapsed)))
  }

  /** A coordinate moves monotonically from where the slide began to its target
      and never leaves the way between them. */
  lemma SlidesMonotonically(a: int, b: int, early: int, late: int)
    requires 0 <= early <= late
    ensures a <= b ==> a <= Between(a, b, early) <= Between(a, b, late) <= b
    ensures a >= b ==> a >= Between(a, b, early) >= Between(a, b, late) >= b
  {
    EasedProgress(early, late);
    if a <= b {
      AlongUpwards(a, b, Ease(Progress(early)), Ease(Progress(late)));
    }
    if a >= b {
      AlongDownwards(a, b, Ease(Progress(early)), Ease(Progress(late)));
    }
  }

  /** From 160 ms on it is exactly at the target. */
  lemma SlideEnds(a: int, b: int, elapsed: int)
    requires elapsed >= DOCK_ANIM_US
    ensures Between(a, b, elapsed) == b
  {
    EasedProgress(elapsed, elapsed);
    RoundInt(b);
    assert Offset(a, b, 1.0) == (b - a) as real;
  }

  // ---- steps ------------------------------------------------------------------------------

  /** What happens to the ball: calls of the main engine, pointer and window
      events, and timers. Steps that look at the work area or the clock carry
      what they see. `own` marks a configure event caused by a slide. */
  datatype Event =
    | Show(reqX: real, reqY: real, primary: Area, area: Area, now: int)
    | Hide
    | Destroy
    | WindowGone
    | Resized(logical: int)
    | Configure(own: bool)
    | WmMoves(toX: int, toY: int)
    | Press
    | Release
    | Motion(far: bool)
    | DragMotion(area: Area, now: int)
    | Enter(normal: bool, area: Area, now: int)
    | Leave(normal: bool)
    | MoveSettled(area: Area, now: int)
    | CollapseDue(area: Area, now: int)
    | Tick(now: int)

  function Clamp(v: int, low: int, high: int): int {
    var m := if v < high then v else high;
    if low > m then low else m
  }

  /** A negative request means the default place: right edge, 40% down. */
  function ResolvePosition(reqX: real, reqY: real, wa: Area, size: int): (int, int) {
    if reqX < 0.0 || reqY < 0.0 then
      (wa.x + wa.width - size - DOCK_EDGE_PAD, wa.y + Round(wa.height as real * 0.4))
    else
      (Clamp(Round(reqX), wa.x, wa.x + wa.width - size), Clamp(Round(reqY), wa.y, wa.y + wa.height - size))
  }

  function ExpandedPos(s: State, wa: Area): (int, int) {
    match s.edge
    case Left => (wa.x, s.y)
    case Right => (wa.x + wa.width - s.size, s.y)
    case Top => (s.x, wa.y)
    case NoEdge => (s.x, s.y)
  }

  function CollapsedPos(s: State, wa: Area): (int, int) {
    match s.edge
    case Left => (wa.x - s.size + DOCK_REVEAL_WIDTH, s.y)
    case Right => (wa.x + wa.width - DOCK_REVEAL_WIDTH, s.y)
    case Top => (s.x, wa.y - s.size + DOCK_REVEAL_WIDTH)
    case NoEdge => (s.x, s.y)
  }

  function CancelDock(s: State): State {
    s.(collapseTimer := false, slide := None)
  }

  function SlideTo(s: State, target: (int, int), now: int): State {
    if !s.window || (s.slide.None? && (s.x, s.y) == target) then s
    else s.(slide := Some(Slide(s.x, s.y, target.0, target.1, now)))
  }

  function NearEdge(s: State, wa: Area): Edge {
    if s.x - wa.x <= DOCK_SNAP_THRESHOLD then Left
    else if (wa.x + wa.width) - (s.x + s.size) <= DOCK_SNAP_THRESHOLD then Right
    else if s.y - wa.y <= DOCK_SNAP_THRESHOLD then Top
    else NoEdge
  }

  function EvaluateDock(s: State, wa: Area, now: int): State {
    if !s.window then s
    else
      var t := CancelDock(s).(edge := NearEdge(s, wa), collapsed := false);
      if t.edge == NoEdge then t else SlideTo(t, ExpandedPos(t, wa), now)
  }

  function ExpandIfCollapsed(s: State, wa: Area, now: int): State {
    if !s.window || s.edge == NoEdge || !s.collapsed then s
    else SlideTo(s.(collapsed := false), ExpandedPos(s, wa), now)
  }

  function StepShow(s: State, reqX: real, reqY: real, primary: Area, area: Area, now: int): State {
    if !s.x11 then s
    else
      var p := ResolvePosition(reqX, reqY, primary, s.size);
      EvaluateDock(s.(window := true, destroying := false, x := p.0, y := p.1), area, now)
  }

  function StepHide(s: State): State {
    CancelDock(s.(destroying := true, moveTimer := false))
  }

  function StepMotion(s: State, far: bool): State {
    if !s.pointerDown || s.dragging || !far then s
    else CancelDock(s.(dragging := true, edge := NoEdge, collapsed := false))
  }

  function StepEnter(s: State, normal: bool, wa: Area, now: int): State {
    if s.destroying || !normal || s.edge == NoEdge then s
    else if s.collapsed then ExpandIfCollapsed(s, wa, now)
    else s.(collapseTimer := false)
  }

  function StepLeave(s: State, normal: bool): State {
    if s.destroying || !normal || s.edge == NoEdge || s.collapsed || s.pointerDown then s
    else s.(collapseTimer := true)
  }

  function StepMoveSettled(s: State, wa: Area, now: int): State {
    var t := s.(moveTimer := false);
    if !t.window || t.destroying then t else EvaluateDock(t, wa, now)
  }

  function StepCollapse(s: State, wa: Area, now: int): State {
    var t := s.(collapseTimer := false);
    if !t.window || t.destroying || t.edge == NoEdge || t.collapsed then t
    else SlideTo(t.(collapsed := true), CollapsedPos(t, wa), now)
  }

  function StepTick(s: State, now: int): State
    requires s.slide.Some?
  {
    var a := s.slide.value;
    if !s.window || s.destroying then s.(slide := None)
    else
      var t := s.(x := Between(a.fromX, a.toX, now - a.start), y := Between(a.fromY, a.toY, now - a.start));
      if now - a.start >= DOCK_ANIM_US then t.(slide := None) else t
  }

  function Step(s: State, e: Event): State
    requires Possible(s, e)
  {
    match e
    case Show(reqX, reqY, primary, area, now) => StepShow(s, reqX, reqY, primary, area, now)
    case Hide => StepHide(s)
    case Destroy =>
      StepHide(s).(window := false, pointerDown := false, dragging := false, edge := NoEdge, collapsed := false)
    case WindowGone => s.(window := false)
    case Resized(logical) => if s.window && logical > 0 then s.(size := logical) else s
    case Configure(own) => if s.destroying || own then s else s.(moveTimer := true)
    case WmMoves(toX, toY) => s.(x := toX, y := toY)
    case Press => s.(pointerDown := true, dragging := false)
    case Release => s.(pointerDown := false, dragging := false)
    case Motion(far) => StepMotion(s, far)
    case DragMotion(area, now) => ExpandIfCollapsed(s, area, now)
    case Enter(normal, area, now) => StepEnter(s, normal, area, now)
    case Leave(normal) => StepLeave(s, normal)
    case MoveSettled(area, now) => StepMoveSettled(s, area, now)
    case CollapseDue(area, now) => StepCollapse(s, area, now)
    case Tick(now) => StepTick(s, now)
  }

  /** Window events need a window, timers fire only while armed. */
  predicate Possible(s: State, e: Event) {
    match e
    case WindowGone | Configure(_) | WmMoves(_, _) | Press | Release | Motion(_) | DragMotion(_, _)
       | Enter(_, _, _) | Leave(_) => s.window
    case MoveSettled(_, _) => s.moveTimer
    case CollapseDue(_, _) => s.collapseTimer
    case Tick(_) => s.slide.Some?
    case _ => true
  }

  predicate Legal(s: State, es: seq<Event>)
    decreases |es|
  {
    es == [] || (Possible(s, es[0]) && Legal(Step(s, es[0]), es[1..]))
  }

  function Run(s: State, es: seq<Event>): State
    requires Legal(s, es)
    decreases |es|
  {
    if es == [] then s else Run(Step(s, es[0]), es[1..])
  }

  // ---- every reachable state ---------------------------------------------------------------------

  predicate Sound(s: State) {
    && (s.collapsed ==> s.edge != NoEdge)
    && (s.collapseTimer ==> s.edge != NoEdge && !s.collapsed)
    && (s.slide.Some? ==> s.edge != NoEdge)
    && (s.destroying ==> !s.moveTimer && !s.collapseTimer)
  }

  lemma StepSound(s: State, e: Event)
    requires Sound(s) && Possible(s, e)
    ensures Sound(Step(s, e))
    ensures e.Hide? || e.Destroy? ==>
              !Step(s, e).moveTimer && !Step(s, e).collapseTimer && Step(s, e).slide.None?
  {
  }

  lemma {:induction false} EveryRunSound(s: State, es: seq<Event>)
    requires Sound(s) && Legal(s, es)
    ensures Sound(Run(s, es))
    decreases |es|
  {
    if es != [] {
      StepSound(s, es[0]);
      EveryRunSound(Step(s, es[0]), es[1..]);
    }
  }

  lemma EveryReachableStateSound(x11: bool, es: seq<Event>)
    requires Legal(Start(x11), es)
    ensures Sound(Run(Start(x11), es))
  {
    EveryRunSound(Start(x11), es);
  }

  // ---- one part of the state at a time ------------------------------------------------

  /** Events that judge docking. */
  predicate Judges(s: State, e: Event) {
    (e.Show? && s.x11) || (e.MoveSettled? && s.window && !s.destroying)
  }

  /** A pressed pointer that has gone far enough begins a drag. */
  predicate Drags(s: State, e: Event) { e.Motion? && e.far && s.pointerDown && !s.dragging }

  /** The cursor, or something dragged, comes over the ball. */
  predicate Hovers(s: State, e: Event) { (e.Enter? && e.normal && !s.destroying) || e.DragMotion? }

  /** The collapse is pending from a leave of a docked, expanded and unpressed
      ball until it is due, or called off by the cursor's return, a drag, a new
      judgement, or the end of the ball. */
  lemma CollapseTimerExactly(s: State, e: Event)
    requires Sound(s) && Possible(s, e)
    ensures Step(s, e).collapseTimer <==>
              || (e.Leave? && e.normal && !s.destroying && s.edge != NoEdge && !s.collapsed && !s.pointerDown)
              || (s.collapseTimer && !e.CollapseDue? && !(e.Enter? && e.normal) && !Drags(s, e) && !Judges(s, e)
                  && !e.Hide? && !e.Destroy?)
  {
  }

  /** The ball is collapsed from when that is due until something comes over it, it
      is dragged away, judged anew or destroyed. */
  lemma CollapsedExactly(s: State, e: Event)
    requires Sound(s) && Possible(s, e)
    ensures Step(s, e).collapsed <==>
              || (e.CollapseDue? && s.window)
              || (s.collapsed && !(Hovers(s, e) && s.window) && !Drags(s, e) && !Judges(s, e) && !e.Destroy?)
  {
    match e
    case CollapseDue(_, _) =>
    case DragMotion(_, _) =>
    case Enter(_, _, _) =>
    case _ =>
  }

  /** A user's move is pending from the window's report until it has settled or
      the ball goes away. */
  lemma MoveTimerExactly(s: State, e: Event)
    requires Possible(s, e)
    ensures Step(s, e).moveTimer <==>
              || (e.Configure? && !e.own && !s.destroying)
              || (s.moveTimer && !e.MoveSettled? && !e.Hide? && !e.Destroy?)
  {
    match e
    case Configure(_) =>
    case MoveSettled(_, _) =>
    case _ =>
  }

  /** The edge changes only when docking is judged, a drag begins, or the ball is
      destroyed. */
  lemma EdgeExactly(s: State, e: Event)
    requires Possible(s, e)
    ensures Drags(s, e) || e.Destroy? ==> Step(s, e).edge == NoEdge
    ensures !Drags(s, e) && !e.Destroy? && !Judges(s, e) ==> Step(s, e).edge == s.edge
  {
  }

  /** The window comes with a show and goes when it is destroyed; the ball counts
      as hidden from a hide or destroy to the next show. */
  lemma WindowExactly(s: State, e: Event)
    requires Possible(s, e)
    ensures Step(s, e).window <==> (e.Show? && s.x11) || (s.window && !e.Destroy? && !e.WindowGone?)
    ensures Step(s, e).destroying <==> e.Hide? || e.Destroy? || (s.destroying && !(e.Show? && s.x11))
    ensures Step(s, e).size == if e.Resized? && s.window && e.logical > 0 then e.logical else s.size
  {
    match e
    case Show(_, _, _, _, _) =>
    case Resized(_) =>
    case _ =>
  }

  /** The pointer is down from a press to its release or the end of the ball. */
  lemma PointerExactly(s: State, e: Event)
    requires Possible(s, e)
    ensures Step(s, e).pointerDown <==> e.Press? || (s.pointerDown && !e.Release? && !e.Destroy?)
  {
    match e
    case Press =>
    case _ =>
  }

  /** And it drags from when it has gone far enough. */
  lemma DraggingExactly(s: State, e: Event)
    requires Possible(s, e)
    ensures Step(s, e).dragging <==> Drags(s, e) || (s.dragging && !e.Press? && !e.Release? && !e.Destroy?)
  {
    match e
    case Motion(_) =>
    case _ =>
  }

  /** Nothing moves the ball but the window manager, a tick of a slide on a ball
      that is not hidden, and a show. */
  lemma MovesExactly(s: State, e: Event)
    requires Possible(s, e)
    ensures var t := Step(s, e);
            if e.WmMoves? then (t.x, t.y) == (e.toX, e.toY)
            else if e.Tick? && s.window && !s.destroying then
              t.x == Between(s.slide.value.fromX, s.slide.value.toX, e.now - s.slide.value.start)
              && t.y == Between(s.slide.value.fromY, s.slide.value.toY, e.now - s.slide.value.start)
            else !(e.Show? && s.x11) ==> (t.x, t.y) == (s.x, s.y)
  {
  }

  // ---- hidden ------------------------------------------------------------------------

  /** What a hidden ball does: nothing, except that a drag over a collapsed one
      starts a slide, which its first tick ends without moving anything. */
  lemma StepHidden(s: State, e: Event)
    requires Sound(s) && Possible(s, e) && s.destroying && !e.Show?
    ensures var t := Step(s, e);
            && t.destroying && !t.moveTimer && !t.collapseTimer
            && (e.WmMoves? || (t.x == s.x && t.y == s.y))
            && (t.window ==> s.window) && (t.collapsed ==> s.collapsed)
  {
    match e
    case DragMotion(_, _) =>
    case Tick(_) =>
    case _ =>
  }

  /** A slide that was under way when the ball was hidden outlives the event. */
  predicate SlideGoesOn(s: State, e: Event) {
    s.slide.Some? && !e.Tick? && !e.Hide? && !e.Destroy? && !(e.Motion? && e.far && s.pointerDown && !s.dragging)
  }

  /** A drag over a collapsed ball that is not where it expands to. */
  predicate Wakes(s: State, e: Event) {
    e.DragMotion? && s.collapsed && (s.slide.Some? || (s.x, s.y) != ExpandedPos(s, e.area))
  }

  /** Exactly when a hidden ball has a slide after an event. */
  lemma StepHiddenSlides(s: State, e: Event)
    requires Sound(s) && Possible(s, e) && s.destroying && !e.Show?
    ensures Step(s, e).slide.Some? <==> SlideGoesOn(s, e) || Wakes(s, e)
  {
    match e
    case DragMotion(area, now) => assert s.collapsed ==> s.edge != NoEdge;
    case _ =>
  }

  predicate ShowFree(es: seq<Event>) { forall e | e in es :: !e.Show? }

  /** From a hide to the next show no timer is pending and the ball does not
      move itself; only a slide can begin, and only over a collapsed ball. */
  lemma {:induction false} HiddenIsQuiet(s: State, es: seq<Event>)
    requires Sound(s) && s.destroying && Legal(s, es) && ShowFree(es)
    ensures var t := Run(s, es);
            && t.destroying && !t.moveTimer && !t.collapseTimer
            && ((forall e | e in es :: !e.WmMoves?) ==> (t.x, t.y) == (s.x, s.y))
            && (t.slide.Some? ==> s.slide.Some? || (s.window && s.collapsed && exists e | e in es :: e.DragMotion?))
    decreases |es|
  {
    if es != [] {
      StepSound(s, es[0]);
      StepHidden(s, es[0]);
      StepHiddenSlides(s, es[0]);
      HiddenIsQuiet(Step(s, es[0]), es[1..]);
    }
  }

  /** Some course of events that does not show the ball has it sliding. */
  ghost predicate CanWake(s: State) {
    exists es: seq<Event> :: Legal(s, es) && ShowFree(es) && Run(s, es).slide.Some?
  }

  /** An area in which a docked ball does not stand where it expands to. */
  function AreaElsewhere(s: State): Area { Area(s.x + 1, s.y + 1, s.size, s.size) }

  lemma DragWakes(s: State)
    requires Sound(s) && s.destroying && s.window && s.collapsed
    ensures CanWake(s)
  {
    var e := DragMotion(AreaElsewhere(s), 0);
    var es := [e];
    StepHiddenSlides(s, e);
    assert Legal(Step(s, e), es[1..]);
    assert Legal(s, es) && Run(s, es) == Step(s, e);
  }

  /** A hidden ball at rest can be made to slide again exactly when its window
      is still there and it was collapsed. */
  lemma HiddenWakesExactly(s: State)
    requires Sound(s) && s.destroying && s.slide.None?
    ensures CanWake(s) <==> s.window && s.collapsed
  {
    if s.window && s.collapsed {
      DragWakes(s);
    }
    forall es: seq<Event> | Legal(s, es) && ShowFree(es) && Run(s, es).slide.Some?
      ensures s.window && s.collapsed
    {
      HiddenIsQuiet(s, es);
    }
  }

  /** And such a slide is over, without a move, at its first tick. */
  lemma HiddenSlideEndsAtOnce(s: State, es: seq<Event>, now: int)
    requires Sound(s) && s.destroying && Legal(s, es) && ShowFree(es) && Run(s, es).slide.Some?
    ensures Possible(Run(s, es), Tick(now))
    ensures Step(Run(s, es), Tick(now)) == Run(s, es).(slide := None)
  {
    HiddenIsQuiet(s, es);
  }

  /** A hide is not the end of it: from any state with a window and a collapsed
      ball, a drag after the hide wakes it. */
  lemma DragWakesHiddenBall(s: State, wa: Area, now: int)
    requires Sound(s) && s.window
    ensures Step(StepHide(s), DragMotion(wa, now)).slide.Some? <==> s.collapsed && (s.x, s.y) != ExpandedPos(s, wa)
    ensures CanWake(StepHide(s)) <==> s.collapsed
  {
    StepSound(s, Hide);
    HiddenWakesExactly(StepHide(s));
  }

  // ---- docking ---------------------------------------------------------------------------

  /** Two ticks of one slide bring the ball ever closer to its target. */
  lemma TicksMonotone(s: State, early: int, late: int)
    requires s.slide.Some? && s.window && !s.destroying && s.slide.value.start <= early <= late
    requires early - s.slide.value.start < DOCK_ANIM_US
    ensures var a := s.slide.value;
            var t := StepTick(s, early);
            && t.slide == s.slide
            && var u := StepTick(t, late);
            && (a.fromX <= a.toX ==> a.fromX <= t.x <= u.x <= a.toX)
            && (a.fromX >= a.toX ==> a.fromX >= t.x >= u.x >= a.toX)
            && (a.fromY <= a.toY ==> a.fromY <= t.y <= u.y <= a.toY)
            && (a.fromY >= a.toY ==> a.fromY >= t.y >= u.y >= a.toY)
  {
    var a := s.slide.value;
    SlidesMonotonically(a.fromX, a.toX, early - a.start, late - a.start);
    SlidesMonotonically(a.fromY, a.toY, early - a.start, late - a.start);
  }

  /** The last tick, if a slide is running, puts the ball at the target. */
  function Settle(s: State, now: int): State {
    if s.slide.Some? then StepTick(s, now) else s
  }

  lemma SlideArrives(s: State, target: (int, int), begin: int, now: int)
    requires s.window && !s.destroying && s.slide.None? && now - begin >= DOCK_ANIM_US
    ensures Settle(SlideTo(s, target, begin), now) == s.(x := target.0, y := target.1)
  {
    SlideEnds(s.x, target.0, now - begin);
    SlideEnds(s.y, target.1, now - begin);
  }

  predicate Flush(s: State, wa: Area) {
    s.edge != NoEdge && (s.x, s.y) == ExpandedPos(s, wa)
  }

  /** The ball pinned to the edge it is near, if any. */
  function Docked(s: State, wa: Area): State {
    var d := CancelDock(s).(edge := NearEdge(s, wa), collapsed := false);
    d.(x := ExpandedPos(d, wa).0, y := ExpandedPos(d, wa).1)
  }

  /** Released near an edge the ball ends up flush with it; released elsewhere
      it stays where it is. */
  lemma DocksFlush(s: State, wa: Area, begin: int, now: int)
    requires s.window && !s.destroying && now - begin >= DOCK_ANIM_US
    ensures var t := Settle(EvaluateDock(s, wa, begin), now);
            t == Docked(s, wa) && if t.edge == NoEdge then (t.x, t.y) == (s.x, s.y) else Flush(t, wa)
  {
    var d := CancelDock(s).(edge := NearEdge(s, wa), collapsed := false);
    if d.edge != NoEdge {
      SlideArrives(d, ExpandedPos(d, wa), begin, now);
    }
  }

  /** Judging a docked ball again keeps its edge, unless it sits on the right of
      an area so narrow that the left edge, which is tried first, is as near. */
  lemma DockIsStableExactly(s: State, wa: Area, begin: int, now: int, again: int)
    requires s.window && !s.destroying && now - begin >= DOCK_ANIM_US && NearEdge(s, wa) != NoEdge
    ensures var t := Settle(EvaluateDock(s, wa, begin), now);
            EvaluateDock(t, wa, again) == t <==>
              NearEdge(s, wa) != Right || wa.width - s.size > DOCK_SNAP_THRESHOLD
  {
    DocksFlush(s, wa, begin, now);
    var t := Docked(s, wa);
    assert NearEdge(t, wa) == t.edge <==> NearEdge(s, wa) != Right || wa.width - s.size > DOCK_SNAP_THRESHOLD;
    if NearEdge(t, wa) == t.edge {
      assert CancelDock(t).(edge := NearEdge(t, wa), collapsed := false) == t;
    } else {
      assert EvaluateDock(t, wa, again).edge == NearEdge(t, wa);
    }
  }

  /** Such an area: eighty pixels for a ball of seventy-two. Docked right, the ball
      is judged again and goes left. */
  lemma NarrowAreaLosesRightDock(s: State, begin: int, now: int, again: int)
    requires s.window && !s.destroying && s.size == 72 && s.x == 20 && now - begin >= DOCK_ANIM_US
    ensures var wa := Area(0, 0, 80, 600);
            var t := Settle(EvaluateDock(s, wa, begin), now);
            t.edge == Right && t.x == 8 && EvaluateDock(t, wa, again).edge == Left
  {
    DocksFlush(s, Area(0, 0, 80, 600), begin, now);
  }

  lemma Collapses(s: State, wa: Area, begin: int, now: int)
    requires s.window && !s.destroying && s.slide.None? && s.edge != NoEdge && !s.collapsed
    requires now - begin >= DOCK_ANIM_US
    ensures var p := CollapsedPos(s, wa);
            Settle(StepCollapse(s, wa, begin), now) == s.(collapseTimer := false, collapsed := true, x := p.0, y := p.1)
  {
    SlideArrives(s.(collapseTimer := false, collapsed := true), CollapsedPos(s, wa), begin, now);
  }

  lemma Returns(s: State, wa: Area, begin: int, now: int)
    requires s.window && !s.destroying && s.slide.None? && s.edge != NoEdge && s.collapsed
    requires now - begin >= DOCK_ANIM_US
    ensures var p := ExpandedPos(s, wa);
            Settle(StepEnter(s, true, wa, begin), now) == s.(collapsed := false, x := p.0, y := p.1)
  {
    SlideArrives(s.(collapsed := false), ExpandedPos(s, wa), begin, now);
  }

  /** How much of the ball lies inside the work area, across its docked edge. */
  function Visible(s: State, wa: Area): int {
    match s.edge
    case Left => s.x + s.size - wa.x
    case Right => wa.x + wa.width - s.x
    case Top => s.y + s.size - wa.y
    case NoEdge => s.size
  }

  /** Collapsed, exactly the reveal width is left on screen; hovering then
      brings the ball back to exactly where it was. */
  lemma CollapseAndReturn(s: State, wa: Area, t0: int, t1: int, t2: int, t3: int)
    requires Sound(s) && s.window && !s.destroying && s.collapseTimer && s.slide.None? && Flush(s, wa)
    requires t1 - t0 >= DOCK_ANIM_US && t3 - t2 >= DOCK_ANIM_US
    ensures var c := Settle(StepCollapse(s, wa, t0), t1);
            && c.collapsed && Visible(c, wa) == 14
            && Settle(StepEnter(c, true, wa, t2), t3) == s.(collapseTimer := false)
  {
    Collapses(s, wa, t0, t1);
    var p := CollapsedPos(s, wa);
    Returns(s.(collapseTimer := false, collapsed := true, x := p.0, y := p.1), wa, t2, t3);
  }

  /** Where a ball at rest belongs, in pixels: within twelve of the left edge, or
      else of the right one, or else of the top, it is docked there. */
  function Place(x: int, y: int, size: int, wa: Area): (Edge, int, int) {
    if x - wa.x <= 12 then (Left, wa.x, y)
    else if wa.x + wa.width - (x + size) <= 12 then (Right, wa.x + wa.width - size, y)
    else if y - wa.y <= 12 then (Top, x, wa.y)
    else (NoEdge, x, y)
  }

  /** The ball put to rest there, with nothing pending. */
  function PutAt(s: State, p: (Edge, int, int)): State {
    s.(edge := p.0, x := p.1, y := p.2, collapsed := false, collapseTimer := false, slide := None)
  }

  lemma JudgedBallRests(s: State, wa: Area, begin: int, now: int)
    requires s.window && !s.destroying && now - begin >= 160000
    ensures Settle(EvaluateDock(s, wa, begin), now) == PutAt(s, Place(s.x, s.y, s.size, wa))
  {
    DocksFlush(s, wa, begin, now);
  }

  /** A ball that a user let go of comes to rest, 160 ms after the move settled,
      where it belongs. */
  lemma ReleasedBallRests(s: State, wa: Area, begin: int, now: int)
    requires Possible(s, MoveSettled(wa, begin)) && s.window && !s.destroying && now - begin >= 160000
    ensures Settle(Step(s, MoveSettled(wa, begin)), now) == PutAt(s.(moveTimer := false), Place(s.x, s.y, s.size, wa))
  {
    JudgedBallRests(s.(moveTimer := false), wa, begin, now);
  }

  /** A ball that is shown rests where it belongs from the requested position, or
      from eight pixels off the right edge and two fifths down; without X11 it is
      not shown at all. */
  lemma ShownBallRests(s: State, reqX: real, reqY: real, primary: Area, wa: Area, begin: int, now: int)
    requires now - begin >= 160000
    ensures var p := if reqX < 0.0 || reqY < 0.0
                     then (primary.x + primary.width - s.size - 8, primary.y + Round(primary.height as real * 0.4))
                     else (Clamp(Round(reqX), primary.x, primary.x + primary.width - s.size),
                           Clamp(Round(reqY), primary.y, primary.y + primary.height - s.size));
            var t := Step(s, Show(reqX, reqY, primary, wa, begin));
            if !s.x11 then t == s
            else Settle(t, now) == PutAt(s.(window := true, destroying := false), Place(p.0, p.1, s.size, wa))
  {
    if s.x11 {
      var p := ResolvePosition(reqX, reqY, primary, s.size);
      JudgedBallRests(s.(window := true, destroying := false, x := p.0, y := p.1), wa, begin, now);
    }
  }

  /** Half a pixel is all that rounding costs: at any moment of a slide a
      coordinate is the integer nearest to the cubic ease-out curve. */
  lemma FollowsTheCurve(a: int, b: int, elapsed: int)
    requires 0 <= elapsed <= 160000
    ensures var u := 1.0 - elapsed as real / 160000.0;
            var exact := a as real + (b - a) as real * (1.0 - u * u * u);
            -0.5 <= Between(a, b, elapsed) as real - exact <= 0.5
  {
    var u := 1.0 - elapsed as real / 160000.0;
    assert Progress(elapsed) == 1.0 - u;
    CubeIs(u);
    NearestInteger(a as real + Offset(a, b, Ease(Progress(elapsed))));
  }

  lemma CubeIs(u: real)
    ensures Power(u, 3) == u * u * u
  {
    assert Power(u, 1) == u * Power(u, 0) == u;
    assert Power(u, 2) == u * Power(u, 1) == u * u;
    assert Power(u, 3) == u * Power(u, 2) == u * (u * u) == u * u * u;
  }

  lemma {:induction false} NearestUp(r: real)
    requires 0.0 <= r
    ensures -0.5 <= RoundUpFromZero(r) as real - r <= 0.5
    decreases r.Floor
  {
    if r >= 1.0 {
      NearestUp(r - 1.0);
    }
  }

  lemma {:induction false} TiesUp(n: nat)
    ensures RoundUpFromZero(n as real + 0.5) == n + 1
  {
    if n > 0 {
      TiesUp(n - 1);
      assert n as real + 0.5 - 1.0 == (n - 1) as real + 0.5;
    }
  }

  /** Halfway between two integers it is the one further from zero. */
  lemma TiesGoOutward(n: nat)
    ensures Round(n as real + 0.5) == n + 1 && Round(-(n as real) - 0.5) == -(n + 1)
  {
    TiesUp(n);
    assert -(-(n as real) - 0.5) == n as real + 0.5;
  }

  lemma NearestInteger(r: real)
    ensures -0.5 <= Round(r) as real - r <= 0.5
  {
    NearestUp(if r >= 0.0 then r else -r);
  }

  /** A requested position is brought into the work area. */
  lemma ResolvedIsOnScreen(reqX: real, reqY: real, wa: Area, size: int)
    requires 0 <= size <= wa.width && size <= wa.height && reqX >= 0.0 && reqY >= 0.0
    ensures var p := ResolvePosition(reqX, reqY, wa, size);
            && wa.x <= p.0 <= wa.x + wa.width - size && wa.y <= p.1 <= wa.y + wa.height - size
    ensures forall a: int, b: int | reqX == a as real && reqY == b as real
              && wa.x <= a <= wa.x + wa.width - size && wa.y <= b <= wa.y + wa.height - size ::
              ResolvePosition(reqX, reqY, wa, size) == (a, b)
  {
    forall a: int, b: int | reqX == a as real && reqY == b as real
                            && wa.x <= a <= wa.x + wa.width - size && wa.y <= b <= wa.y + wa.height - size
      ensures ResolvePosition(reqX, reqY, wa, size) == (a, b)
    {
      RoundInt(a);
      RoundInt(b);
    }
  }

  /** Shown for the first time, without a remembered position, the ball docks
      to the right edge of any area wide enough to tell its edges apart. */
  lemma FirstShowDocksRight(wa: Area, begin: int, now: int)
    requires wa.width - 72 - DOCK_EDGE_PAD > DOCK_SNAP_THRESHOLD && now - begin >= DOCK_ANIM_US
    ensures var t := Settle(StepShow(Start(true), -1.0, -1.0, wa, wa, begin), now);
            t.edge == Right && Flush(t, wa) && t.slide.None? && t.y == wa.y + Round(wa.height as real * 0.4)
  {
    var p := ResolvePosition(-1.0, -1.0, wa, 72);
    DocksFlush(Start(true).(window := true, x := p.0, y := p.1), wa, begin, now);
  }

  // ---- the window ------------------------------------------------------------------------

  class FloatingBallWindow {
    const x11: bool
    var window: bool
    var destroying: bool
    var x: int
    var y: int
    var logicalSize: int
    var dockEdge: Edge
    var collapsed: bool
    var pointerDown: bool
    var dragging: bool
    var moveTimer: bool
    var collapseTimer: bool
    var slide: Option<Slide>

    ghost function Abs(): State
      reads this
    {
      State(x11, window, destroying, x, y, logicalSize, dockEdge, collapsed, pointerDown, dragging,
            moveTimer, collapseTimer, slide)
    }

    constructor (x11: bool)
      ensures Abs() == Start(x11)
    {
      this.x11 := x11;
      window, destroying, x, y, logicalSize := false, false, 0, 0, 72;
      dockEdge, collapsed, pointerDown, dragging := NoEdge, false, false, false;
      moveTimer, collapseTimer, slide := false, false, None;
    }

    method CancelDockTimeouts()
      modifies this`collapseTimer, this`slide
      ensures Abs() == CancelDock(old(Abs()))
    {
      collapseTimer := false;
      slide := None;
    }

    method StartDockAnim(targetX: int, targetY: int, now: int)
      modifies this`slide
      ensures Abs() == SlideTo(old(Abs()), (targetX, targetY), now)
    {
      if !window {
        return;
      }
      if slide.None? && x == targetX && y == targetY {
        return;
      }
      slide := Some(Slide(x, y, targetX, targetY, now));
    }

    method DockedExpandedPos(wa: Area) returns (targetX: int, targetY: int)
      ensures (targetX, targetY) == ExpandedPos(Abs(), wa)
    {
      targetX, targetY := x, y;
      match dockEdge
      case Left => targetX := wa.x;
      case Right => targetX := wa.x + wa.width - logicalSize;
      case Top => targetY := wa.y;
      case NoEdge =>
    }

    method DockedCollapsedPos(wa: Area) returns (targetX: int, targetY: int)
      ensures (targetX, targetY) == CollapsedPos(Abs(), wa)
    {
      targetX, targetY := x, y;
      match dockEdge
      case Left => targetX := wa.x - logicalSize + DOCK_REVEAL_WIDTH;
      case Right => targetX := wa.x + wa.width - DOCK_REVEAL_WIDTH;
      case Top => targetY := wa.y - logicalSize + DOCK_REVEAL_WIDTH;
      case NoEdge =>
    }

    method EvaluateDockSnap(wa: Area, now: int)
      modifies this`dockEdge, this`collapsed, this`collapseTimer, this`slide
      ensures Abs() == EvaluateDock(old(Abs()), wa, now)
    {
      if !window {
        return;
      }
      CancelDockTimeouts();
      var edge := NoEdge;
      if x - wa.x <= DOCK_SNAP_THRESHOLD {
        edge := Left;
      } else if (wa.x + wa.width) - (x + logicalSize) <= DOCK_SNAP_THRESHOLD {
        edge := Right;
      } else if y - wa.y <= DOCK_SNAP_THRESHOLD {
        edge := Top;
      }
      dockEdge := edge;
      collapsed := false;
      if edge == NoEdge {
        return;
      }
      var targetX, targetY := DockedExpandedPos(wa);
      StartDockAnim(targetX, targetY, now);
    }

    method DockExpandIfCollapsed(wa: Area, now: int)
      modifies this`collapsed, this`slide
      ensures Abs() == ExpandIfCollapsed(old(Abs()), wa, now)
    {
      if !window || dockEdge == NoEdge || !collapsed {
        return;
      }
      collapsed := false;
      var targetX, targetY := DockedExpandedPos(wa);
      StartDockAnim(targetX, targetY, now);
    }

    method HandleShowBall(reqX: real, reqY: real, primary: Area, wa: Area, now: int)
      modifies this
      ensures Abs() == Step(old(Abs()), Show(reqX, reqY, primary, wa, now))
    {
      if !x11 {
        return;
      }
      window := true;
      destroying := false;
      var p := ResolvePosition(reqX, reqY, primary, logicalSize);
      x, y := p.0, p.1;
      EvaluateDockSnap(wa, now);
    }

    method HandleHideBall()
      modifies this
      ensures Abs() == Step(old(Abs()), Hide)
    {
      destroying := true;
      moveTimer := false;
      CancelDockTimeouts();
    }

    method HandleDestroyBall()
      modifies this
      ensures Abs() == Step(old(Abs()), Destroy)
    {
      HandleHideBall();
      window := false;
      pointerDown, dragging := false, false;
      dockEdge, collapsed := NoEdge, false;
    }

    method ButtonPress()
      requires window
      modifies this`pointerDown, this`dragging
      ensures Abs() == Step(old(Abs()), Press)
    {
      pointerDown, dragging := true, false;
    }

    method ButtonRelease()
      requires window
      modifies this`pointerDown, this`dragging
      ensures Abs() == Step(old(Abs()), Release)
    {
      pointerDown, dragging := false, false;
    }

    method MotionNotify(far: bool)
      requires window
      modifies this
      ensures Abs() == Step(old(Abs()), Motion(far))
    {
      if !pointerDown || dragging || !far {
        return;
      }
      dragging := true;
      dockEdge := NoEdge;
      if collapsed {
        collapsed := false;
      }
      CancelDockTimeouts();
    }

    method ConfigureEvent(own: bool)
      requires window
      modifies this`moveTimer
      ensures Abs() == Step(old(Abs()), Configure(own))
    {
      if destroying || own {
        return;
      }
      moveTimer := true;
    }

    method MoveDebounce(wa: Area, now: int)
      requires moveTimer
      modifies this
      ensures Abs() == Step(old(Abs()), MoveSettled(wa, now))
    {
      moveTimer := false;
      if !window || destroying {
        return;
      }
      EvaluateDockSnap(wa, now);
    }

    method EnterNotify(normal: bool, wa: Area, now: int)
      requires window
      modifies this
      ensures Abs() == Step(old(Abs()), Enter(normal, wa, now))
    {
      if destroying || !normal || dockEdge == NoEdge {
        return;
      }
      if collapsed {
        DockExpandIfCollapsed(wa, now);
      } else {
        collapseTimer := false;
      }
    }

    method LeaveNotify(normal: bool)
      requires window
      modifies this`collapseTimer
      ensures Abs() == Step(old(Abs()), Leave(normal))
    {
      if destroying || !normal || dockEdge == NoEdge || collapsed || pointerDown {
        return;
      }
      collapseTimer := true;
    }

    method CollapseDelay(wa: Area, now: int)
      requires collapseTimer
      modifies this
      ensures Abs() == Step(old(Abs()), CollapseDue(wa, now))
    {
      collapseTimer := false;
      if !window || destroying || dockEdge == NoEdge || collapsed {
        return;
      }
      collapsed := true;
      var targetX, targetY := DockedCollapsedPos(wa);
      StartDockAnim(targetX, targetY, now);
    }

    method AnimTick(now: int)
      requires slide.Some?
      modifies this`x, this`y, this`slide
      ensures Abs() == Step(old(Abs()), Tick(now))
    {
      if !window || destroying {
        slide := None;
        return;
      }
      var a := slide.value;
      var elapsed := now - a.start;
      x, y := Between(a.fromX, a.toX, elapsed), Between(a.fromY, a.toY, elapsed);
      if elapsed >= DOCK_ANIM_US {
        slide := None;
      }
    }
  }
}
