/** The overlay seen from the page: once mounted it calls back "covered" once
    and then "finished" once, and it is mounted exactly while the transition
    flag is set. Its animation timeline is not modelled; the callback order is
    taken as an assumption and written down here as a protocol over traces of
    events, so that properties of whole runs of the page can be proved. */
module TransitionLayer {
  import opened Wrappers
  import opened Types
  import ThemeToggle
  import App

  /** Where the overlay is in its callback sequence. */
  datatype Phase = Unmounted | AwaitingCovered | AwaitingFinished

  /** The page state together with the overlay's phase. */
  datatype System = System(app: App.State, phase: Phase)

  /** What can happen to the page: a click on the toggle, or one of the two
      overlay callbacks. */
  datatype Event =
    | Click(rect: Option<ThemeToggle.Rect>, pointer: ThemeToggle.MouseEvent)
    | OnCovered
    | OnFinished

  /** The page on first load, with no overlay. */
  const Start: System := System(App.Initial, Unmounted)

  /** One event. A click goes through the button (disabled while the
      transition is active) and the toggle handler; a click that arms a
      transition mounts the overlay. A callback arrives only in the phase the
      overlay is in; any other callback is one the overlay never makes, and
      yields None. */
  function Step(sys: System, e: Event): (r: Option<System>)
    ensures e.Click? ==> r.Some?
    ensures e.OnCovered? ==> (r.Some? <==> sys.phase == AwaitingCovered)
    ensures e.OnFinished? ==> (r.Some? <==> sys.phase == AwaitingFinished)
  {
    match e
    case Click(rect, pointer) =>
      var pos := ThemeToggle.HandleClick(App.ToggleDisabled(sys.app), rect, pointer);
      if pos.None? then Some(sys)
      else
        var app := App.Toggle(sys.app, pos.value);
        Some(System(app, if App.OverlayMounted(app) && sys.phase == Unmounted then AwaitingCovered else sys.phase))
    case OnCovered =>
      if sys.phase == AwaitingCovered then Some(System(App.Covered(sys.app), AwaitingFinished)) else None
    case OnFinished =>
      if sys.phase == AwaitingFinished then Some(System(App.Finished(sys.app), Unmounted)) else None
  }

  /** A run of events, or None when some callback breaks the protocol. */
  function Run(sys: System, trace: seq<Event>): Option<System>
    decreases |trace|
  {
    if trace == [] then Some(sys)
    else
      match Step(sys, trace[0])
      case None => None
      case Some(next) => Run(next, trace[1..])
  }

  /** How many "covered" callbacks a trace holds. */
  function CoveredCount(trace: seq<Event>): nat
    decreases |trace|
  {
    if trace == [] then 0
    else (if trace[0].OnCovered? then 1 else 0) + CoveredCount(trace[1..])
  }

  /** How many "finished" callbacks a trace holds. */
  function FinishedCount(trace: seq<Event>): nat
    decreases |trace|
  {
    if trace == [] then 0
    else (if trace[0].OnFinished? then 1 else 0) + FinishedCount(trace[1..])
  }

  /** One when the overlay has made its "covered" callback and still owes its
      "finished" one, zero otherwise. */
  function Owed(p: Phase): nat
  {
    if p == AwaitingFinished then 1 else 0
  }

  /** The consistency of page and overlay: the overlay is mounted exactly
      while the flag is set (so the button is disabled exactly then); before
      the commit the target is the other theme, after it the current one. */
  ghost predicate Inv(sys: System)
  {
    (sys.phase != Unmounted <==> App.OverlayMounted(sys.app)) &&
    (sys.phase == AwaitingCovered ==> sys.app.transition.targetTheme == Flip(sys.app.theme)) &&
    (sys.phase == AwaitingFinished ==> sys.app.transition.targetTheme == sys.app.theme)
  }

  lemma StartInv()
    ensures Inv(Start)
  {
  }

  /** Every event the overlay and the user can produce keeps the invariant. */
  lemma StepInv(sys: System, e: Event)
    requires Inv(sys)
    requires Step(sys, e).Some?
    ensures Inv(Step(sys, e).value)
  {
  }

  /** The invariant holds after every run that follows the protocol. */
  lemma {:induction false} RunInv(sys: System, trace: seq<Event>)
    requires Inv(sys)
    requires Run(sys, trace).Some?
    ensures Inv(Run(sys, trace).value)
    decreases |trace|
  {
    if trace != [] {
      StepInv(sys, trace[0]);
      RunInv(Step(sys, trace[0]).value, trace[1..]);
    }
  }

  /** Only the covered callback changes the theme: after a run the theme has
      been flipped once per such callback. */
  lemma {:induction false} RunTheme(sys: System, trace: seq<Event>)
    requires Run(sys, trace).Some?
    ensures Run(sys, trace).value.app.theme == FlipTimes(sys.app.theme, CoveredCount(trace))
    decreases |trace|
  {
    if trace != [] {
      var next := Step(sys, trace[0]).value;
      RunTheme(next, trace[1..]);
      if trace[0].OnCovered? {
        FlipTimesShift(sys.app.theme, CoveredCount(trace[1..]));
      }
    }
  }

  /** Flipping first and then `n` times is flipping `n + 1` times. */
  lemma {:induction false} FlipTimesShift(t: Theme, n: nat)
    ensures FlipTimes(Flip(t), n) == FlipTimes(t, n + 1)
  {
    if n > 0 {
      FlipTimesShift(t, n - 1);
    }
  }

  /** Callbacks come in pairs: across a run, every "covered" is matched by
      one "finished", except for one still owed at either end. */
  lemma {:induction false} RunCallbacksPaired(sys: System, trace: seq<Event>)
    requires Run(sys, trace).Some?
    ensures CoveredCount(trace) + Owed(sys.phase) == FinishedCount(trace) + Owed(Run(sys, trace).value.phase)
    decreases |trace|
  {
    if trace != [] {
      RunCallbacksPaired(Step(sys, trace[0]).value, trace[1..]);
    }
  }

  /** From idle to idle, the theme has been swapped exactly once per completed
      transition. */
  lemma IdleRunTheme(sys: System, trace: seq<Event>)
    requires sys.phase == Unmounted
    requires Run(sys, trace).Some? && Run(sys, trace).value.phase == Unmounted
    ensures Run(sys, trace).value.app.theme == FlipTimes(sys.app.theme, FinishedCount(trace))
  {
    RunCallbacksPaired(sys, trace);
    RunTheme(sys, trace);
  }

  /** While the overlay is mounted the button is disabled, so a click changes
      nothing at all: the toggle handler's own guard is never even reached. */
  lemma ClickWhileActive(sys: System, rect: Option<ThemeToggle.Rect>, e: ThemeToggle.MouseEvent)
    requires Inv(sys) && sys.phase != Unmounted
    ensures Step(sys, Click(rect, e)) == Some(sys)
  {
  }

  /** A complete transition from an idle page: click, covered, finished. The
      overlay is gone again, the theme is flipped once and the record keeps
      the reported origin. */
  lemma CompleteCycle(sys: System, rect: Option<ThemeToggle.Rect>, e: ThemeToggle.MouseEvent)
    requires Inv(sys) && sys.phase == Unmounted
    ensures var r := Run(sys, [Click(rect, e), OnCovered, OnFinished]);
      r.Some? && r.value.phase == Unmounted &&
      r.value.app.theme == Flip(sys.app.theme) &&
      r.value.app.transition ==
        TransitionState(false, ThemeToggle.HandleClick(false, rect, e).value, Flip(sys.app.theme))
  {
    var pos := ThemeToggle.HandleClick(false, rect, e).value;
    var s1 := System(App.Toggle(sys.app, pos), AwaitingCovered);
    assert Step(sys, Click(rect, e)) == Some(s1);
    var s2 := System(App.Covered(s1.app), AwaitingFinished);
    assert Step(s1, OnCovered) == Some(s2);
    var s3 := System(App.Finished(s2.app), Unmounted);
    assert Step(s2, OnFinished) == Some(s3);
    assert Run(s3, []) == Some(s3);
    assert [Click(rect, e), OnCovered, OnFinished][1..] == [OnCovered, OnFinished];
    assert [OnCovered, OnFinished][1..] == [OnFinished];
    assert [OnFinished][1..] == [];
  }

  /** The worked example: from a fresh light page, a click with the pointer at
      (100, 200) and no measurable button arms a transition there towards
      dark; after the overlay's two callbacks the page is dark and idle. */
  lemma ExampleRun()
    ensures var e := ThemeToggle.MouseEvent(100.0, 200.0);
      Step(Start, Click(None, e)) ==
        Some(System(App.State(Light, TransitionState(true, Position(100.0, 200.0), Dark)), AwaitingCovered)) &&
      Run(Start, [Click(None, e), OnCovered, OnFinished]).Some? &&
      Run(Start, [Click(None, e), OnCovered, OnFinished]).value.app.theme == Dark &&
      !Run(Start, [Click(None, e), OnCovered, OnFinished]).value.app.transition.isActive
  {
    CompleteCycle(Start, None, ThemeToggle.MouseEvent(100.0, 200.0));
  }

  /** The browser window the overlay covers. */
  datatype Viewport = Viewport(width: real, height: real)

  /** Where the overlay centres its visual, as written: the container covers
      the viewport and centres its child, which scales about its own centre.
      Of the transition record only the target theme is read. */
  function VisualCentreAsWritten(t: TransitionState, vp: Viewport): (c: Position)
    ensures ThemeToggle.IsCentreOf(c, ThemeToggle.Rect(0.0, 0.0, vp.width, vp.height))
  {
    Position(vp.width / 2.0, vp.height / 2.0)
  }

  /** As written, the recorded origin has no effect on where the visual
      appears: a click at (100, 200) in a 1000 by 800 window still zooms from
      (500, 400). */
  lemma OriginIgnoredAsWritten(t: TransitionState, o: Position, vp: Viewport)
    ensures VisualCentreAsWritten(t.(origin := o), vp) == VisualCentreAsWritten(t, vp)
    ensures var armed := Step(Start, Click(None, ThemeToggle.MouseEvent(100.0, 200.0))).value.app.transition;
      armed.origin == Position(100.0, 200.0) &&
      VisualCentreAsWritten(armed, Viewport(1000.0, 800.0)) == Position(500.0, 400.0)
  {
  }

  /** Where the visual belongs: the centring container is kept and the
      visual is shifted by the recorded origin's offset from the window's
      centre, which puts it at the origin whatever the window's size. */
  function VisualCentre(t: TransitionState, vp: Viewport): (c: Position)
    ensures c == t.origin
  {
    var centre := VisualCentreAsWritten(t, vp);
    Position(centre.x + (t.origin.x - centre.x), centre.y + (t.origin.y - centre.y))
  }

  /** With the visual at the origin, the zoom starts where the button reported
      the click, whatever the window's size, and stays there while the
      overlay's callbacks run. */
  lemma VisualCentreFollowsClick(sys: System, rect: Option<ThemeToggle.Rect>, e: ThemeToggle.MouseEvent, vp1: Viewport, vp2: Viewport)
    requires Inv(sys) && sys.phase == Unmounted
    ensures var s1 := Step(sys, Click(rect, e)).value;
      var s2 := Step(s1, OnCovered).value;
      VisualCentre(s1.app.transition, vp1) == ThemeToggle.HandleClick(false, rect, e).value &&
      VisualCentre(s1.app.transition, vp1) == VisualCentre(s1.app.transition, vp2) &&
      VisualCentre(s2.app.transition, vp1) == VisualCentre(s1.app.transition, vp1)
  {
    var s1 := Step(sys, Click(rect, e)).value;
    assert s1.phase == AwaitingCovered;
  }
}
