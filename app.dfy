/** The page component: it owns the theme and the transition record, reacts to
    the toggle and to the overlay's two callbacks, and mirrors the theme into
    the `dark` class of the document root. */
module App {
  import opened Wrappers
  import opened Types
  import ThemeToggle

  /** The page's two pieces of state. */
  datatype State = State(theme: Theme, transition: TransitionState)

  /** The state on first render: light theme, no transition, origin at the
      top-left corner and a dark target. */
  const Initial: State := State(Light, TransitionState(false, Position(0.0, 0.0), Dark))

  /** The toggle handler: ignored while a transition runs; otherwise it arms a
      transition at `pos` towards the other theme, leaving the theme itself
      for the overlay to change. */
  function Toggle(s: State, pos: Position): (r: State)
    ensures r.theme == s.theme
    ensures s.transition.isActive ==> r == s
    ensures !s.transition.isActive ==>
      r.transition.isActive && r.transition.origin == pos && r.transition.targetTheme != s.theme
  {
    if s.transition.isActive then s
    else
      s.(transition := TransitionState(true, pos, Flip(s.theme)))
  }

  /** The "covered" callback: swaps the theme and nothing else. */
  function Covered(s: State): (r: State)
    ensures r.transition == s.transition
    ensures r.theme != s.theme
  {
    s.(theme := Flip(s.theme))
  }

  /** The "finished" callback: ends the transition, keeping its origin and
      target and the theme. */
  function Finished(s: State): (r: State)
    ensures !r.transition.isActive
    ensures r.transition.origin == s.transition.origin
    ensures r.transition.targetTheme == s.transition.targetTheme
    ensures r.theme == s.theme
  {
    s.(transition := s.transition.(isActive := false))
  }

  /** The toggle button is rendered disabled exactly when the toggle handler
      would ignore every position. */
  function ToggleDisabled(s: State): (d: bool)
    ensures d <==> forall p: Position :: Toggle(s, p) == s
  {
    assert !s.transition.isActive ==> Toggle(s, s.transition.origin) != s;
    s.transition.isActive
  }

  /** The overlay is mounted exactly when the button is disabled. */
  function OverlayMounted(s: State): (m: bool)
    ensures m == ToggleDisabled(s)
  {
    s.transition.isActive
  }

  /** Arming from an idle page leaves the target equal to the flipped theme,
      and the covered callback then lands exactly on that target. */
  lemma ToggleThenCovered(s: State, pos: Position)
    requires !s.transition.isActive
    ensures Toggle(s, pos).transition.targetTheme == Flip(s.theme)
    ensures Covered(Toggle(s, pos)).theme == Toggle(s, pos).transition.targetTheme
  {
  }

  /** Toggle, covered, finished from an idle page: idle again, the theme
      flipped exactly once, and the record keeps the click's origin and the
      new theme as its target. */
  lemma FullCycle(s: State, pos: Position)
    requires !s.transition.isActive
    ensures Finished(Covered(Toggle(s, pos))) ==
      State(Flip(s.theme), TransitionState(false, pos, Flip(s.theme)))
  {
  }

  /** The classes of the root element after the theme effect has run on
      `classes`: `dark` is present exactly in the dark theme and every other
      class is as it was. */
  function ClassesFor(classes: set<string>, t: Theme): (r: set<string>)
    ensures "dark" in r <==> t == Dark
    ensures r - {"dark"} == classes - {"dark"}
  {
    if t == Dark then classes + {"dark"} else classes - {"dark"}
  }

  /** Running the theme effect again changes nothing. */
  lemma ClassesForIdempotent(classes: set<string>, t: Theme)
    ensures ClassesFor(ClassesFor(classes, t), t) == ClassesFor(classes, t)
  {
  }

  /** The document's root element, whose class list the theme effect edits
      in place. */
  class DocumentRoot {
    var classList: set<string>

    constructor (classes: set<string>)
      ensures classList == classes
    {
      classList := classes;
    }

    method Add(c: string)
      modifies this
      ensures classList == old(classList) + {c}
    {
      classList := classList + {c};
    }

    method Remove(c: string)
      modifies this
      ensures classList == old(classList) - {c}
    {
      classList := classList - {c};
    }
  }

  /** The page component with its state fields; the handlers update them one
      at a time, in the order the callbacks arrive. */
  class AppComponent {
    var theme: Theme
    var transition: TransitionState
    const root: DocumentRoot

    /** The two state fields as one value. */
    function Current(): State
      reads this
    {
      State(theme, transition)
    }

    constructor (root: DocumentRoot)
      ensures Current() == Initial
      ensures this.root == root
    {
      theme := Light;
      transition := TransitionState(false, Position(0.0, 0.0), Dark);
      this.root := root;
    }

    method HandleToggle(pos: Position)
      modifies this
      ensures Current() == Toggle(old(Current()), pos)
    {
      if transition.isActive {
        return;
      }
      transition := TransitionState(true, pos, Flip(theme));
    }

    method HandleAnimationComplete()
      modifies this
      ensures Current() == Covered(old(Current()))
    {
      theme := Flip(theme);
    }

    method HandleTransitionEnd()
      modifies this
      ensures Current() == Finished(old(Current()))
    {
      transition := transition.(isActive := false);
    }

    /** A click on the toggle button, which is rendered with `disabled` bound
        to `ToggleDisabled` and `onToggle` bound to `HandleToggle`. */
    method ClickToggle(rect: Option<ThemeToggle.Rect>, e: ThemeToggle.MouseEvent)
      modifies this
      ensures old(transition.isActive) ==> Current() == old(Current())
      ensures !old(transition.isActive) ==>
        Current() == Toggle(old(Current()), ThemeToggle.HandleClick(false, rect, e).value)
    {
      var pos := ThemeToggle.HandleClick(ToggleDisabled(Current()), rect, e);
      if pos.Some? {
        HandleToggle(pos.value);
      }
    }

    /** The theme effect: add or remove `dark` on the root element. */
    method ApplyThemeClass()
      modifies root
      ensures root.classList == ClassesFor(old(root.classList), theme)
    {
      if theme == Dark {
        root.Add("dark");
      } else {
        root.Remove("dark");
      }
    }
  }
}
