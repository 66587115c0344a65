# Theme-transition portfolio page — a Dafny model

This project models a single-page portfolio site. The site has a light/dark
theme. A floating toggle button starts an overlay animation that hides the
theme swap. A bento grid of cards opens modal detail panels. The model
covers three pieces of state and the guards around them:

- **The page** (`App`, from `App.tsx`). The page owns the theme and the
  transition record `{isActive, origin, targetTheme}`. Its three handlers are
  modelled twice: as pure step functions on a `State` value, and as methods
  of the class `AppComponent`. Each method's postcondition ties the new
  fields to the step function. The `dark` class on the document root is a
  class `DocumentRoot` whose class list the theme effect edits in place.
- **The toggle button** (`ThemeToggle`, from `components/ThemeToggle.tsx`).
  The click handler returns `Option<Position>`, where `None` means the
  callback is not called. The reported origin is the centre of the button's
  rectangle, or the pointer's coordinates when no rectangle can be measured.
  A separate function says which icon is visible.
- **The overlay's callback protocol** (`TransitionLayer`). The overlay is a
  black box. Once mounted, it calls "covered" once and then "finished" once.
  That order is an assumption, written as a step function over traces of
  clicks and callbacks. Lemmas about whole runs are proved on it: the
  page/overlay invariant, the number of theme flips, and callbacks coming in
  pairs.
- **The content surface** (`Content`, from `components/Content.tsx`). The
  ten detail records are a `map<string, Detail>` with optional fields and
  opaque markup. The card selection is a class field, changed by the card
  click and the two close handlers. The modal's sections are a function of
  the record.

Coordinates are `real`. The pointer position and the button's bounding
rectangle are parameters of the click. The document root is an object
passed to the page's constructor.

## Model

| member | source | states |
|---|---|---|
| Types.Flip | App.tsx:41 | the flip that the toggle handler uses to choose the target and the covered handler uses to swap the theme never returns its argument, so it maps light to dark and dark to light |
| Types.FlipInvolution | App.tsx:52 | flipping twice is the identity, and `Flip(u) == t` exactly when `u == Flip(t)` |
| Types.FlipTimesParity | App.tsx:51-53 | after `n` flips the theme is the starting one for even `n` and the other one for odd `n` |
| ThemeToggle.HandleClick | components/ThemeToggle.tsx:14-23 | no callback exactly when disabled; otherwise the origin is the centre of a measured rectangle, or the pointer's coordinates when there is none |
| ThemeToggle.CentreCoordinates | components/ThemeToggle.tsx:18-20 | a point equidistant from opposite edges has x = left + width/2 and y = top + height/2 |
| ThemeToggle.CentreUnique | components/ThemeToggle.tsx:18-20 | a rectangle has exactly one centre |
| ThemeToggle.OriginInsideButton | components/ThemeToggle.tsx:17-20 | for a rectangle with non-negative width and height, the reported origin lies inside it |
| ThemeToggle.OriginIgnoresPointer | components/ThemeToggle.tsx:18-20 | with a measured rectangle the pointer's coordinates do not affect the origin |
| ThemeToggle.IconVisibility | components/ThemeToggle.tsx:25-53 | exactly one of Sun and Moon is visible, and Sun is visible exactly in the light theme |
| App.Toggle | App.tsx:38-49 | theme unchanged; a no-op while a transition is active; otherwise active, at the given origin, targeting the other theme |
| App.Covered | App.tsx:51-53 | the theme changes and the transition record does not |
| App.Finished | App.tsx:55-57 | the transition becomes inactive; origin, target and theme are kept |
| App.ToggleDisabled | App.tsx:79 | the button is disabled exactly when the toggle handler would ignore every position |
| App.OverlayMounted | App.tsx:83 | the overlay is mounted exactly when the button is disabled |
| App.ToggleThenCovered | App.tsx:41-52 | arming from idle targets `Flip(theme)`, and the covered callback then lands exactly on the target |
| App.FullCycle | App.tsx:38-57 | toggle, covered, finished from idle: idle, theme flipped once, origin and target recorded |
| App.ClassesFor | App.tsx:18-25 | after the effect `dark` is present exactly in the dark theme and every other class is unchanged |
| App.ClassesForIdempotent | App.tsx:18-25 | running the theme effect twice is the same as once |
| App.DocumentRoot.constructor | App.tsx:19 | the root element starts with the given class list |
| App.DocumentRoot.Add | App.tsx:21 | `classList.add` inserts one class and keeps the rest |
| App.DocumentRoot.Remove | App.tsx:23 | `classList.remove` deletes one class and keeps the rest |
| App.AppComponent.constructor | App.tsx:8-15 | initial state: light theme, inactive, origin (0,0), target dark |
| App.AppComponent.HandleToggle | App.tsx:38-49 | the fields become `Toggle` of the old fields at the given position |
| App.AppComponent.HandleAnimationComplete | App.tsx:51-53 | the fields become `Covered` of the old fields |
| App.AppComponent.HandleTransitionEnd | App.tsx:55-57 | the fields become `Finished` of the old fields |
| App.AppComponent.ClickToggle | App.tsx:76-80 | a click on the button rendered with `disabled` = `ToggleDisabled`, i.e. the active flag: nothing changes while active, otherwise the toggle handler runs with the button's reported origin |
| App.AppComponent.ApplyThemeClass | App.tsx:18-25 | the root's class list becomes `ClassesFor` of its old value and the current theme |
| TransitionLayer.Step | components/TransitionLayer.tsx:28-85 | clicks are always accepted; a "covered" callback only while awaiting it, a "finished" callback only while awaiting it |
| TransitionLayer.StartInv | App.tsx:11-15 | the page on first load is consistent: no overlay and no active flag |
| TransitionLayer.StepInv | App.tsx:83-89 | every event keeps the invariant: overlay mounted iff active, target = flipped theme before the commit, = theme after it |
| TransitionLayer.RunInv | App.tsx:79-89 | the invariant holds after every run that follows the callback protocol |
| TransitionLayer.RunTheme | App.tsx:51-53 | after a run the theme is the start theme flipped once per "covered" callback |
| TransitionLayer.FlipTimesShift | App.tsx:52 | flipping first and then `n` times equals flipping `n + 1` times |
| TransitionLayer.RunCallbacksPaired | components/TransitionLayer.tsx:68-80 | across any run, covered callbacks plus the one owed at the start equal finished callbacks plus the one owed at the end |
| TransitionLayer.IdleRunTheme | App.tsx:38-57 | from idle to idle the theme is flipped exactly once per completed transition |
| TransitionLayer.ClickWhileActive | App.tsx:79 | while the overlay is mounted, a click changes nothing (the button is disabled) |
| TransitionLayer.CompleteCycle | App.tsx:38-57 | click, covered, finished from idle: idle again, theme flipped once, the record holds the reported origin and the new theme |
| TransitionLayer.ExampleRun | App.tsx:8-57 | from a fresh light page, a pointer click at (100, 200) arms {active, (100,200), dark}; after both callbacks the page is dark and idle |
| Content.Record | components/Content.tsx:164-471 | every record has a non-empty title, and its content block is the card's own markup styled for the theme |
| Content.CardDetails | components/Content.tsx:164-472 | the table's keys are exactly the ten card ids, and each record's content block belongs to its key |
| Content.TableKeys | components/Content.tsx:164-472 | the table's keys are exactly the ten card ids, in both themes |
| Content.TableThemeIndependent | components/Content.tsx:164-472 | the two themes' records differ only in the styling of the content block |
| Content.RecordFields | components/Content.tsx:164-471 | every record has a title; a date exactly for experience and education; tags exactly for devops, no2, disaster, genai, skills; a subtitle for all but contact; a description for all but experience, education, certs |
| Content.GridCardsKnown | components/Content.tsx:581-896 | the ten grid cards pass ten distinct ids, all of them table keys, and every key has a card |
| Content.RenderModal | components/Content.tsx:985-1016 | title and content always render; date, subtitle and description exactly when present and non-empty; tags exactly when present |
| Content.ClickAcceptedAsWritten | components/Content.tsx:508 | the guard as written accepts every table key, and the only other ids it accepts are names inherited from Object.prototype |
| Content.InheritedKeysUnknown | components/Content.tsx:508 | no inherited member name is a card id |
| Content.InheritedKeyAccepted | components/Content.tsx:507-511 | the click guard as written accepts `"toString"`, which has no record |
| Content.AsWrittenAgreesOnGrid | components/Content.tsx:507-511 | on every id the grid passes, the as-written guard and table membership agree; no inherited key is a table key |
| TransitionLayer.VisualCentreAsWritten | components/TransitionLayer.tsx:91-95 | the overlay's visual sits equidistant from the window's left and right edges and from its top and bottom edges |
| TransitionLayer.OriginIgnoredAsWritten | components/TransitionLayer.tsx:14 | changing the recorded origin does not move the visual; a click at (100, 200) in a 1000 by 800 window zooms from (500, 400) |
| TransitionLayer.VisualCentre | components/ThemeToggle.tsx:17 | shifting the centred visual by the origin's offset from the window's centre puts it exactly at the recorded origin |
| TransitionLayer.VisualCentreFollowsClick | components/ThemeToggle.tsx:17-22 | with the visual placed at the origin, the zoom starts at the button's reported point, whatever the window size, and stays there through the covered callback |
| Content.ContentComponent.constructor | components/Content.tsx:474-477 | nothing is selected at first |
| Content.ContentComponent.ModalDetail | components/Content.tsx:962 | the modal is open exactly when an id is selected and the table has it, and it shows that id's record |
| Content.ContentComponent.HandleCardClick | components/Content.tsx:507-511 | a known id is selected; an unknown id leaves the selection unchanged; a grid card's click opens that card's record |
| Content.ContentComponent.CloseFromBackdrop | components/Content.tsx:968 | the selection is cleared and the modal closed |
| Content.ContentComponent.CloseFromButton | components/Content.tsx:979 | the selection is cleared and the modal closed |
| Content.ContentComponent.ReceiveTheme | components/Content.tsx:474-480 | a new theme prop keeps the selection, and the modal stays open or closed |

## Left out

- The overlay's animation timeline is not modelled: the eased fades, the 600 ms hold, the zoom, and the timer at 70% of the zoom duration. "Covered" coming once and before "finished" rests on a 210 ms timer beating a 300 ms animation plus a 100 ms fade. The model assumes that order (`TransitionLayer.Step`) rather than proving it.
- The overlay reads only the target theme from the transition record (components/TransitionLayer.tsx:14). Its full-window container centres the visual (components/TransitionLayer.tsx:91-95). No code reads the recorded origin, so the zoom starts from the window's centre, not from the button (see Findings). Only that centre is modelled (`TransitionLayer.VisualCentreAsWritten`); the eased movement is not.
- The mousemove handler that writes the cursor position into CSS variables is not modelled: it is DOM I/O with no effect on state.
- The copy-to-clipboard button and its 2-second reset are not modelled: they are a clipboard write and a timer.
- The markup, style class strings, icons, animation parameters and remote image and document URLs are not modelled. Each record's content block is the opaque value `Markup(card, isDark)`.
- Coordinates are `real`, so the IEEE-754 rounding of `left + width / 2` is not modelled.
- React's batching of `setState` and its stale-closure reads are not modelled. Handlers run as sequential atomic updates on the current fields.
- The theme effect is the separate method `App.AppComponent.ApplyThemeClass`. The model does not force a caller to run it after every theme change, as React does.
- The root's class list is a set, so the order of class names in the token list is not modelled.
- `types.ts` holds only type declarations. They appear as the datatypes `Theme`, `Position` and `TransitionState` and have no behaviour of their own.

## Findings

| source | as written | input that shows it | evidently intended | confidence | as-written member | corrected member |
|---|---|---|---|---|---|---|
| components/Content.tsx:508 | the guard `if (cardDetails[id])` is a truthiness test on a plain object, and members inherited from Object.prototype pass it too | `handleCardClick("toString")` selects an id with no record; the modal test at line 962 passes the same way | select only ids that are keys of the table | low: not executed, and no card on the page passes such an id (`Content.AsWrittenAgreesOnGrid`) | Content.InheritedKeyAccepted | Content.ContentComponent.HandleCardClick |
| components/TransitionLayer.tsx:14 | the overlay takes only `targetTheme` from the record, and its container centres the visual in the window; the origin computed at components/ThemeToggle.tsx:17-22 and stored at App.tsx:46 is never read | a click on the button at (100, 200) in a 1000 by 800 window: the zoom starts at (500, 400) | the zoom starts at the recorded origin, which the button computes "for the zoom origin" (components/ThemeToggle.tsx:17) | medium: not executed; the button sits near the top-right corner, so the two points differ on every window | TransitionLayer.OriginIgnoredAsWritten | TransitionLayer.VisualCentreFollowsClick |
