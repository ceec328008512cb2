/**
 * The client side of the injected bundle, `window.stagewise`: the visibility
 * of the toolbar container, its panel and the minimize button, driven by
 * `init`, `showToolbar`, `hideToolbar`, the two button clicks and the Escape
 * key. The two `setTimeout` callbacks (the reveal that adds the panel's
 * `visible` class, the settle that hides the container and brings the button
 * back) are pending events that fire when the caller says so, in any order.
 */
module ToolbarRuntime {

  /** `container.style.display`: never set (the page as injected), `'block'` or `'none'`. */
  datatype Display = Unset | Block | NoneDisplay

  /**
   * The observable state: whether the container, panel and button exist on
   * the page, whether `setupEventListeners` has run, the container's inline
   * display, the panel's `visible` class, the button's `hidden` class, and the
   * numbers of reveal and settle callbacks still to fire.
   */
  datatype Ui = Ui(
    mounted: bool,
    listening: bool,
    display: Display,
    panelVisible: bool,
    minimizeHidden: bool,
    pendingReveals: nat,
    pendingSettles: nat)

  /** The four phases a reader of the toolbar distinguishes. */
  datatype Phase = Hidden | Expanding | Visible | Collapsing

  /** The page as the bundle is injected: nothing displayed inline, no classes added, no timers. */
  function Initial(mounted: bool): Ui {
    Ui(mounted, false, Unset, false, false, 0, 0)
  }

  /** `isToolbarVisible()`: the container exists and its inline display is not `'none'` (an unset display counts as visible). */
  predicate IsToolbarVisible(u: Ui)
    ensures !u.mounted ==> !IsToolbarVisible(u)
    ensures u.display == NoneDisplay ==> !IsToolbarVisible(u)
    ensures u.mounted && u.display == Unset ==> IsToolbarVisible(u)
    ensures u.mounted && u.display == Block ==> IsToolbarVisible(u)
  {
    u.mounted && u.display != NoneDisplay
  }

  /**
   * What every reachable state satisfies: the button is hidden exactly when
   * the container has been displayed as a block, and without the elements
   * nothing has ever changed or been scheduled.
   */
  predicate Valid(u: Ui) {
    && (u.minimizeHidden <==> u.display == Block)
    && (!u.mounted ==> u.display == Unset && !u.panelVisible && u.pendingReveals == 0 && u.pendingSettles == 0)
  }

  function PhaseOf(u: Ui): Phase {
    if !IsToolbarVisible(u) then Hidden
    else if u.pendingSettles > 0 then Collapsing
    else if u.panelVisible then Visible
    else if u.pendingReveals > 0 then Expanding
    else Hidden
  }

  /**
   * `showToolbar()`: the container is displayed and the button hidden at once;
   * the panel's `visible` class is only scheduled, and nothing else changes.
   */
  function AfterShow(u: Ui): (v: Ui)
    ensures u.mounted ==> IsToolbarVisible(v) && v.minimizeHidden && v.panelVisible == u.panelVisible
    ensures u.mounted ==> v.pendingReveals == u.pendingReveals + 1 && v.pendingSettles == u.pendingSettles
    ensures !u.mounted ==> v == u
    ensures v.mounted == u.mounted && v.listening == u.listening
    ensures Valid(u) ==> Valid(v)
  {
    if !u.mounted then u
    else u.(display := Block, minimizeHidden := true, pendingReveals := u.pendingReveals + 1)
  }

  /**
   * `hideToolbar()`: the panel loses `visible` at once, but the container stays
   * displayed (and so still counts as visible) until the scheduled settle.
   */
  function AfterHide(u: Ui): (v: Ui)
    ensures u.mounted ==> !v.panelVisible && v.pendingSettles == u.pendingSettles + 1
    ensures u.mounted ==> v.display == u.display && v.minimizeHidden == u.minimizeHidden && v.pendingReveals == u.pendingReveals
    ensures IsToolbarVisible(v) == IsToolbarVisible(u)
    ensures v.mounted == u.mounted && v.listening == u.listening
    ensures !u.mounted ==> v == u
    ensures v.mounted == u.mounted && v.listening == u.listening
    ensures Valid(u) ==> Valid(v)
  {
    if !u.mounted then u
    else u.(panelVisible := false, pendingSettles := u.pendingSettles + 1)
  }

  /** The reveal callback of `showToolbar` fires: the panel gets `visible`, whatever happened since. */
  function AfterReveal(u: Ui): (v: Ui)
    requires u.pendingReveals > 0
    ensures v.panelVisible && v.pendingReveals == u.pendingReveals - 1
    ensures v.display == u.display && v.minimizeHidden == u.minimizeHidden && v.pendingSettles == u.pendingSettles
    ensures v.mounted == u.mounted && v.listening == u.listening
    ensures Valid(u) ==> Valid(v)
  {
    u.(panelVisible := true, pendingReveals := u.pendingReveals - 1)
  }

  /** The settle callback of `hideToolbar` fires: the container is hidden and the button shown again, whatever happened since. */
  function AfterSettle(u: Ui): (v: Ui)
    requires u.pendingSettles > 0
    ensures !IsToolbarVisible(v) && !v.minimizeHidden && v.pendingSettles == u.pendingSettles - 1
    ensures v.panelVisible == u.panelVisible && v.pendingReveals == u.pendingReveals
    ensures v.mounted == u.mounted && v.listening == u.listening
    ensures Valid(u) && u.mounted ==> Valid(v)
  {
    u.(display := NoneDisplay, minimizeHidden := false, pendingSettles := u.pendingSettles - 1)
  }

  /** `init()`: the listeners are installed, then the toolbar is shown. */
  function AfterInit(u: Ui): (v: Ui)
    ensures v.listening
    ensures u.mounted ==> PhaseOf(v) == (if u.pendingSettles > 0 then Collapsing else if u.panelVisible then Visible else Expanding)
    ensures u.mounted ==> v.display == Block && v.minimizeHidden && v.panelVisible == u.panelVisible
    ensures u.mounted ==> v.pendingReveals == u.pendingReveals + 1 && v.pendingSettles == u.pendingSettles && v.mounted
    ensures !u.mounted ==> v == u.(listening := true)
    ensures Valid(u) ==> Valid(v)
  {
    AfterShow(u.(listening := true))
  }

  /** The document's keydown listener: Escape hides the toolbar only while it counts as visible; other keys do nothing. */
  function AfterKeyDown(u: Ui, key: string): (v: Ui)
    ensures !(u.listening && key == "Escape" && IsToolbarVisible(u)) ==> v == u
    ensures u.listening && key == "Escape" && IsToolbarVisible(u) ==>
              !v.panelVisible && v.pendingSettles == u.pendingSettles + 1 && IsToolbarVisible(v)
    ensures u.listening && key == "Escape" && IsToolbarVisible(u) ==>
              && v.display == u.display && v.minimizeHidden == u.minimizeHidden && v.pendingReveals == u.pendingReveals
              && v.mounted == u.mounted && v.listening == u.listening
    ensures Valid(u) ==> Valid(v)
  {
    if key == "Escape" && u.listening && IsToolbarVisible(u) then AfterHide(u) else u
  }

  /** A click on the minimize button ("SW"), whose listener exists once `init` has run. */
  function AfterMinimizeClick(u: Ui): (v: Ui)
    ensures !u.listening ==> v == u
    ensures u.listening && u.mounted ==> IsToolbarVisible(v) && v.minimizeHidden && v.pendingReveals == u.pendingReveals + 1
    ensures u.listening && u.mounted ==> v.panelVisible == u.panelVisible && v.pendingSettles == u.pendingSettles
    ensures v.mounted == u.mounted && v.listening == u.listening
    ensures !u.mounted ==> v == u
    ensures Valid(u) ==> Valid(v)
  {
    if u.listening then AfterShow(u) else u
  }

  /** A click on the panel's close button ("×"). */
  function AfterCloseClick(u: Ui): (v: Ui)
    ensures !u.listening ==> v == u
    ensures u.listening && u.mounted ==> !v.panelVisible && v.pendingSettles == u.pendingSettles + 1
    ensures u.listening && u.mounted ==> v.display == u.display && v.minimizeHidden == u.minimizeHidden && v.pendingReveals == u.pendingReveals
    ensures IsToolbarVisible(v) == IsToolbarVisible(u)
    ensures v.mounted == u.mounted && v.listening == u.listening
    ensures !u.mounted ==> v == u
    ensures Valid(u) ==> Valid(v)
  {
    if u.listening then AfterHide(u) else u
  }

  // ---------------------------------------------------------------------------
  // properties of the visibility machine

  /** Once shown, the page never offers the button and the displayed container together. */
  lemma OneControlAtATime(u: Ui)
    requires Valid(u) && u.display != Unset
    ensures !u.minimizeHidden <==> !IsToolbarVisible(u) || !u.mounted
  {
  }

  /** Before `init` runs, the untouched container already counts as visible although its panel is not shown. */
  lemma InitialCountsAsVisible()
    ensures IsToolbarVisible(Initial(true)) && !Initial(true).panelVisible && PhaseOf(Initial(true)) == Hidden
  {
  }

  /** Show, then the reveal: expanding, then visible. */
  lemma ShowThenReveal(u: Ui)
    requires Valid(u) && u.mounted && u.pendingSettles == 0 && !u.panelVisible
    ensures PhaseOf(AfterShow(u)) == Expanding
    ensures PhaseOf(AfterReveal(AfterShow(u))) == Visible
  {
  }

  /** Hide, then the settle: collapsing while still counted visible, then hidden with the button back. */
  lemma HideThenSettle(u: Ui)
    requires Valid(u) && u.mounted && PhaseOf(u) == Visible
    ensures PhaseOf(AfterHide(u)) == Collapsing && IsToolbarVisible(AfterHide(u))
    ensures PhaseOf(AfterSettle(AfterHide(u))) == Hidden && !AfterSettle(AfterHide(u)).minimizeHidden
  {
  }

  /** Escape while collapsing still counts as visible, so it runs `hideToolbar` again and schedules a second settle. */
  lemma EscapeWhileCollapsingHidesAgain(u: Ui)
    requires u.listening && PhaseOf(u) == Collapsing
    ensures AfterKeyDown(u, "Escape").pendingSettles == u.pendingSettles + 1
  {
  }

  /**
   * A hide issued before the reveal of the preceding show has fired is undone
   * by that reveal: the panel is `visible` again while collapsing, keeps the
   * class after the settle hides the container, and the next show displays it
   * at once without an expanding phase.
   */
  lemma StaleRevealUndoesHide(u: Ui)
    requires Valid(u) && u.mounted && u.pendingReveals == 0 && u.pendingSettles == 0
    ensures var racing := AfterReveal(AfterHide(AfterShow(u)));
      && racing.panelVisible && PhaseOf(racing) == Collapsing
      && AfterSettle(racing).panelVisible && PhaseOf(AfterSettle(racing)) == Hidden
      && PhaseOf(AfterShow(AfterSettle(racing))) == Visible
  {
  }

  /**
   * A settle still pending when the toolbar is reopened hides it again:
   * Escape pressed twice while visible schedules two settles; once the first
   * has fired, the minimize button is back, and a click on it reopens the
   * toolbar straight into the collapsing phase, which the second settle ends,
   * whether or not the reveal fires first.
   */
  lemma PendingSettleHidesReopenedToolbar(u: Ui)
    requires Valid(u) && u.mounted && u.listening && PhaseOf(u) == Visible && u.pendingReveals == 0
    ensures var twice := AfterKeyDown(AfterKeyDown(u, "Escape"), "Escape");
      && twice.pendingSettles == 2
      && var reopened := AfterMinimizeClick(AfterSettle(twice));
      && IsToolbarVisible(reopened) && PhaseOf(reopened) == Collapsing
      && PhaseOf(AfterSettle(reopened)) == Hidden
      && PhaseOf(AfterSettle(AfterReveal(reopened))) == Hidden
  {
  }

  // ---------------------------------------------------------------------------
  // the runtime object

  /** `window.stagewise` as far as visibility goes: the DOM state it changes in place. */
  class Toolbar {
    const mounted: bool
    var listening: bool
    var display: Display
    var panelVisible: bool
    var minimizeHidden: bool
    var pendingReveals: nat
    var pendingSettles: nat

    function State(): Ui
      reads this
    {
      Ui(mounted, listening, display, panelVisible, minimizeHidden, pendingReveals, pendingSettles)
    }

    /** The bundle has just been parsed; `mounted` says whether the container, panel and button were found. */
    constructor (mounted: bool)
      ensures State() == Initial(mounted) && Valid(State())
    {
      this.mounted := mounted;
      listening := false;
      display := Unset;
      panelVisible := false;
      minimizeHidden := false;
      pendingReveals := 0;
      pendingSettles := 0;
    }

    method Init()
      requires Valid(State())
      modifies this
      ensures State() == AfterInit(old(State())) && Valid(State())
    {
      listening := true;
      ShowToolbar();
    }

    method ShowToolbar()
      requires Valid(State())
      modifies this
      ensures State() == AfterShow(old(State())) && Valid(State())
    {
      if mounted {
        display := Block;
        minimizeHidden := true;
        pendingReveals := pendingReveals + 1;
      }
    }

    method HideToolbar()
      requires Valid(State())
      modifies this
      ensures State() == AfterHide(old(State())) && Valid(State())
    {
      if mounted {
        panelVisible := false;
        pendingSettles := pendingSettles + 1;
      }
    }

    method KeyDown(key: string)
      requires Valid(State())
      modifies this
      ensures State() == AfterKeyDown(old(State()), key) && Valid(State())
    {
      if key == "Escape" && listening && IsToolbarVisible(State()) {
        HideToolbar();
      }
    }

    method ClickMinimize()
      requires Valid(State())
      modifies this
      ensures State() == AfterMinimizeClick(old(State())) && Valid(State())
    {
      if listening {
        ShowToolbar();
      }
    }

    method ClickClose()
      requires Valid(State())
      modifies this
      ensures State() == AfterCloseClick(old(State())) && Valid(State())
    {
      if listening {
        HideToolbar();
      }
    }

    /** The reveal timer fires; timers exist only once scheduled. */
    method FireReveal()
      requires Valid(State()) && pendingReveals > 0
      modifies this
      ensures State() == AfterReveal(old(State())) && Valid(State())
    {
      panelVisible := true;
      pendingReveals := pendingReveals - 1;
    }

    /** The settle timer fires. */
    method FireSettle()
      requires Valid(State()) && pendingSettles > 0
      modifies this
      ensures State() == AfterSettle(old(State())) && Valid(State())
    {
      display := NoneDisplay;
      minimizeHidden := false;
      pendingSettles := pendingSettles - 1;
    }
  }

  /**
   * A page load, a close, an Escape while hidden, a reopen from the button:
   * hidden, expanding, visible, collapsing, hidden, still hidden, expanding,
   * visible.
   */
  method LoadCloseReopen() returns (phases: seq<Phase>)
    ensures phases == [Hidden, Expanding, Visible, Collapsing, Hidden, Hidden, Expanding, Visible]
  {
    var t := new Toolbar(true);
    var loaded := PhaseOf(t.State());
    t.Init();
    assert t.State() == Ui(true, true, Block, false, true, 1, 0);
    var expanding := PhaseOf(t.State());
    t.FireReveal();
    assert t.State() == Ui(true, true, Block, true, true, 0, 0);
    var shown := PhaseOf(t.State());
    t.ClickClose();
    assert t.State() == Ui(true, true, Block, false, true, 0, 1);
    var closing := PhaseOf(t.State());
    t.FireSettle();
    assert t.State() == Ui(true, true, NoneDisplay, false, false, 0, 0);
    var closed := PhaseOf(t.State());
    t.KeyDown("Escape");
    assert t.State() == Ui(true, true, NoneDisplay, false, false, 0, 0);
    var escaped := PhaseOf(t.State());
    t.ClickMinimize();
    assert t.State() == Ui(true, true, Block, false, true, 1, 0);
    var reopening := PhaseOf(t.State());
    t.FireReveal();
    assert t.State() == Ui(true, true, Block, true, true, 0, 0);
    phases := [loaded, expanding, shown, closing, closed, escaped, reopening, PhaseOf(t.State())];
  }
}
