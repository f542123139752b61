/**
 * Models NotchFlow/Sources/ViewModels/NotchViewModel.swift: the compact /
 * expanded state, the measured content size, the derived panel dimensions
 * and the debounced collapse, together with the hover handler of
 * NotchFlow/Sources/Views/NotchRootView.swift that drives them.
 */
module Notch {
  import opened Wrappers

  datatype NotchState = Compact | Expanded

  /** What the view model reads from an `NSScreen`: the frame width, the top
      safe-area inset, and the widths of the two auxiliary top areas. */
  datatype Screen = Screen(
    frameWidth: real,
    safeAreaTop: real,
    auxiliaryTopLeftWidth: Option<real>,
    auxiliaryTopRightWidth: Option<real>)

  const FallbackCompactWidth: real := 200.0
  const FallbackCompactHeight: real := 37.0
  const FallbackPanelWidth: real := 1440.0
  const MaxPanelHeight: real := 600.0
  const ExpandedPadding: real := 40.0

  /** `NSScreen.screens.first(where: { $0.safeAreaInsets.top > 0 })`. */
  function NotchedScreen(screens: seq<Screen>): (r: Option<Screen>)
    ensures r.None? <==> forall i :: 0 <= i < |screens| ==> screens[i].safeAreaTop <= 0.0
    ensures r.Some? ==> exists i :: 0 <= i < |screens| && screens[i] == r.value
                          && r.value.safeAreaTop > 0.0
                          && forall j :: 0 <= j < i ==> screens[j].safeAreaTop <= 0.0
  {
    if screens == [] then None
    else if screens[0].safeAreaTop > 0.0 then Some(screens[0])
    else
      var r := NotchedScreen(screens[1..]);
      assert r.Some? ==> exists i :: 0 < i < |screens| && screens[i] == r.value
                           && forall j :: 0 <= j < i ==> screens[j].safeAreaTop <= 0.0 by {
        if r.Some? {
          var i :| 0 <= i < |screens| - 1 && screens[1..][i] == r.value
                   && forall j :: 0 <= j < i ==> screens[1..][j].safeAreaTop <= 0.0;
          assert screens[i + 1] == r.value;
          forall j | 0 <= j < i + 1 ensures screens[j].safeAreaTop <= 0.0 {
            if j > 0 { assert screens[j] == screens[1..][j - 1]; }
          }
        }
      }
      r
  }

  /** `compactWidth`: the gap between the two auxiliary top areas of the
      notched screen plus 4, or 200 when there is no such screen or gap. */
  function CompactWidth(screens: seq<Screen>): (w: real)
    ensures NotchedScreen(screens).None? ==> w == FallbackCompactWidth
    ensures var s := NotchedScreen(screens);
            s.Some? && (s.value.auxiliaryTopLeftWidth.None? || s.value.auxiliaryTopRightWidth.None?)
            ==> w == FallbackCompactWidth
    ensures var s := NotchedScreen(screens);
            s.Some? && s.value.auxiliaryTopLeftWidth.Some? && s.value.auxiliaryTopRightWidth.Some?
            ==> w == s.value.frameWidth - s.value.auxiliaryTopLeftWidth.value
                     - s.value.auxiliaryTopRightWidth.value + 4.0
  {
    match NotchedScreen(screens)
    case None => FallbackCompactWidth
    case Some(s) =>
      if s.auxiliaryTopLeftWidth.Some? && s.auxiliaryTopRightWidth.Some?
      then s.frameWidth - s.auxiliaryTopLeftWidth.value - s.auxiliaryTopRightWidth.value + 4.0
      else FallbackCompactWidth
  }

  /** `compactHeight`: the notched screen's top inset, or 37. */
  function CompactHeight(screens: seq<Screen>): (h: real)
    ensures h > 0.0
    ensures NotchedScreen(screens).Some? ==> h == NotchedScreen(screens).value.safeAreaTop
    ensures NotchedScreen(screens).None? ==> h == FallbackCompactHeight
  {
    match NotchedScreen(screens)
    case None => FallbackCompactHeight
    case Some(s) => if s.safeAreaTop > 0.0 then s.safeAreaTop else FallbackCompactHeight
  }

  /** `maxPanelWidth`: the width of the notched screen, else of the main
      screen, else 1440. */
  function MaxPanelWidth(screens: seq<Screen>, main: Option<Screen>): (w: real)
    ensures NotchedScreen(screens).Some? ==> w == NotchedScreen(screens).value.frameWidth
    ensures NotchedScreen(screens).None? && main.Some? ==> w == main.value.frameWidth
    ensures NotchedScreen(screens).None? && main.None? ==> w == FallbackPanelWidth
  {
    match NotchedScreen(screens)
    case Some(s) => s.frameWidth
    case None => if main.Some? then main.value.frameWidth else FallbackPanelWidth
  }

  function Abs(x: real): real {
    if x < 0.0 then -x else x
  }

  /** A one-shot `Timer`: valid from scheduling until it fires or is invalidated. */
  class CollapseTimer {
    var isValid: bool

    constructor()
      ensures isValid
    {
      isValid := true;
    }

    method Invalidate()
      modifies this
      ensures !isValid
    {
      isValid := false;
    }
  }

  class NotchViewModel {
    var state: NotchState
    var contentWidth: real
    var contentHeight: real
    var collapseTimer: CollapseTimer?
    /** Every collapse timer this model has scheduled. */
    ghost var timers: set<CollapseTimer>

    /** At most one collapse is pending: the only timer that can still fire
        is the one `collapseTimer` holds. */
    ghost predicate Valid()
      reads this, timers
    {
      && (collapseTimer != null ==> collapseTimer in timers)
      && forall t :: t in timers && t.isValid ==> t == collapseTimer
    }

    /** No scheduled collapse can fire any more. */
    ghost predicate NothingPending()
      reads this, timers
    {
      forall t :: t in timers ==> !t.isValid
    }

    constructor()
      ensures Valid() && NothingPending()
      ensures state == Compact && contentWidth == 0.0 && contentHeight == 0.0
      ensures collapseTimer == null && timers == {}
    {
      state := Compact;
      contentWidth, contentHeight := 0.0, 0.0;
      collapseTimer := null;
      timers := {};
    }

    /** `expandedWidth`: the larger of compact width + 60 and content width
        plus twice the padding. */
    function ExpandedWidth(screens: seq<Screen>): (w: real)
      reads this
      ensures w >= CompactWidth(screens) + 60.0 && w >= contentWidth + ExpandedPadding * 2.0
      ensures w == CompactWidth(screens) + 60.0 || w == contentWidth + ExpandedPadding * 2.0
    {
      var minWidth := CompactWidth(screens) + 60.0;
      var contentBased := contentWidth + ExpandedPadding * 2.0;
      if minWidth >= contentBased then minWidth else contentBased
    }

    /** `expandedHeight`: the larger of compact height + 60 and content
        height plus compact height plus the padding. */
    function ExpandedHeight(screens: seq<Screen>): (h: real)
      reads this
      ensures h >= CompactHeight(screens) + 60.0
      ensures h >= contentHeight + CompactHeight(screens) + ExpandedPadding
      ensures h == CompactHeight(screens) + 60.0 || h == contentHeight + CompactHeight(screens) + ExpandedPadding
    {
      var minHeight := CompactHeight(screens) + 60.0;
      var contentBased := contentHeight + CompactHeight(screens) + ExpandedPadding;
      if minHeight >= contentBased then minHeight else contentBased
    }

    /** `currentWidth`: compact in the compact state, expanded (and so
        strictly wider) in the expanded state. */
    function CurrentWidth(screens: seq<Screen>): (w: real)
      reads this
      ensures state == Compact ==> w == CompactWidth(screens)
      ensures state == Expanded ==> w == ExpandedWidth(screens) && w > CompactWidth(screens)
    {
      if state == Compact then CompactWidth(screens) else ExpandedWidth(screens)
    }

    /** `currentHeight`: compact in the compact state, expanded (and so
        strictly taller) in the expanded state. */
    function CurrentHeight(screens: seq<Screen>): (h: real)
      reads this
      ensures state == Compact ==> h == CompactHeight(screens)
      ensures state == Expanded ==> h == ExpandedHeight(screens) && h > CompactHeight(screens)
    {
      if state == Compact then CompactHeight(screens) else ExpandedHeight(screens)
    }

    /** Takes a reported dimension only when it moved by more than one point,
        so afterwards each stored dimension is within one point of the report. */
    method UpdateContentSize(width: real, height: real)
      requires Valid()
      modifies this
      ensures Valid()
      ensures contentWidth == if Abs(old(contentWidth) - width) > 1.0 then width else old(contentWidth)
      ensures contentHeight == if Abs(old(contentHeight) - height) > 1.0 then height else old(contentHeight)
      ensures Abs(contentWidth - width) <= 1.0 && Abs(contentHeight - height) <= 1.0
      ensures state == old(state) && collapseTimer == old(collapseTimer) && timers == old(timers)
    {
      if Abs(contentWidth - width) > 1.0 {
        contentWidth := width;
      }
      if Abs(contentHeight - height) > 1.0 {
        contentHeight := height;
      }
    }

    /** Cancels any pending collapse, then opens a compact notch. */
    method Expand()
      requires Valid()
      modifies this, timers
      ensures Valid() && NothingPending()
      ensures state == Expanded && collapseTimer == null && timers == old(timers)
      ensures contentWidth == old(contentWidth) && contentHeight == old(contentHeight)
    {
      if collapseTimer != null {
        collapseTimer.Invalidate();
      }
      collapseTimer := null;
      if state != Compact {
        return;
      }
      state := Expanded;
    }

    /** Replaces any pending collapse by a freshly scheduled one. */
    method ScheduleCollapse()
      requires Valid()
      modifies this, timers
      ensures Valid()
      ensures collapseTimer != null && fresh(collapseTimer) && collapseTimer.isValid
      ensures timers == old(timers) + {collapseTimer}
      ensures forall t :: t in old(timers) ==> !t.isValid
      ensures state == old(state)
      ensures contentWidth == old(contentWidth) && contentHeight == old(contentHeight)
    {
      if collapseTimer != null {
        collapseTimer.Invalidate();
      }
      var timer := new CollapseTimer();
      collapseTimer := timer;
      timers := timers + {timer};
    }

    /** Drops any pending collapse and changes nothing else. */
    method CancelCollapse()
      requires Valid()
      modifies this, timers
      ensures Valid() && NothingPending()
      ensures collapseTimer == null && timers == old(timers)
      ensures state == old(state)
      ensures contentWidth == old(contentWidth) && contentHeight == old(contentHeight)
    {
      if collapseTimer != null {
        collapseTimer.Invalidate();
      }
      collapseTimer := null;
    }

    /** The run loop firing a collapse timer that is still valid: the timer
        is spent, and an expanded notch becomes compact. The stored
        reference is not cleared. */
    method FireCollapse(timer: CollapseTimer)
      requires Valid() && timer in timers && timer.isValid
      modifies this, timer
      ensures Valid() && NothingPending()
      ensures state == Compact
      ensures collapseTimer == old(collapseTimer) && timers == old(timers)
      ensures contentWidth == old(contentWidth) && contentHeight == old(contentHeight)
    {
      timer.Invalidate();
      if state != Expanded {
        return;
      }
      state := Compact;
    }
  }

  /** The `onHover` handler of the notch shape: entering cancels the pending
      collapse and expands; leaving schedules a collapse. */
  method OnHover(model: NotchViewModel, hovering: bool)
    requires model.Valid()
    modifies model, model.timers
    ensures model.Valid()
    ensures hovering ==> && model.state == Expanded && model.NothingPending()
                         && model.timers == old(model.timers)
    ensures !hovering ==> && model.state == old(model.state)
                          && model.collapseTimer != null && model.collapseTimer.isValid
                          && fresh(model.collapseTimer)
                          && model.timers == old(model.timers) + {model.collapseTimer}
    ensures model.contentWidth == old(model.contentWidth) && model.contentHeight == old(model.contentHeight)
  {
    if hovering {
      model.CancelCollapse();
      model.Expand();
    } else {
      model.ScheduleCollapse();
    }
  }

  /** Leaving and re-entering before the timer fires keeps the notch open:
      the collapse scheduled on leaving can no longer fire. */
  method HoverOutAndBack(model: NotchViewModel) returns (scheduled: CollapseTimer)
    requires model.Valid()
    modifies model, model.timers
    ensures model.Valid()
    ensures model.state == Expanded && !scheduled.isValid && scheduled in model.timers
  {
    OnHover(model, false);
    scheduled := model.collapseTimer;
    OnHover(model, true);
  }
}
