/** The scroll-driven visibility of the bottom navigation bar (and of the tab
    bar, whose handler is the same): the bar hides when the page scrolls down
    past 50 pixels and shows again when it scrolls up. */
module ScrollNav {

  const ScrollThreshold: int := 50

  /** The visibility after a scroll event at `y`, the previous event having
      been at `lastY`. */
  function NextVisible(visible: bool, lastY: int, y: int): (v: bool)
    ensures y > lastY && y > ScrollThreshold ==> !v
    ensures y < lastY ==> v
    ensures lastY <= y <= ScrollThreshold || y == lastY ==> v == visible
  {
    if y > lastY && y > ScrollThreshold then false
    else if y < lastY then true
    else visible
  }

  datatype State = State(visible: bool, lastY: int)

  /** The state after the events at positions `ys`, from a visible bar whose
      last position is 0. */
  function Run(ys: seq<int>): State
    decreases |ys|
  {
    if ys == [] then State(true, 0)
    else
      var s := Run(ys[..|ys| - 1]);
      var y := ys[|ys| - 1];
      State(NextVisible(s.visible, s.lastY, y), y)
  }

  /** The position before event `k`. */
  function Before(ys: seq<int>, k: nat): int
    requires k < |ys|
  {
    if k == 0 then 0 else ys[k - 1]
  }

  predicate HidesAt(ys: seq<int>, k: nat)
    requires k < |ys|
  {
    ys[k] > Before(ys, k) && ys[k] > ScrollThreshold
  }

  predicate ShowsAt(ys: seq<int>, k: nat)
    requires k < |ys|
  {
    ys[k] < Before(ys, k)
  }

  /** After any sequence of events, the bar is hidden exactly when some event
      scrolled down past the threshold and no later event scrolled up. */
  lemma {:induction false} HiddenIffDownSinceLastUp(ys: seq<int>)
    ensures !Run(ys).visible
            <==> exists k :: 0 <= k < |ys| && HidesAt(ys, k)
                             && forall j :: k < j < |ys| ==> !ShowsAt(ys, j)
    ensures ys != [] ==> Run(ys).lastY == ys[|ys| - 1]
    decreases |ys|
  {
    if ys != [] {
      var n := |ys| - 1;
      var pre := ys[..n];
      HiddenIffDownSinceLastUp(pre);
      assert forall k :: 0 <= k < n ==> Before(pre, k) == Before(ys, k) && pre[k] == ys[k];
      assert Before(ys, n) == Run(pre).lastY;
      if !Run(ys).visible {
        if !HidesAt(ys, n) {
          assert !ShowsAt(ys, n) && !Run(pre).visible;
          var k :| 0 <= k < n && HidesAt(pre, k) && forall j :: k < j < n ==> !ShowsAt(pre, j);
          assert HidesAt(ys, k);
          forall j | k < j < |ys|
            ensures !ShowsAt(ys, j)
          {
            if j < n {
              assert !ShowsAt(pre, j);
            }
          }
        }
      } else {
        forall k | 0 <= k < |ys| && HidesAt(ys, k)
          ensures exists j :: k < j < |ys| && ShowsAt(ys, j)
        {
          if k < n && !ShowsAt(ys, n) {
            assert HidesAt(pre, k);
            var j :| k < j < n && ShowsAt(pre, j);
            assert ShowsAt(ys, j);
          }
        }
      }
    }
  }

  /** Events that never go past the threshold keep the bar visible. */
  lemma {:induction false} StaysVisibleBelowThreshold(ys: seq<int>)
    requires forall i :: 0 <= i < |ys| ==> ys[i] <= ScrollThreshold
    ensures Run(ys).visible
    decreases |ys|
  {
    if ys != [] {
      StaysVisibleBelowThreshold(ys[..|ys| - 1]);
    }
  }

  /** The animation a scroll event starts. */
  datatype Animation = SlideOut | SlideIn | NoAnimation

  /** The bar component's state: `isVisible`, the `lastScrollY` ref and the
      `initialLoadHandled` ref. `events` records the scroll positions seen. */
  class ScrollNavBar {
    var isVisible: bool
    var lastScrollY: int
    var initialLoadHandled: bool
    ghost var events: seq<int>

    ghost predicate Valid()
      reads this
    {
      State(isVisible, lastScrollY) == Run(events)
    }

    constructor ()
      ensures Valid() && isVisible && lastScrollY == 0 && !initialLoadHandled && events == []
    {
      isVisible, lastScrollY := true, 0;
      initialLoadHandled := false;
      events := [];
    }

    /** The mount effect: the entry animation plays the first time only. */
    method EntryAnimation() returns (played: bool)
      requires Valid()
      modifies this
      ensures Valid()
      ensures played <==> !old(initialLoadHandled)
      ensures initialLoadHandled
      ensures isVisible == old(isVisible) && lastScrollY == old(lastScrollY) && events == old(events)
    {
      played := !initialLoadHandled;
      if played {
        initialLoadHandled := true;
      }
    }

    /** `handleScroll` at position `y`. */
    method HandleScroll(y: int) returns (animation: Animation)
      requires Valid()
      modifies this
      ensures Valid()
      ensures events == old(events) + [y]
      ensures isVisible == NextVisible(old(isVisible), old(lastScrollY), y)
      ensures lastScrollY == y
      ensures initialLoadHandled == old(initialLoadHandled)
      ensures animation == SlideOut <==> old(isVisible) && !isVisible
      ensures animation == SlideIn <==> !old(isVisible) && isVisible
    {
      animation := NoAnimation;
      if y > lastScrollY && y > ScrollThreshold {
        if isVisible {
          animation := SlideOut;
          isVisible := false;
        }
      } else if y < lastScrollY {
        if !isVisible {
          animation := SlideIn;
          isVisible := true;
        }
      }
      lastScrollY := y;
      events := events + [y];
      assert events[..|events| - 1] == old(events);
    }
  }
}
