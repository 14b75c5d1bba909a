/** The mobile shell: the bottom tab bar, the header's role label, and the
    swipe gesture that moves between neighbouring tabs. */
module MobileLayout {
  import opened Collections
  import opened GymTypes
  import opened App

  /** The tab bar, the same for every role. */
  const Tabs: seq<Tab> := [HomeTab, WorkoutsTab, ProgressTab, HoursTab, ProfileTab]

  /** `tabs.findIndex(tab => tab.id === t)` from position `from`, giving
      `|Tabs|` when `t` is not there. */
  function FindTab(t: Tab, from: nat): (i: nat)
    requires from <= |Tabs|
    decreases |Tabs| - from
    ensures from <= i <= |Tabs|
    ensures forall j :: from <= j < i ==> Tabs[j] != t
    ensures i < |Tabs| ==> Tabs[i] == t
  {
    if from == |Tabs| || Tabs[from] == t then from else FindTab(t, from + 1)
  }

  /** The position of a tab in the bar; every tab is present, so the search
      never falls off the end. */
  function TabIndex(t: Tab): (i: nat)
    ensures i < |Tabs| && Tabs[i] == t
  {
    assert t == Tabs[0] || t == Tabs[1] || t == Tabs[2] || t == Tabs[3] || t == Tabs[4];
    FindTab(t, 0)
  }

  /** `Math.abs`. */
  function Abs(x: real): (a: real)
    ensures a >= 0.0 && (a == x || a == -x)
  {
    if x < 0.0 then -x else x
  }

  /** The least horizontal travel, in pixels, that counts as a swipe (the
      comparison with it is strict). */
  const MinSwipeDistance: real := 50.0

  /** A move counts as vertical scrolling when it has gone further vertically
      than horizontally, and more than 10 pixels vertically. */
  predicate VerticalMove(dx: real, dy: real)
  {
    Abs(dy) > Abs(dx) && Abs(dy) > 10.0
  }

  /** The tab a touch ending `dx` pixels right of its start switches to, if
      any: nothing after a vertical scroll or a short move; otherwise one tab
      back for a right swipe and one tab on for a left swipe, unless that
      would leave the bar. */
  function SwipeTarget(scrolling: bool, dx: real, active: Tab): (r: Option<Tab>)
    ensures r.Some? <==>
              !scrolling && Abs(dx) > MinSwipeDistance &&
              ((dx > 0.0 && TabIndex(active) > 0) || (dx < 0.0 && TabIndex(active) < |Tabs| - 1))
    ensures r.Some? && dx > 0.0 ==> TabIndex(r.value) == TabIndex(active) - 1
    ensures r.Some? && dx < 0.0 ==> TabIndex(r.value) == TabIndex(active) + 1
  {
    if scrolling then None
    else if Abs(dx) > MinSwipeDistance then
      var currentIndex := TabIndex(active);
      if dx > 0.0 && currentIndex > 0 then Some(Tabs[currentIndex - 1])
      else if dx < 0.0 && currentIndex < |Tabs| - 1 then Some(Tabs[currentIndex + 1])
      else None
    else None
  }

  /** Two swipes the opposite way cancel: a left swipe undoes a right swipe
      that moved, and the other way round. */
  lemma {:induction false} SwipeBackReturns(dx: real, active: Tab)
    requires SwipeTarget(false, dx, active).Some?
    ensures SwipeTarget(false, -dx, SwipeTarget(false, dx, active).value) == Some(active)
  {
    var next := SwipeTarget(false, dx, active).value;
    assert TabIndex(active) == TabIndex(next) + (if dx > 0.0 then 1 else -1);
    assert Tabs[TabIndex(active)] == active;
  }

  /** `getRoleLabel`. */
  function RoleLabel(role: UserRole): (text: string)
    ensures text == "Management Portal" <==> role == OwnerRole
    ensures text == "Coach Dashboard" <==> role == CoachRole
    ensures text == "Strength Refined Through Discipline" <==> role == MemberRole
  {
    match role
    case OwnerRole => "Management Portal"
    case CoachRole => "Coach Dashboard"
    case MemberRole => "Strength Refined Through Discipline"
  }

  /** The header tells the roles apart: different roles get different labels. */
  lemma {:induction false} RoleLabelIdentifiesRole(a: UserRole, b: UserRole)
    ensures RoleLabel(a) == RoleLabel(b) <==> a == b
  {
    if a != b {
      assert RoleLabel(a)[0] != RoleLabel(b)[0];
    }
  }

  /** The gesture's refs `touchStartX`/`touchStartY` and the `isScrolling`
      state. */
  class SwipeGesture {
    var touchStartX: real
    var touchStartY: real
    var isScrolling: bool

    /** The refs start at 0 and the flag at false. */
    constructor ()
      ensures touchStartX == 0.0 && touchStartY == 0.0 && !isScrolling
    {
      touchStartX := 0.0;
      touchStartY := 0.0;
      isScrolling := false;
    }

    /** `handleTouchStart`: record where the touch began and clear the flag. */
    method TouchStart(x: real, y: real)
      modifies this
      ensures touchStartX == x && touchStartY == y && !isScrolling
    {
      touchStartX := x;
      touchStartY := y;
      isScrolling := false;
    }

    /** `handleTouchMove`: raise the flag on a vertical move; never lower it. */
    method TouchMove(x: real, y: real)
      modifies this`isScrolling
      ensures isScrolling == (old(isScrolling) || VerticalMove(x - touchStartX, y - touchStartY))
    {
      var deltaY := Abs(y - touchStartY);
      var deltaX := Abs(x - touchStartX);
      if deltaY > deltaX && deltaY > 10.0 {
        isScrolling := true;
      }
    }

    /** `handleTouchEnd`: the tab to hand to `onTabChange`, if any. It changes
        no state of the gesture. */
    method TouchEnd(endX: real, activeTab: Tab) returns (change: Option<Tab>)
      ensures change == SwipeTarget(isScrolling, endX - touchStartX, activeTab)
      ensures isScrolling ==> change == None
      ensures change.Some? ==> TabIndex(change.value) == TabIndex(activeTab) + 1 ||
                               TabIndex(change.value) + 1 == TabIndex(activeTab)
    {
      if isScrolling {
        return None;
      }
      var deltaX := endX - touchStartX;
      change := None;
      if Abs(deltaX) > MinSwipeDistance {
        var currentIndex := TabIndex(activeTab);
        if deltaX > 0.0 && currentIndex > 0 {
          change := Some(Tabs[currentIndex - 1]);
        } else if deltaX < 0.0 && currentIndex < |Tabs| - 1 {
          change := Some(Tabs[currentIndex + 1]);
        }
      }
    }
  }
}
