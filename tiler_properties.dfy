/**
 * Properties of the tiling engine: the two halves partition the visible
 * frame, the coordinate flip undoes itself, the locator's test reduces to a
 * strip test, the orchestrator's abort points, and tiling twice writes what
 * tiling once wrote.
 */
module TilerProperties {
  import opened Wrappers
  import opened Geometry
  import opened WindowTiler

  // ---------------------------------------------------------------------
  // Geometry calculator

  /** The halves are contiguous and exactly cover the visible width, on any frame. */
  lemma HalvesPartition(vf: Rect)
    ensures var left, right := TargetRect(vf, Left), TargetRect(vf, Right);
      left.MinX() == vf.MinX() && left.MaxX() == right.MinX() && right.MaxX() == vf.MaxX() &&
      left.Width() + right.Width() == vf.Width() &&
      0.0 <= right.Width() - left.Width() < 2.0 &&
      left.origin.y == right.origin.y == vf.MinY() &&
      left.Height() == right.Height() == vf.Height()
  {
  }

  /**
   * On a whole-number width the odd pixel, and only it, goes to the right
   * half: the right half is one wider exactly when the width is odd.
   */
  lemma OddRemainderGoesRight(vf: Rect)
    requires Integral(vf.Width())
    ensures var d := TargetRect(vf, Right).Width() - TargetRect(vf, Left).Width();
      (d == 0.0 || d == 1.0) && (d == 0.0 <==> Integral(vf.Width() / 2.0))
  {
    var w := vf.Width();
    var half := Floor(w / 2.0);
    var n := w.Floor;
    var k := (w / 2.0).Floor;
    assert w == n as real;
    assert half == k as real;
    assert 2 * k <= n < 2 * k + 2;
    assert TargetRect(vf, Left).Width() == half;
    assert TargetRect(vf, Right).Width() == w - half;
    if n == 2 * k {
      assert w / 2.0 == k as real;
    } else {
      assert n == 2 * k + 1;
      assert !Integral(w / 2.0) by {
        assert (w / 2.0).Floor == k;
        assert w / 2.0 == k as real + 0.5;
      }
    }
  }

  /** A 1920-point-wide frame at the origin splits into two 960-point halves. */
  lemma Split1920()
    ensures var vf := Rect(Point(0.0, 0.0), Size(1920.0, 1080.0));
      TargetRect(vf, Left) == Rect(Point(0.0, 0.0), Size(960.0, 1080.0)) &&
      TargetRect(vf, Right) == Rect(Point(960.0, 0.0), Size(960.0, 1080.0))
  {
  }

  /** A 1441-point-wide frame gives a 720-point left half and a 721-point right half. */
  lemma Split1441()
    ensures var vf := Rect(Point(0.0, 0.0), Size(1441.0, 900.0));
      TargetRect(vf, Left).Width() == 720.0 && TargetRect(vf, Right).Width() == 721.0
  {
  }

  // ---------------------------------------------------------------------
  // Coordinate transformer

  /** Flipping twice against the same screen gives back the rectangle. */
  lemma FlipInvolution(r: Rect, screen: Screen)
    requires Standard(r)
    ensures ConvertToAXRect(ConvertToAXRect(r, screen), screen) == r
  {
  }

  /**
   * Both halves land at the same AX y, the distance from the top of the
   * frame to the top of the visible area; it is never negative when the
   * visible area does not reach above the frame.
   */
  lemma FlippedHalvesAgree(screen: Screen)
    ensures AXTarget(screen, Left).0.y == AXTarget(screen, Right).0.y
    ensures AXTarget(screen, Left).1.height == AXTarget(screen, Right).1.height
    ensures screen.visibleFrame.MaxY() <= screen.frame.MaxY() ==> AXTarget(screen, Left).0.y >= 0.0
  {
  }

  // ---------------------------------------------------------------------
  // Screen locator

  /**
   * A frame of non-negative height flipped against itself always starts at
   * y = 0, whatever the display arrangement; HitTest's strip form follows.
   */
  lemma OwnFrameFlipStartsAtZero(screen: Screen)
    requires screen.frame.size.height >= 0.0
    ensures ConvertToAXRect(screen.frame, screen).origin.y == 0.0
  {
  }

  /** The displays sit side by side: their frames are standard and no two share a column. */
  predicate SideBySide(screens: seq<Screen>) {
    (forall i :: 0 <= i < |screens| ==> Standard(screens[i].frame)) &&
    forall i, j :: 0 <= i < j < |screens| ==>
      screens[i].frame.MaxX() <= screens[j].frame.MinX() || screens[j].frame.MaxX() <= screens[i].frame.MinX()
  }

  /** A display whose usable area is non-empty and lies inside its standard frame. */
  predicate Nested(screen: Screen) {
    var f, vf := screen.frame, screen.visibleFrame;
    Standard(f) && vf.Width() > 0.0 && vf.Height() > 0.0 &&
    f.MinX() <= vf.MinX() && vf.MaxX() <= f.MaxX() &&
    f.MinY() <= vf.MinY() && vf.MaxY() <= f.MaxY()
  }

  /** A window just tiled onto a nested screen has its centre on that screen. */
  lemma TiledCenterHits(screen: Screen, direction: Direction)
    requires Nested(screen)
    ensures var t := AXTarget(screen, direction); HitTest(screen, Center(t.0, t.1))
  {
  }

  /** A 100 x 100 display at the origin, all of it usable. */
  const LowerScreen := Screen(Rect(Point(0.0, 0.0), Size(100.0, 100.0)), Rect(Point(0.0, 0.0), Size(100.0, 100.0)))

  /** A 100 x 100 display stacked on top of LowerScreen, its top 10 points taken by the menu bar. */
  const UpperScreen := Screen(Rect(Point(0.0, 100.0), Size(100.0, 100.0)), Rect(Point(0.0, 100.0), Size(100.0, 90.0)))

  /** A window whose centre is on neither stacked display falls back to the main one, UpperScreen. */
  lemma StackedFirstCall()
    ensures ChooseScreen(ScreenForWindow(Some(Point(1000.0, 1000.0)), Some(Size(10.0, 10.0)),
                                         [LowerScreen, UpperScreen]), Some(UpperScreen)) == Some(UpperScreen)
  {
    var far := Center(Point(1000.0, 1000.0), Size(10.0, 10.0));
    assert !HitTest(LowerScreen, far) && !HitTest(UpperScreen, far);
    assert FirstHit([LowerScreen, UpperScreen], far) == None;
  }

  /** Once on UpperScreen's left half, the window's centre passes LowerScreen's test first. */
  lemma StackedSecondCall()
    ensures var t := AXTarget(UpperScreen, Left);
      t == (Point(0.0, 10.0), Size(50.0, 90.0)) &&
      ChooseScreen(ScreenForWindow(Some(t.0), Some(t.1), [LowerScreen, UpperScreen]), Some(UpperScreen)) == Some(LowerScreen)
  {
    var t := AXTarget(UpperScreen, Left);
    assert t.0 == Point(0.0, 10.0) && t.1 == Size(50.0, 90.0);
    assert HitTest(LowerScreen, Center(t.0, t.1));
    assert FirstHit([LowerScreen, UpperScreen], Center(t.0, t.1)) == Some(0);
  }

  /**
   * Without the side-by-side hypothesis retiling can change screens. With
   * UpperScreen stacked above LowerScreen and main, a window whose centre is
   * on no screen goes to UpperScreen's left half; that half's centre passes
   * LowerScreen's test, because both tests use the strip 0 <= y < height, so
   * a second call moves the window to LowerScreen's left half.
   */
  lemma StackedRetileChangesScreen()
    ensures var screens, t := [LowerScreen, UpperScreen], AXTarget(UpperScreen, Left);
      Nested(LowerScreen) && Nested(UpperScreen) && !SideBySide(screens) &&
      ChooseScreen(ScreenForWindow(Some(Point(1000.0, 1000.0)), Some(Size(10.0, 10.0)), screens), Some(UpperScreen)) == Some(UpperScreen) &&
      ChooseScreen(ScreenForWindow(Some(t.0), Some(t.1), screens), Some(UpperScreen)) == Some(LowerScreen) &&
      AXTarget(LowerScreen, Left) != t
  {
    var screens := [LowerScreen, UpperScreen];
    assert screens[0].frame.MaxX() > screens[1].frame.MinX() && screens[1].frame.MaxX() > screens[0].frame.MinX();
    StackedFirstCall();
    StackedSecondCall();
    assert AXTarget(LowerScreen, Left).0 == Point(0.0, 0.0);
  }

  /** Two side-by-side screens that both pass the test for one point are the same screen. */
  lemma SideBySideHitsOnce(screens: seq<Screen>, i: nat, k: nat, c: Point)
    requires SideBySide(screens)
    requires i < |screens| && k < |screens|
    requires HitTest(screens[i], c) && HitTest(screens[k], c)
    ensures i == k
  {
  }

  /** The main display is one of the enumerated displays, which sit side by side and are all nested. */
  predicate Layout(screens: seq<Screen>, mainScreen: Option<Screen>) {
    SideBySide(screens) &&
    (forall i :: 0 <= i < |screens| ==> Nested(screens[i])) &&
    (mainScreen.Some? ==> mainScreen.value in screens)
  }

  /**
   * Retiling finds the same screen again: in such a layout, the screen
   * chosen for a window (located or main) is also the screen chosen once
   * the window sits on its target half, so the second call writes the same
   * position and size as the first.
   */
  lemma RetileChoosesSameScreen(direction: Direction, screens: seq<Screen>, mainScreen: Option<Screen>,
                                position: Option<Point>, size: Option<Size>, screen: Screen)
    requires Layout(screens, mainScreen)
    requires ChooseScreen(ScreenForWindow(position, size, screens), mainScreen) == Some(screen)
    ensures var t := AXTarget(screen, direction);
      ChooseScreen(ScreenForWindow(Some(t.0), Some(t.1), screens), mainScreen) == Some(screen)
  {
    var i :| 0 <= i < |screens| && screens[i] == screen;
    var t := AXTarget(screen, direction);
    var c := Center(t.0, t.1);
    TiledCenterHits(screen, direction);
    var k := FirstHit(screens, c).value;
    SideBySideHitsOnce(screens, i, k, c);
  }

  // ---------------------------------------------------------------------
  // Orchestrator

  /** Without the accessibility permission the call aborts before resolving any window. */
  lemma UntrustedAborts(direction: Direction, frontmost: Option<App>,
                        screens: seq<Screen>, mainScreen: Option<Screen>)
    ensures TilePlan(direction, false, frontmost, screens, mainScreen) == Abort(AccessibilityNotGranted)
  {
  }

  /** With the permission but no frontmost application the call aborts before resolving any window. */
  lemma NoFrontmostAborts(direction: Direction, screens: seq<Screen>, mainScreen: Option<Screen>)
    ensures TilePlan(direction, true, None, screens, mainScreen) == Abort(NoFrontmostApplication)
  {
  }

  /**
   * The window written is the focused window when there is one, else the
   * main window; with neither the call aborts. The screen is the located
   * one, else the main one; with neither the call aborts. What is written
   * is the target of that screen for the direction.
   */
  lemma PlanFallbacks(direction: Direction, app: App, screens: seq<Screen>, mainScreen: Option<Screen>)
    ensures app.focusedWindow.None? && app.mainWindow.None? ==>
      TilePlan(direction, true, Some(app), screens, mainScreen) == Abort(NoFocusedOrMainWindow)
    ensures ResolveWindow(app).Some? ==>
      var w := ResolveWindow(app).value;
      var located := ScreenForWindow(w.CopyPosition(), w.CopySize(), screens);
      var plan := TilePlan(direction, true, Some(app), screens, mainScreen);
      (located.Some? ==>
         plan == Write(w, AXTarget(located.value, direction).0, AXTarget(located.value, direction).1)) &&
      (located.None? && mainScreen.None? ==> plan == Abort(NoScreenAvailable)) &&
      (located.None? && mainScreen.Some? ==>
         plan == Write(w, AXTarget(mainScreen.value, direction).0, AXTarget(mainScreen.value, direction).1)) &&
      (plan.Write? ==> plan.window == (if app.focusedWindow.Some? then app.focusedWindow.value else app.mainWindow.value))
  {
  }

  /**
   * Tiling twice in a row leaves the window where tiling once put it, and
   * neither call logs anything, when the window can be read and written and
   * the displays sit side by side.
   */
  method TileTwice(direction: Direction, frontmost: Option<App>,
                   screens: seq<Screen>, mainScreen: Option<Screen>)
    returns (first: seq<Diagnostic>, second: seq<Diagnostic>)
    requires Layout(screens, mainScreen)
    requires frontmost.Some? && ResolveWindow(frontmost.value).Some?
    requires var w := ResolveWindow(frontmost.value).value;
      w.positionReadable && w.sizeReadable && w.positionSettable && w.sizeSettable
    modifies AppWindows(frontmost)
    ensures var plan := old(TilePlan(direction, true, frontmost, screens, mainScreen));
      plan.Write? ==>
        first == [] && second == [] &&
        plan.window.position == plan.position && plan.window.size == plan.size
  {
    ghost var plan := TilePlan(direction, true, frontmost, screens, mainScreen);
    first := Tile(direction, true, frontmost, screens, mainScreen);
    if plan.Write? {
      var w := plan.window;
      ghost var screen := ChooseScreen(ScreenForWindow(old(w.CopyPosition()), old(w.CopySize()), screens), mainScreen).value;
      RetileChoosesSameScreen(direction, screens, mainScreen, old(w.CopyPosition()), old(w.CopySize()), screen);
      assert TilePlan(direction, true, frontmost, screens, mainScreen) == plan;
    }
    second := Tile(direction, true, frontmost, screens, mainScreen);
  }
}
