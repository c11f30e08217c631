/**
 * The window-tiling engine: moves the focused window of the frontmost
 * application onto the left or right half of the display it is on.
 *
 * Two coordinate conventions meet here. Display frames (and the target
 * rectangle computed from them) are Cocoa rectangles, origin at the bottom
 * left. Window positions read and written through the accessibility (AX)
 * interface use a top-left origin. ConvertToAXRect and ConvertToAXPoint
 * flip between them.
 *
 * The platform is abstracted: the accessibility permission is a boolean,
 * the frontmost application is an optional App whose focused and main
 * window attributes are optional windows, and the display list and the main
 * display are values. NSLog diagnostics are returned as a log.
 */
module WindowTiler {
  import opened Wrappers
  import opened Geometry

  /** Which half of the display the window goes to. */
  datatype Direction = Left | Right

  /** A display: its full bounds and its usable area (no menu bar, no Dock). */
  datatype Screen = Screen(frame: Rect, visibleFrame: Rect)

  /** The two window attributes the engine writes. */
  datatype Attribute = PositionAttribute | SizeAttribute

  /** A boxed accessibility value. */
  datatype AXValue = CGPointValue(point: Point) | CGSizeValue(size: Size) {
    /** The value has the type the attribute stores. */
    predicate Fits(attr: Attribute) {
      match attr
      case PositionAttribute => CGPointValue?
      case SizeAttribute => CGSizeValue?
    }
  }

  /** The diagnostics the engine logs, one per abort point or failed write. */
  datatype Diagnostic =
    | AccessibilityNotGranted
    | NoFrontmostApplication
    | NoFocusedOrMainWindow
    | NoScreenAvailable
    | SetAttributeFailed(attr: Attribute)

  /**
   * A window of another process, seen through the accessibility interface.
   * `position` and `size` are its AX geometry (top-left origin). Whether each
   * attribute can be read or set is fixed by the platform for one call (a
   * closed window can do neither). `writeLog` records every write attempt,
   * in order.
   */
  class Window {
    var position: Point
    var size: Size
    const positionReadable: bool
    const sizeReadable: bool
    const positionSettable: bool
    const sizeSettable: bool
    ghost var writeLog: seq<Attribute>

    constructor (position: Point, size: Size,
                 positionReadable: bool, sizeReadable: bool,
                 positionSettable: bool, sizeSettable: bool)
      ensures this.position == position && this.size == size
      ensures this.positionReadable == positionReadable && this.sizeReadable == sizeReadable
      ensures this.positionSettable == positionSettable && this.sizeSettable == sizeSettable
      ensures writeLog == []
    {
      this.position := position;
      this.size := size;
      this.positionReadable := positionReadable;
      this.sizeReadable := sizeReadable;
      this.positionSettable := positionSettable;
      this.sizeSettable := sizeSettable;
      writeLog := [];
    }

    /** Reading the position attribute: its value, or None when the read fails. */
    function CopyPosition(): (r: Option<Point>)
      reads this
      ensures r.Some? <==> positionReadable
      ensures r.Some? ==> r.value == position
    {
      if positionReadable then Some(position) else None
    }

    /** Reading the size attribute: its value, or None when the read fails. */
    function CopySize(): (r: Option<Size>)
      reads this
      ensures r.Some? <==> sizeReadable
      ensures r.Some? ==> r.value == size
    {
      if sizeReadable then Some(size) else None
    }

    /** A write of `value` to `attr` succeeds. */
    predicate Accepts(attr: Attribute, value: AXValue) {
      value.Fits(attr) &&
      match attr
      case PositionAttribute => positionSettable
      case SizeAttribute => sizeSettable
    }

    /**
     * AXUIElementSetAttributeValue: stores the value when the write is
     * accepted, leaves the geometry alone otherwise, and reports success.
     */
    method SetAttributeValue(attr: Attribute, value: AXValue) returns (success: bool)
      modifies this
      ensures success == Accepts(attr, value)
      ensures position == (if success && value.CGPointValue? then value.point else old(position))
      ensures size == (if success && value.CGSizeValue? then value.size else old(size))
      ensures writeLog == old(writeLog) + [attr]
    {
      success := Accepts(attr, value);
      if success {
        match value
        case CGPointValue(p) => position := p;
        case CGSizeValue(s) => size := s;
      }
      writeLog := writeLog + [attr];
    }
  }

  /** The frontmost application: the values of its focused-window and main-window attributes. */
  datatype App = App(focusedWindow: Option<Window>, mainWindow: Option<Window>)

  /**
   * The windows an application can hand out, so the windows one call may
   * touch: the frame of Tile, not a function of the source.
   */
  function AppWindows(frontmost: Option<App>): (ws: set<Window>)
    ensures frontmost.Some? && frontmost.value.focusedWindow.Some? ==> frontmost.value.focusedWindow.value in ws
    ensures frontmost.Some? && frontmost.value.mainWindow.Some? ==> frontmost.value.mainWindow.value in ws
    ensures forall w | w in ws ::
      frontmost.Some? && (frontmost.value.focusedWindow == Some(w) || frontmost.value.mainWindow == Some(w))
  {
    match frontmost
    case None => {}
    case Some(app) =>
      (if app.focusedWindow.Some? then {app.focusedWindow.value} else {}) +
      (if app.mainWindow.Some? then {app.mainWindow.value} else {})
  }

  // ---------------------------------------------------------------------
  // Coordinate transformer

  /**
   * Flips a Cocoa rectangle into AX coordinates against `screen`'s frame:
   * the new y is the distance from the top of the frame to the top of the
   * rectangle; x, width and height are kept.
   */
  function ConvertToAXRect(cocoaRect: Rect, screen: Screen): (r: Rect)
    ensures Standard(r)
    ensures r.origin.x == cocoaRect.origin.x
    ensures r.Width() == cocoaRect.Width() && r.Height() == cocoaRect.Height()
    ensures Standard(cocoaRect) ==> r.MaxY() == screen.frame.MaxY() - cocoaRect.MinY()
    ensures Standard(cocoaRect) ==> r.MinY() == screen.frame.MaxY() - cocoaRect.MaxY()
  {
    var flippedY := screen.frame.MaxY() - (cocoaRect.origin.y + cocoaRect.size.height);
    Rect(Point(cocoaRect.origin.x, flippedY), Size(cocoaRect.Width(), cocoaRect.Height()))
  }

  /** The AX origin of a Cocoa target rectangle: exactly the origin ConvertToAXRect gives it. */
  function ConvertToAXPoint(targetRect: Rect, screen: Screen): (p: Point)
    ensures p == ConvertToAXRect(targetRect, screen).origin
  {
    var flippedY := screen.frame.MaxY() - (targetRect.origin.y + targetRect.size.height);
    Point(targetRect.origin.x, flippedY)
  }

  // ---------------------------------------------------------------------
  // Geometry calculator

  /**
   * The target half of a visible frame. The left half is floor(width / 2)
   * wide and starts at minX; the right half starts where it ends and takes
   * the rest. Both keep the frame's minY and height.
   */
  function TargetRect(vf: Rect, direction: Direction): (r: Rect)
    ensures Standard(r)
    ensures r.origin.y == vf.MinY() && r.size.height == vf.Height()
    ensures vf.MinX() <= r.MinX() && r.MaxX() <= vf.MaxX()
    ensures direction == Left ==>
      r.MinX() == vf.MinX() && Integral(r.Width()) &&
      r.Width() <= vf.Width() / 2.0 < r.Width() + 1.0
    ensures direction == Right ==>
      r.MaxX() == vf.MaxX() && Integral(r.MinX() - vf.MinX()) &&
      vf.Width() / 2.0 <= r.Width() < vf.Width() / 2.0 + 1.0
  {
    var halfWidth := Floor(vf.Width() / 2.0);
    match direction
    case Left =>
      Rect(Point(vf.MinX(), vf.MinY()), Size(halfWidth, vf.Height()))
    case Right =>
      var rightWidth := vf.Width() - halfWidth;
      Rect(Point(vf.MinX() + halfWidth, vf.MinY()), Size(rightWidth, vf.Height()))
  }

  /** What the engine writes for a chosen screen: the AX position and the size of the target half. */
  function AXTarget(screen: Screen, direction: Direction): (t: (Point, Size))
    ensures t.1.width >= 0.0 && t.1.height == screen.visibleFrame.Height()
    ensures t.0.y == screen.frame.MaxY() - screen.visibleFrame.MaxY()
    ensures Rect(t.0, t.1) == ConvertToAXRect(TargetRect(screen.visibleFrame, direction), screen)
  {
    var targetRect := TargetRect(screen.visibleFrame, direction);
    (ConvertToAXPoint(targetRect, screen), targetRect.size)
  }

  // ---------------------------------------------------------------------
  // Screen locator

  /** The centre of a window given its AX position and size. */
  function Center(p: Point, s: Size): (c: Point)
    ensures c.x - p.x == (p.x + s.width) - c.x
    ensures c.y - p.y == (p.y + s.height) - c.y
  {
    Point(p.x + s.width / 2.0, p.y + s.height / 2.0)
  }

  /**
   * The locator's test: the screen's frame, flipped against itself, contains
   * `c`. For a standard frame that is the strip [minX, maxX) x [0, height).
   */
  predicate HitTest(screen: Screen, c: Point): (b: bool)
    ensures Standard(screen.frame) ==>
      (b <==> screen.frame.MinX() <= c.x < screen.frame.MaxX() && 0.0 <= c.y < screen.frame.Height())
  {
    ConvertToAXRect(screen.frame, screen).Contains(c)
  }

  /** The index of the first screen, in enumeration order, that passes the test for `c`. */
  function FirstHit(screens: seq<Screen>, c: Point): (r: Option<nat>)
    ensures r.None? <==> forall j :: 0 <= j < |screens| ==> !HitTest(screens[j], c)
    ensures r.Some? ==>
      r.value < |screens| && HitTest(screens[r.value], c) &&
      forall j :: 0 <= j < r.value ==> !HitTest(screens[j], c)
    decreases |screens|
  {
    if |screens| == 0 then None
    else if HitTest(screens[0], c) then Some(0)
    else
      match FirstHit(screens[1..], c)
      case None => None
      case Some(i) => Some(i + 1)
  }

  /**
   * The screen a window is on: None when its position or size cannot be
   * read; otherwise the first screen whose converted frame contains the
   * window's centre, or None when there is none.
   */
  function ScreenForWindow(position: Option<Point>, size: Option<Size>, screens: seq<Screen>): (r: Option<Screen>)
    ensures position.None? || size.None? ==> r.None?
    ensures position.Some? && size.Some? ==>
      var c := Center(position.value, size.value);
      (r.None? <==> forall j :: 0 <= j < |screens| ==> !HitTest(screens[j], c)) &&
      (r.Some? ==> exists i :: 0 <= i < |screens| && screens[i] == r.value && HitTest(screens[i], c) &&
                     forall j :: 0 <= j < i ==> !HitTest(screens[j], c))
  {
    if position.None? || size.None? then None
    else
      match FirstHit(screens, Center(position.value, size.value))
      case None => None
      case Some(i) => Some(screens[i])
  }

  /** The `??` fallback: the located screen, else the main screen. */
  function ChooseScreen(located: Option<Screen>, mainScreen: Option<Screen>): (r: Option<Screen>)
    ensures r.None? <==> located.None? && mainScreen.None?
    ensures r.Some? ==> r == located || (located.None? && r == mainScreen)
  {
    if located.Some? then located else mainScreen
  }

  // ---------------------------------------------------------------------
  // Window resolver

  /** The focused window, falling back to the main window. */
  function ResolveWindow(app: App): (w: Option<Window>)
    ensures w.None? <==> app.focusedWindow.None? && app.mainWindow.None?
    ensures app.focusedWindow.Some? ==> w == app.focusedWindow
    ensures w.Some? ==> w.value in AppWindows(Some(app))
  {
    if app.focusedWindow.Some? then app.focusedWindow else app.mainWindow
  }

  /**
   * copyAttribute: a successful read of an attribute that has a value of the
   * expected type stores it in `out` and reports true; otherwise `out` is
   * left as it was and the result is false. `attribute` is what the read
   * yields, None standing for an error or a missing or mistyped value.
   */
  method CopyAttribute<T>(attribute: Option<T>, out: Option<T>) returns (ok: bool, result: Option<T>)
    ensures ok <==> attribute.Some?
    ensures result == (if ok then attribute else out)
  {
    ok := false;
    result := out;
    if attribute.Some? {
      result := attribute;
      ok := true;
    }
  }

  // ---------------------------------------------------------------------
  // Orchestrator

  /** What one call does: abort with a diagnostic, or write a position and a size to a window. */
  datatype Step = Abort(reason: Diagnostic) | Write(window: Window, position: Point, size: Size)

  /** The decision procedure of `tile`, in the state before the call. */
  function TilePlan(direction: Direction, trusted: bool, frontmost: Option<App>,
                    screens: seq<Screen>, mainScreen: Option<Screen>): (r: Step)
    reads AppWindows(frontmost)
    ensures r.Write? ==> trusted && r.window in AppWindows(frontmost) && r.size.width >= 0.0
    ensures r.Write? ==> frontmost.Some? && ResolveWindow(frontmost.value) == Some(r.window)
    ensures r.Abort? ==> !r.reason.SetAttributeFailed?
  {
    if !trusted then Abort(AccessibilityNotGranted)
    else if frontmost.None? then Abort(NoFrontmostApplication)
    else
      match ResolveWindow(frontmost.value)
      case None => Abort(NoFocusedOrMainWindow)
      case Some(w) =>
        match ChooseScreen(ScreenForWindow(w.CopyPosition(), w.CopySize(), screens), mainScreen)
        case None => Abort(NoScreenAvailable)
        case Some(s) =>
          var t := AXTarget(s, direction);
          Write(w, t.0, t.1)
  }

  /** setAttribute: one write, logging a diagnostic when it fails. */
  method SetAttribute(element: Window, attr: Attribute, value: AXValue) returns (log: seq<Diagnostic>)
    modifies element
    ensures log == (if element.Accepts(attr, value) then [] else [SetAttributeFailed(attr)])
    ensures element.position ==
      (if element.Accepts(attr, value) && value.CGPointValue? then value.point else old(element.position))
    ensures element.size ==
      (if element.Accepts(attr, value) && value.CGSizeValue? then value.size else old(element.size))
    ensures element.writeLog == old(element.writeLog) + [attr]
  {
    var success := element.SetAttributeValue(attr, value);
    log := if success then [] else [SetAttributeFailed(attr)];
  }

  /**
   * tile(direction). `trusted` is the answer of the accessibility check,
   * `frontmost` the frontmost application (None when there is none),
   * `screens` the display enumeration and `mainScreen` the main display.
   * Every abort logs one diagnostic and touches no window. Otherwise the
   * position is written and then the size, a failed write not stopping the
   * next, and each failure is logged.
   */
  method Tile(direction: Direction, trusted: bool, frontmost: Option<App>,
              screens: seq<Screen>, mainScreen: Option<Screen>) returns (log: seq<Diagnostic>)
    modifies AppWindows(frontmost)
    ensures match old(TilePlan(direction, trusted, frontmost, screens, mainScreen))
      case Abort(reason) =>
        log == [reason] && unchanged(AppWindows(frontmost))
      case Write(w, p, s) =>
        w.position == (if w.positionSettable then p else old(w.position)) &&
        w.size == (if w.sizeSettable then s else old(w.size)) &&
        w.writeLog == old(w.writeLog) + [PositionAttribute, SizeAttribute] &&
        log == (if w.positionSettable then [] else [SetAttributeFailed(PositionAttribute)]) +
               (if w.sizeSettable then [] else [SetAttributeFailed(SizeAttribute)]) &&
        unchanged(AppWindows(frontmost) - {w})
  {
    ghost var plan := TilePlan(direction, trusted, frontmost, screens, mainScreen);
    if !trusted {
      log := [AccessibilityNotGranted];
      return;
    }
    if frontmost.None? {
      log := [NoFrontmostApplication];
      return;
    }
    var app := frontmost.value;
    var windowRef: Option<Window> := None;
    var ok;
    ok, windowRef := CopyAttribute(app.focusedWindow, windowRef);
    if !ok || windowRef.None? {
      // Try the main window as a fallback
      ok, windowRef := CopyAttribute(app.mainWindow, windowRef);
    }
    assert windowRef == ResolveWindow(app);
    if windowRef.None? {
      log := [NoFocusedOrMainWindow];
      return;
    }
    var window := windowRef.value;
    var currentScreen := ScreenForWindow(window.CopyPosition(), window.CopySize(), screens);
    if currentScreen.None? {
      currentScreen := mainScreen;
    }
    assert currentScreen == ChooseScreen(ScreenForWindow(window.CopyPosition(), window.CopySize(), screens), mainScreen);
    if currentScreen.None? {
      assert plan == Abort(NoScreenAvailable);
      log := [NoScreenAvailable];
      return;
    }
    var screen := currentScreen.value;
    var vf := screen.visibleFrame;
    var targetRect := TargetRect(vf, direction);
    var pt := ConvertToAXPoint(targetRect, screen);
    var size := targetRect.size;
    assert plan == Write(window, pt, size);
    var positionLog := SetAttribute(window, PositionAttribute, CGPointValue(pt));
    var sizeLog := SetAttribute(window, SizeAttribute, CGSizeValue(size));
    log := positionLog + sizeLog;
  }
}
