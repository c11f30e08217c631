# HelloMac window tiler, modelled in Dafny

HelloMac moves the focused window of the frontmost application onto the left
or right half of the display it is on, when a global shortcut fires. This
project models the tiling engine, `WindowTiler`, and proves its geometry,
its coordinate flip, its screen lookup and its control flow.

- `wrappers.dfy`, module `Wrappers`: `Option`, standing in for Swift's `T?`.
- `geometry.dfy`, module `Geometry`: points, sizes and rectangles with
  CGRect's standardized accessors (`MinX`, `MaxY`, `Width`, ...), half-open
  `Contains`, and `floor`. Coordinates are exact `real`s.
- `window_tiler.dfy`, module `WindowTiler`: the engine.
  - `TargetRect` is the half-screen rectangle.
  - `ConvertToAXRect` and `ConvertToAXPoint` are the vertical flip.
  - `FirstHit` and `ScreenForWindow` are the screen locator.
  - `ResolveWindow` and `CopyAttribute` are the focused-to-main window fallback.
  - `Window` is a class. Its `position` and `size` fields are updated by `SetAttributeValue`.
  - `Tile` is the orchestrator, with its early returns. It is proved against the pure plan `TilePlan`.
- `tiler_properties.dfy`, module `TilerProperties`: lemmas about the model,
  and `TileTwice`, a client that tiles twice in a row.

The platform is abstract:
- The accessibility check is a boolean `trusted`.
- The frontmost application is an optional `App`. Its focused-window and
  main-window attributes are optional `Window`s.
- `NSScreen.screens` is a sequence of `Screen` values and `NSScreen.main` is an optional `Screen`.
- Each window says which of its attributes can be read and which can be set,
  so every read and every write may fail independently.
- The `NSLog` diagnostics are returned as a sequence of `Diagnostic`s.

The locator flips each screen's frame against that same screen's frame
(WindowTiler.swift:109-110). For a frame of non-negative size, which every
NSScreen frame has, the flipped rectangle therefore always starts at y = 0,
whatever the display arrangement. The model does the same:
`OwnFrameFlipStartsAtZero` and `HitTest` state the consequence, and
`StackedRetileChangesScreen` shows what it does to stacked displays.

`AppWindows` is not a function of the source. It is the set of windows the
frontmost application can hand out, used as the frame of `Tile` (the objects
one call may modify).

## Model

| member | source | states |
|---|---|---|
| `Geometry.Floor` | HelloMac/WindowTiler.swift:51 | the half width is the largest whole number not above width / 2 |
| `WindowTiler.TargetRect` | HelloMac/WindowTiler.swift:50-60 | the target keeps the visible frame's minY and height and lies inside the visible frame; the left half starts at minX and is floor(width / 2) wide; the right half ends at maxX, starts a whole number past minX, and is at least half the width but less than half plus one |
| `WindowTiler.ConvertToAXRect` | HelloMac/WindowTiler.swift:122-125 | the flip keeps x, width and height; for a standard rectangle the AX top is frame.maxY minus the rectangle's bottom, and the AX bottom is frame.maxY minus its top |
| `WindowTiler.ConvertToAXPoint` | HelloMac/WindowTiler.swift:115-120 | the point is exactly the origin of the flipped rectangle |
| `WindowTiler.AXTarget` | HelloMac/WindowTiler.swift:62-66 | the written position and size are the flipped target rectangle; the AX y is frame.maxY - visibleFrame.maxY, the width is non-negative and the height is the visible height |
| `WindowTiler.Window.CopyPosition` | HelloMac/WindowTiler.swift:94 | the read succeeds exactly when the position is readable, and then yields the window's position |
| `WindowTiler.Window.CopySize` | HelloMac/WindowTiler.swift:95 | the read succeeds exactly when the size is readable, and then yields the window's size |
| `WindowTiler.Center` | HelloMac/WindowTiler.swift:106 | the centre is equally far from the window's near and far edge, on both axes |
| `WindowTiler.HitTest` | HelloMac/WindowTiler.swift:107-111 | for a standard frame, the test holds exactly when minX <= cx < maxX and 0 <= cy < height |
| `WindowTiler.FirstHit` | HelloMac/WindowTiler.swift:107-112 | None exactly when no screen passes the test; otherwise an index in range whose screen passes, with no earlier screen passing |
| `WindowTiler.ScreenForWindow` | HelloMac/WindowTiler.swift:91-113 | None when position or size cannot be read; otherwise None exactly when no screen contains the window's centre, else a listed screen that contains it with no earlier screen doing so |
| `WindowTiler.ChooseScreen` | HelloMac/WindowTiler.swift:44-48 | the located screen, else the main screen; None only when both are missing |
| `WindowTiler.ResolveWindow` | HelloMac/WindowTiler.swift:32-41 | the focused window when there is one, else the main window; None exactly when neither exists; the result is one of the app's windows |
| `WindowTiler.CopyAttribute` | HelloMac/WindowTiler.swift:74-82 | reports true exactly when the attribute has a value; then stores it in the out-parameter, otherwise leaves that unchanged |
| `WindowTiler.Window.SetAttributeValue` | HelloMac/WindowTiler.swift:85 | an accepted write stores the value in the matching field; a refused one changes no geometry; the attempt is recorded either way |
| `WindowTiler.SetAttribute` | HelloMac/WindowTiler.swift:84-89 | one write, with exactly one failure diagnostic logged when it is refused |
| `WindowTiler.TilePlan` | HelloMac/WindowTiler.swift:20-66 | a write happens only when trusted, only to the resolved window (which the frontmost app handed out), with a non-negative width; the complete case analysis is in UntrustedAborts, NoFrontmostAborts and PlanFallbacks |
| `WindowTiler.Tile` | HelloMac/WindowTiler.swift:20-70 | an abort logs exactly its one diagnostic and leaves every window unchanged; otherwise the position write is attempted and then the size write, each taking effect exactly when settable, each failure logged, and no other window changed |
| `TilerProperties.HalvesPartition` | HelloMac/WindowTiler.swift:51-59 | the halves are contiguous (left.maxX == right.minX), start at minX and end at maxX, their widths sum to the visible width with the right at most 2 wider, and both keep minY and height |
| `TilerProperties.OddRemainderGoesRight` | HelloMac/WindowTiler.swift:51-59 | for a whole-number width, the right half is 0 or 1 wider, and it is 1 wider exactly when the width is odd |
| `TilerProperties.Split1920` | HelloMac/WindowTiler.swift:54-59 | width 1920 at the origin gives {0,0,960,1080} and {960,0,960,1080} |
| `TilerProperties.Split1441` | HelloMac/WindowTiler.swift:51-59 | width 1441 gives a left width of 720 and a right width of 721 |
| `TilerProperties.FlipInvolution` | HelloMac/WindowTiler.swift:122-125 | flipping a standard rectangle twice against the same screen gives it back |
| `TilerProperties.FlippedHalvesAgree` | HelloMac/WindowTiler.swift:56-63 | both halves get the same AX y and height; the y is non-negative when the visible frame does not reach above the frame |
| `TilerProperties.OwnFrameFlipStartsAtZero` | HelloMac/WindowTiler.swift:109-110 | a frame of non-negative height flipped against itself has y = 0 |
| `TilerProperties.StackedFirstCall` | HelloMac/WindowTiler.swift:44 | a window whose centre is on neither stacked display falls back to the main display |
| `TilerProperties.StackedSecondCall` | HelloMac/WindowTiler.swift:106-111 | the upper display's left half has its centre inside the lower display's test, which comes first, so the lower display is chosen |
| `TilerProperties.StackedRetileChangesScreen` | HelloMac/WindowTiler.swift:44-69 | with two nested displays stacked vertically (LowerScreen, UpperScreen) and the upper one main, a window first tiled onto the upper display is moved to the lower one by a second call, to a different position and size |
| `TilerProperties.TiledCenterHits` | HelloMac/WindowTiler.swift:106-111 | once a window is on its target half of a screen whose visible area is non-empty and inside its frame, its centre passes that screen's test |
| `TilerProperties.SideBySideHitsOnce` | HelloMac/WindowTiler.swift:107-111 | when displays share no column, at most one display passes the test for a point |
| `TilerProperties.RetileChoosesSameScreen` | HelloMac/WindowTiler.swift:44-69 | with side-by-side displays and the main display among them, the window's new position leads to the same screen again, so a second call writes the same position and size |
| `TilerProperties.UntrustedAborts` | HelloMac/WindowTiler.swift:21-24 | without permission the call aborts with the permission diagnostic, whatever windows and screens exist |
| `TilerProperties.NoFrontmostAborts` | HelloMac/WindowTiler.swift:26-29 | with permission but no frontmost application the call aborts with that diagnostic |
| `TilerProperties.PlanFallbacks` | HelloMac/WindowTiler.swift:33-69 | with neither focused nor main window the call aborts; a located screen's target is written; with no located screen the main screen's target is written, or the call aborts when that is missing too; the window written is the focused one, else the main one |
| `TilerProperties.TileTwice` | HelloMac/WindowTiler.swift:20-70 | when a readable, settable window is tiled twice on side-by-side displays, it ends where one tile puts it, and neither call logs anything |

## Left out

- HotKeyManager.swift: registering the Carbon hot keys and dispatching events into the engine are OS plumbing. The mapping from id to direction (HotKeyManager.swift:97-104) is not modelled; the `Direction` argument of `Tile` stands for it.
- ContentView.swift and HelloMacApp.swift: the user interface and the app shell.
- `ensureAccessibility`: `AXIsProcessTrustedWithOptions` and its consent prompt are a foreign call. The model takes its answer as the `trusted` parameter.
- `NSWorkspace.frontmostApplication` and `AXUIElementCreateApplication` are foreign calls. The model takes their result as `frontmost: Option<App>`.
- `AXUIElementCopyAttributeValue`, `AXValueCreate` and `AXValueGetValue` are not modelled as behaviour. A read gives `Some(value)` or `None`. `AXValueGetValue` failing on a position or size value of the wrong type, which would leave the zero point or size, is not modelled.
- `AXUIElementSetAttributeValue` is modelled by the window's settable flags. A window manager that clamps the size depending on the position is not modelled.
- The text of the `NSLog` messages and the platform's error codes are not modelled. Each message is one `Diagnostic` value.
- `CGFloat` rounding is not modelled: coordinates are exact reals, so the partition and flip laws hold exactly.
- Concurrency and display hot-plugging are not modelled. The code has none; a window closing shows up as a failed read or write.
- FlipInvolution: stated for rectangles with non-negative stored sizes only. The flip stores the standardized width and height, so a rectangle with a negative stored size does not come back unchanged.
- TileTwice and RetileChoosesSameScreen: idempotence is proved only for displays side by side (no two sharing a column) whose visible areas are non-empty and inside their frames. Because of the own-frame flip, displays stacked vertically all pass the same y test, and an earlier display can then capture the window on the second call; StackedRetileChangesScreen proves one such case.
