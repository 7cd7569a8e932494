/** The non-Qt logic of `src/ui/widgets.py`: the 3 x 3 grid of calibration
    circles and where they sit on the screen, the calibration window's
    progress through them on Space, and the main window's list of captured
    eye positions. Layout, styling and signal delivery are Qt's; a handler
    here returns the signal it emits. */
module SrcWidgets {
  import opened Common
  import opened QtKeys

  type Point = (int, int)

  // ---------------------------------------------------------------------------
  // Circle locations

  /** `CalibrationCircle.size`: a circle is an 80 x 80 button. */
  const CircleSize: int := 80

  /** Room left under the bottom row for the task bar. */
  const BottomMargin: int := 35

  /** The parts of the primary screen's available geometry the layout uses. */
  datatype Screen = Screen(centerX: int, centerY: int, right: int, bottom: int)

  /** The left edges of the three columns: flush left, centred, flush right.
      Half the circle size is 40 exactly, so the float `size / 2` is modelled
      by its integer value. */
  function Columns(screen: Screen): (cols: seq<int>)
    ensures |cols| == 3
    ensures cols[0] == 0
    ensures cols[1] + CircleSize / 2 == screen.centerX
    ensures cols[2] + CircleSize == screen.right
  {
    [0, screen.centerX - CircleSize / 2, screen.right - CircleSize]
  }

  /** The top edges of the three rows: flush top, centred, and above the
      bottom margin. */
  function Rows(screen: Screen): (rows: seq<int>)
    ensures |rows| == 3
    ensures rows[0] == 0
    ensures rows[1] + CircleSize / 2 == screen.centerY
    ensures rows[2] + CircleSize + BottomMargin == screen.bottom
  {
    [0, screen.centerY - CircleSize / 2, screen.bottom - CircleSize - BottomMargin]
  }

  /** On a screen wide and tall enough for three circles side by side, the
      columns and rows are strictly increasing, so the nine locations are
      pairwise different, and every circle lies inside the screen, the
      bottom row clear of the margin. */
  lemma GridFitsScreen(screen: Screen)
    requires CircleSize <= screen.centerX - CircleSize / 2 && screen.centerX + CircleSize / 2 <= screen.right - CircleSize
    requires CircleSize <= screen.centerY - CircleSize / 2 && screen.centerY + CircleSize / 2 <= screen.bottom - CircleSize - BottomMargin
    ensures forall i, j :: 0 <= i < j < 3 ==> Columns(screen)[i] < Columns(screen)[j] && Rows(screen)[i] < Rows(screen)[j]
    ensures forall c :: 0 <= c < 3 ==> 0 <= Columns(screen)[c] && Columns(screen)[c] + CircleSize <= screen.right
    ensures forall r :: 0 <= r < 3 ==> 0 <= Rows(screen)[r] && Rows(screen)[r] + CircleSize + BottomMargin <= screen.bottom
    ensures forall r1, c1, r2, c2 :: 0 <= r1 < 3 && 0 <= c1 < 3 && 0 <= r2 < 3 && 0 <= c2 < 3 && (r1, c1) != (r2, c2) ==>
      (Columns(screen)[c1], Rows(screen)[r1]) != (Columns(screen)[c2], Rows(screen)[r2])
  {
  }

  // ---------------------------------------------------------------------------
  // Calibration window progress

  /** What the window emits for a key press: `completed`, `captureEyeData`,
      or nothing (the event only goes on to Qt). */
  datatype Signal = CompletedSignal | CaptureSignal | Forwarded

  /** `activeCircleIndex` and how many circles have been drawn. */
  datatype WidgetState = WidgetState(index: int, count: int)

  /** What `keyPressEvent` does. The `activeCircleIndex is not None` test is
      always true (the index starts at 0). Space on the last circle, or on a
      window with no circles yet, emits `completed`; Space on any other
      circle emits `captureEyeData` and moves to the next circle. Every
      other key is only passed on. */
  function PressStep(s: WidgetState, e: KeyEvent): (r: (WidgetState, Signal))
    ensures e.key != Space ==> r == (s, Forwarded)
    ensures r.1 == CaptureSignal <==> e.key == Space && s.index < s.count - 1
    ensures r.1 == CaptureSignal ==> r.0 == s.(index := s.index + 1)
    ensures r.1 != CaptureSignal ==> r.0 == s
    ensures r.1 == CompletedSignal <==> e.key == Space && s.index >= s.count - 1
  {
    if e.key != Space then (s, Forwarded)
    else if s.index >= s.count - 1 then (s, CompletedSignal)
    else (s.(index := s.index + 1), CaptureSignal)
  }

  /** The states a window can reach: index 0 before there are circles, and
      an index among them afterwards. */
  predicate Reachable(s: WidgetState) {
    && 0 <= s.index
    && (s.count == 0 ==> s.index == 0)
    && (s.count > 0 ==> s.index < s.count)
  }

  /** The final state, the number of captures and the number of completions
      when the key presses arrive in order. */
  function Run(s: WidgetState, events: seq<KeyEvent>): (WidgetState, nat, nat)
    decreases |events|
  {
    if events == [] then (s, 0, 0)
    else
      var (s1, signal) := PressStep(s, events[0]);
      var (f, c, d) := Run(s1, events[1..]);
      (f, c + (if signal == CaptureSignal then 1 else 0), d + (if signal == CompletedSignal then 1 else 0))
  }

  /** One key press keeps the state reachable, never changes the number of
      circles, and moves the index exactly when it captures. */
  lemma PressStepKeepsReachable(s: WidgetState, e: KeyEvent)
    requires Reachable(s)
    ensures var (s1, signal) := PressStep(s, e);
      && Reachable(s1)
      && s1.count == s.count
      && s1.index == s.index + (if signal == CaptureSignal then 1 else 0)
      && (signal != Forwarded <==> e.key == Space)
  {
  }

  /** Over any key presses every capture moves to the next circle and no
      circle is ever passed by: the index ends the number of captures
      further on, and still inside the grid. */
  lemma {:induction false} RunCountsCaptures(s: WidgetState, events: seq<KeyEvent>)
    requires Reachable(s)
    decreases |events|
    ensures var (f, c, d) := Run(s, events);
      && Reachable(f)
      && f.count == s.count
      && f.index == s.index + c
  {
    if events != [] {
      PressStepKeepsReachable(s, events[0]);
      RunCountsCaptures(PressStep(s, events[0]).0, events[1..]);
    }
  }

  /** `k` presses of Space with the same modifiers. */
  function Spaces(k: nat, modifiers: set<Modifier>): (r: seq<KeyEvent>)
    ensures |r| == k && forall i :: 0 <= i < k ==> r[i] == KeyEvent(Space, modifiers)
  {
    seq(k, _ => KeyEvent(Space, modifiers))
  }

  /** `k` presses of Space from a reachable state capture once per circle
      still ahead of the active one, up to `k`, and every further press
      emits `completed`. */
  lemma {:induction false} SpacePresses(s: WidgetState, k: nat, modifiers: set<Modifier>)
    requires Reachable(s)
    decreases k
    ensures var ahead := if s.count > 0 then s.count - 1 - s.index else 0;
      var c := Min(k, ahead);
      Run(s, Spaces(k, modifiers)) == (s.(index := s.index + c), c, k - c)
  {
    if k > 0 {
      var events := Spaces(k, modifiers);
      assert events[0] == KeyEvent(Space, modifiers);
      assert events[1..] == Spaces(k - 1, modifiers);
      SpacePresses(PressStep(s, events[0]).0, k - 1, modifiers);
    }
  }

  /** A full pass over `n` circles, one Space per circle, captures only
      `n - 1` samples: the press on the last circle completes without a
      capture. With the 3 x 3 grid, 8 samples are taken for 9 locations. */
  lemma FullPassCapturesAllButLast(n: int, modifiers: set<Modifier>)
    requires n >= 1
    ensures Run(WidgetState(0, n), Spaces(n, modifiers)) == (WidgetState(n - 1, n), n - 1, 1)
  {
    SpacePresses(WidgetState(0, n), n, modifiers);
  }

  /** Space on a window whose calibration has not begun emits `completed`. */
  lemma SpaceBeforeBeginCompletes(modifiers: set<Modifier>)
    ensures PressStep(WidgetState(0, 0), KeyEvent(Space, modifiers)) == (WidgetState(0, 0), CompletedSignal)
  {
  }

  /** `CalibrationCircle`: `shown` is false once the circle has been taken
      off the window with `setParent(None)`. */
  class CalibrationCircle {
    const loc: Point
    var active: bool
    var shown: bool

    constructor (loc: Point)
      ensures this.loc == loc && !active && shown
    {
      this.loc := loc;
      active := false;
      shown := true;
    }

    method ToggleActive()
      modifies this
      ensures active == !old(active) && shown == old(shown)
    {
      active := !active;
    }

    method Detach()
      modifies this
      ensures !shown && active == old(active)
    {
      shown := false;
    }
  }

  class CalibrationWidget {
    var activeCircleIndex: int
    var circles: seq<CalibrationCircle>

    function Abstract(): WidgetState
      reads this
    {
      WidgetState(activeCircleIndex, |circles|)
    }

    /** Circles are distinct objects; those up to the active one have been
        activated, and those before it have been taken off the window. */
    ghost predicate Valid()
      reads this, circles
    {
      && Reachable(Abstract())
      && (forall i, j :: 0 <= i < j < |circles| ==> circles[i] != circles[j])
      && (forall j :: 0 <= j < |circles| ==> (circles[j].active <==> j <= activeCircleIndex))
      && (forall j :: 0 <= j < |circles| ==> (circles[j].shown <==> activeCircleIndex <= j))
    }

    constructor ()
      ensures Valid() && Abstract() == WidgetState(0, 0)
    {
      activeCircleIndex := 0;
      circles := [];
    }

    /** `getCircleLocations`: the nine top-left corners, row by row, each row
        from left to right. */
    method GetCircleLocations(screen: Screen) returns (locs: seq<Point>)
      ensures |locs| == 9
      ensures forall r, c :: 0 <= r < 3 && 0 <= c < 3 ==> locs[3 * r + c] == (Columns(screen)[c], Rows(screen)[r])
    {
      var trueLeft := 0;
      var trueMidX := screen.centerX - CircleSize / 2;
      var trueMidY := screen.centerY - CircleSize / 2;
      var trueRight := screen.right - CircleSize;
      var trueTop := 0;
      var trueBottom := screen.bottom - CircleSize - BottomMargin;
      locs := [];
      locs := locs + [(trueLeft, trueTop)];
      locs := locs + [(trueMidX, trueTop)];
      locs := locs + [(trueRight, trueTop)];
      locs := locs + [(trueLeft, trueMidY)];
      locs := locs + [(trueMidX, trueMidY)];
      locs := locs + [(trueRight, trueMidY)];
      locs := locs + [(trueLeft, trueBottom)];
      locs := locs + [(trueMidX, trueBottom)];
      locs := locs + [(trueRight, trueBottom)];
    }

    /** `drawCircles`: one new, inactive, shown circle per location, appended
        in the order of the locations. */
    method DrawCircles(screen: Screen)
      modifies this
      ensures |circles| == |old(circles)| + 9 && circles[..|old(circles)|] == old(circles)
      ensures forall r, c :: 0 <= r < 3 && 0 <= c < 3 ==> circles[|old(circles)| + 3 * r + c].loc == (Columns(screen)[c], Rows(screen)[r])
      ensures forall k :: |old(circles)| <= k < |circles| ==> fresh(circles[k]) && !circles[k].active && circles[k].shown
      ensures (forall i, j :: 0 <= i < j < |old(circles)| ==> old(circles)[i] != old(circles)[j]) ==>
        forall i, j :: 0 <= i < j < |circles| ==> circles[i] != circles[j]
      ensures activeCircleIndex == old(activeCircleIndex)
    {
      var locs := GetCircleLocations(screen);
      ghost var before := circles;
      var n := 0;
      while n < |locs|
        invariant 0 <= n <= |locs|
        invariant |circles| == |before| + n && circles[..|before|] == before
        invariant forall k :: 0 <= k < n ==> circles[|before| + k].loc == locs[k]
        invariant forall k :: |before| <= k < |circles| ==> fresh(circles[k]) && !circles[k].active && circles[k].shown
        invariant (forall i, j :: 0 <= i < j < |before| ==> before[i] != before[j]) ==>
          forall i, j :: 0 <= i < j < |circles| ==> circles[i] != circles[j]
        invariant activeCircleIndex == old(activeCircleIndex)
      {
        var circle := new CalibrationCircle(locs[n]);
        circles := circles + [circle];
        n := n + 1;
      }
    }

    /** `beginCalibration`: draws the grid and toggles the circle at the
        active index. The nine new circles are fresh, distinct, shown, at the
        grid locations row by row, and inactive except the toggled one; no
        other circle changes. From a window with no circles this leaves the
        first circle active and the window valid. */
    method BeginCalibration(screen: Screen)
      requires Valid()
      modifies this, circles
      ensures |circles| == |old(circles)| + 9 && circles[..|old(circles)|] == old(circles)
      ensures activeCircleIndex == old(activeCircleIndex)
      ensures forall r, c :: 0 <= r < 3 && 0 <= c < 3 ==> circles[|old(circles)| + 3 * r + c].loc == (Columns(screen)[c], Rows(screen)[r])
      ensures forall k :: |old(circles)| <= k < |circles| ==>
        fresh(circles[k]) && circles[k].shown && (k != activeCircleIndex ==> !circles[k].active)
      ensures forall i, j :: 0 <= i < j < |circles| ==> circles[i] != circles[j]
      ensures forall k :: 0 <= k < |old(circles)| && k != activeCircleIndex ==>
        circles[k].active == old(circles[k].active) && circles[k].shown == old(circles[k].shown)
      ensures circles[activeCircleIndex].active == !old(activeCircleIndex < |circles| && circles[activeCircleIndex].active)
      ensures old(circles) == [] ==> Valid() && Abstract() == WidgetState(0, 9)
    {
      DrawCircles(screen);
      circles[activeCircleIndex].ToggleActive();
    }

    /** `keyPressEvent`: returns the signal emitted. The widget moves as
        `PressStep` says and no circle is added or removed. */
    method KeyPressEvent(e: KeyEvent) returns (signal: Signal)
      requires Valid()
      modifies this, circles
      ensures Valid()
      ensures (Abstract(), signal) == PressStep(old(Abstract()), e)
      ensures circles == old(circles)
    {
      if e.key == Space {
        if activeCircleIndex >= |circles| - 1 {
          return CompletedSignal;
        }
        signal := CaptureSignal;
        circles[activeCircleIndex].Detach();
        activeCircleIndex := activeCircleIndex + 1;
        circles[activeCircleIndex].ToggleActive();
        return;
      }
      signal := Forwarded;
    }
  }

  // ---------------------------------------------------------------------------
  // Main window

  /** `MainWidget`: the eye positions captured during the current
      calibration, and the calibration window while one is open. The
      positions a capture stores are what eye detection finds in the current
      camera frame, given here as a parameter. */
  class MainWidget {
    const previewSize: (int, int)
    const margin: int
    var currentCalibrationData: seq<seq<Point>>
    var calibrationWindow: CalibrationWidget?

    constructor ()
      ensures previewSize == (640, 480) && margin == 40
      ensures currentCalibrationData == [] && calibrationWindow == null
    {
      previewSize := (640, 480);
      margin := 40;
      currentCalibrationData := [];
      calibrationWindow := null;
    }

    /** `openCalibrationWindow`: a new calibration window, not yet begun. */
    method OpenCalibrationWindow()
      modifies this
      ensures fresh(calibrationWindow) && calibrationWindow.Valid() && calibrationWindow.Abstract() == WidgetState(0, 0)
      ensures currentCalibrationData == old(currentCalibrationData)
    {
      calibrationWindow := new CalibrationWidget();
    }

    /** `captureEyeLocationForCalibration`: appends one entry, the eyes found
        in the frame. */
    method CaptureEyeLocationForCalibration(eyes: seq<Point>)
      modifies this
      ensures currentCalibrationData == old(currentCalibrationData) + [eyes]
      ensures calibrationWindow == old(calibrationWindow)
    {
      currentCalibrationData := currentCalibrationData + [eyes];
    }

    /** `closeCalibrationWindow`: with no window open, `close` is looked up on
        `None` and raises `AttributeError`; either way no window is open
        afterwards and the captured data is untouched. */
    method CloseCalibrationWindow() returns (outcome: Outcome)
      modifies this
      ensures outcome == (if old(calibrationWindow) == null then Fail(AttributeError) else Pass)
      ensures calibrationWindow == null
      ensures currentCalibrationData == old(currentCalibrationData)
    {
      if calibrationWindow == null {
        return Fail(AttributeError);
      }
      calibrationWindow := null;
      outcome := Pass;
    }

    /** `finalizeCalibration`: returns the data written to the calibration
        file, then clears the list and closes the window. The list is
        cleared before the close, so even when the close raises the data is
        gone from the widget. */
    method FinalizeCalibration() returns (saved: seq<seq<Point>>, outcome: Outcome)
      modifies this
      ensures saved == old(currentCalibrationData)
      ensures currentCalibrationData == []
      ensures outcome == (if old(calibrationWindow) == null then Fail(AttributeError) else Pass)
      ensures calibrationWindow == null
    {
      saved := currentCalibrationData;
      currentCalibrationData := [];
      outcome := CloseCalibrationWindow();
    }

    /** `cancelCalibration`: closes the window and keeps the data captured so
        far, which the next calibration's captures are appended to. */
    method CancelCalibration() returns (outcome: Outcome)
      modifies this
      ensures outcome == (if old(calibrationWindow) == null then Fail(AttributeError) else Pass)
      ensures calibrationWindow == null
      ensures currentCalibrationData == old(currentCalibrationData)
    {
      outcome := CloseCalibrationWindow();
    }
  }
}
