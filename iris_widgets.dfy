/** The non-Qt logic of `IrisSoftware/widgets.py`: key predicates, the
    preview-size arithmetic, the calibration window's progress through its
    5 x 5 grid of circles, and the single-selection button group. Layout,
    styling and signal delivery are Qt's; a handler here returns the signal
    it emits. */
module IrisWidgets {
  import opened Common
  import opened QtKeys

  // ---------------------------------------------------------------------------
  // Key predicates

  /** `checkCloseKeyCombo`: the key combination is exactly Ctrl+W. */
  predicate CheckCloseKeyCombo(e: KeyEvent) { e.key == W && e.modifiers == {Control} }

  /** `checkMenuKeyCombo`: exactly Ctrl+1. */
  predicate CheckMenuKeyCombo(e: KeyEvent) { e.key == One && e.modifiers == {Control} }

  /** `checkCancelKey`: Escape, with or without modifiers. */
  predicate CheckCancelKey(e: KeyEvent) { e.key == Escape }

  /** `checkContinueKey`: Enter (keypad) or Return. */
  predicate CheckContinueKey(e: KeyEvent) { e.key == Enter || e.key == Return }

  predicate CheckIncreaseArrowKey(e: KeyEvent) { e.key == Right || e.key == Up }

  predicate CheckDecreaseArrowKey(e: KeyEvent) { e.key == Left || e.key == Down }

  /** No event answers two of the predicates, except that none of them looks
      at modifiers but the two combinations; so the order of the `elif`
      chains in the windows never matters. */
  lemma KeyPredicatesAreExclusive(e: KeyEvent)
    ensures CheckCancelKey(e) ==> !CheckContinueKey(e) && !CheckIncreaseArrowKey(e) && !CheckDecreaseArrowKey(e) && !CheckCloseKeyCombo(e)
    ensures CheckContinueKey(e) ==> !CheckIncreaseArrowKey(e) && !CheckDecreaseArrowKey(e) && !CheckCloseKeyCombo(e)
    ensures CheckIncreaseArrowKey(e) ==> !CheckDecreaseArrowKey(e)
    ensures !(CheckCloseKeyCombo(e) && CheckMenuKeyCombo(e))
    ensures CheckCloseKeyCombo(e) <==> e == KeyEvent(W, {Control})
    ensures CheckMenuKeyCombo(e) <==> e == KeyEvent(One, {Control})
  {
  }

  // ---------------------------------------------------------------------------
  // Preview size

  const PreviewHeight: int := 480

  /** The least integer not below `x`. */
  function Ceil(x: real): (n: int)
    ensures (n - 1) as real < x <= n as real
  {
    -((-x).Floor)
  }

  /** `calculatePreviewSize`: the preview is 480 pixels high and as wide as
      the camera's aspect ratio demands, rounded up; a camera height of 0
      divides by zero. The floating-point division is modelled exactly. */
  function CalculatePreviewSize(cameraResolution: (int, int)): (r: Result<(int, int)>)
    ensures r.Err? <==> cameraResolution.1 == 0
    ensures r.Err? ==> r.error == ZeroDivisionError
    ensures r.Ok? ==> r.value.1 == PreviewHeight
    ensures r.Ok? ==>
      var scaled := cameraResolution.0 as real * (PreviewHeight as real / cameraResolution.1 as real);
      (r.value.0 - 1) as real < scaled <= r.value.0 as real
  {
    if cameraResolution.1 == 0 then Err(ZeroDivisionError)
    else
      var factor := PreviewHeight as real / cameraResolution.1 as real;
      Ok((Ceil(cameraResolution.0 as real * factor), PreviewHeight))
  }

  /** For a camera of positive height the width is the least one whose
      preview is not narrower than the camera picture: `w * camH >= camW * 480`
      and `(w - 1) * camH < camW * 480`. */
  lemma PreviewWidthIsLeastCovering(camW: int, camH: int)
    requires camH > 0
    ensures var w := CalculatePreviewSize((camW, camH)).value.0;
      w * camH >= camW * PreviewHeight && (w - 1) * camH < camW * PreviewHeight
  {
    var w := CalculatePreviewSize((camW, camH)).value.0;
    var c := camH as real;
    var scaled := camW as real * (PreviewHeight as real / c);
    assert scaled * c == (camW * PreviewHeight) as real by {
      assert (PreviewHeight as real / c) * c == PreviewHeight as real;
    }
    ScaleByPositive(scaled, w as real, c);
    ScaleByPositive((w - 1) as real, scaled, c);
    assert (w * camH) as real == w as real * c;
    assert ((w - 1) * camH) as real == (w - 1) as real * c;
  }

  /** Multiplying by a positive number keeps order, strict and not. */
  lemma ScaleByPositive(a: real, b: real, c: real)
    requires c > 0.0
    ensures a <= b ==> a * c <= b * c
    ensures a < b ==> a * c < b * c
  {
  }

  /** A 1280 x 720 camera gets an 854 x 480 preview; a 640 x 480 one keeps its size. */
  lemma PreviewSizeExamples()
    ensures CalculatePreviewSize((1280, 720)) == Ok((854, 480))
    ensures CalculatePreviewSize((640, 480)) == Ok((640, 480))
  {
    PreviewWidthIsLeastCovering(1280, 720);
    PreviewWidthIsLeastCovering(640, 480);
  }

  // ---------------------------------------------------------------------------
  // Calibration window

  const GridSize: int := 5

  datatype Signal = CompleteSignal | CancelSignal | CaptureSignal | Forwarded

  /** The calibration window's progress: `activeCircleIndex`, how many
      circles have been drawn and `preventSpacebarPress`. */
  datatype WindowState = WindowState(index: int, count: int, prevent: bool)

  /** What `keyPressEvent` does: Enter or Return before any circle is drawn
      begins calibration; then Space, unless held off, captures and holds
      further presses off; Escape or Ctrl+W cancels; anything else goes to Qt.
      The `activeCircleIndex is not None` test is always true (the index
      starts at 0), so Space captures even before calibration has begun. */
  function PressStep(s: WindowState, e: KeyEvent): (r: (WindowState, Signal))
    ensures r.0.index == s.index
    ensures r.0.count == (if s.count == 0 && (e.key == Enter || e.key == Return) then GridSize * GridSize else s.count)
    ensures r.1 == CaptureSignal <==> e.key == Space && !s.prevent
    ensures r.0.prevent == (s.prevent || e.key == Space)
    ensures r.1 == CancelSignal <==> (e.key == Escape || e == KeyEvent(W, {Control})) && !(e.key == Space && !s.prevent)
    ensures r.1 != CompleteSignal
  {
    var s1 := if s.count == 0 && CheckContinueKey(e) then s.(count := s.count + GridSize * GridSize) else s;
    if !s1.prevent && e.key == Space then (s1.(prevent := true), CaptureSignal)
    else if CheckCancelKey(e) || CheckCloseKeyCombo(e) then (s1, CancelSignal)
    else (s1, Forwarded)
  }

  datatype ProgressResult = Raised(error: Error) | Completed | Advanced

  /** What `__progressCalibration` does: reading `circles[activeCircleIndex]`
      raises `IndexError` outside Python's index range; on the last circle
      calibration completes; otherwise the next circle becomes active and
      Space is accepted again. */
  function ProgressStep(s: WindowState): (r: (WindowState, ProgressResult))
    ensures r.1 == Raised(IndexError) <==> !(-s.count <= s.index < s.count)
    ensures r.1.Raised? ==> r.1 == Raised(IndexError)
    ensures r.1 == Completed <==> -s.count <= s.index && s.count - 1 <= s.index < s.count
    ensures r.1 == Advanced ==> r.0 == s.(index := s.index + 1, prevent := false) && r.0.index < s.count
    ensures r.1 != Advanced ==> r.0 == s
  {
    if s.index >= s.count || s.index < -s.count then (s, Raised(IndexError))
    else if s.index >= s.count - 1 then (s, Completed)
    else (s.(index := s.index + 1, prevent := false), Advanced)
  }

  /** The states a window can reach: before calibration no circle and index
      0; after it 25 circles and an index among them. */
  predicate Reachable(s: WindowState) {
    && 0 <= s.index
    && (s.count == 0 || s.count == GridSize * GridSize)
    && (s.count == 0 ==> s.index == 0)
    && (s.count > 0 ==> s.index < s.count)
  }

  /** Both handlers keep the index inside the grid. Progress never moves
      past the last circle, and fails, changing nothing, before the grid exists. */
  lemma StepsKeepReachable(s: WindowState, e: KeyEvent)
    requires Reachable(s)
    ensures Reachable(PressStep(s, e).0) && Reachable(ProgressStep(s).0)
    ensures s.count == 0 ==> ProgressStep(s) == (s, Raised(IndexError))
    ensures s.count > 0 && s.index == s.count - 1 ==> ProgressStep(s) == (s, Completed)
  {
  }

  datatype WindowEvent = Press(event: KeyEvent) | FinishedCapture

  /** One event's effect: the new state, and whether it emitted a capture
      and whether it advanced to the next circle. */
  function Step(s: WindowState, event: WindowEvent): (WindowState, nat, nat) {
    match event
    case Press(e) => (PressStep(s, e).0, if PressStep(s, e).1 == CaptureSignal then 1 else 0, 0)
    case FinishedCapture => (ProgressStep(s).0, 0, if ProgressStep(s).1 == Advanced then 1 else 0)
  }

  /** The final state, the number of captures emitted and the number of
      advances made when the events arrive in order. */
  function Run(s: WindowState, events: seq<WindowEvent>): (WindowState, nat, nat)
    decreases |events|
  {
    if events == [] then (s, 0, 0)
    else
      var (s1, captured, advanced) := Step(s, events[0]);
      var (f, c, a) := Run(s1, events[1..]);
      (f, c + captured, a + advanced)
  }

  function Held(s: WindowState): nat { if s.prevent then 1 else 0 }

  /** One event keeps the state reachable, moves the index by its advance,
      and captures only when the hold-off flag was clear, setting it. */
  lemma StepBoundsCaptures(s: WindowState, event: WindowEvent)
    requires Reachable(s)
    ensures var (s1, c, a) := Step(s, event);
      && Reachable(s1)
      && s1.index == s.index + a
      && c + Held(s) <= a + Held(s1)
  {
  }

  /** Over any sequence of events the index moves by one per advance, and
      after the capture at a circle no other is taken until progress moves
      on: captures never outrun advances plus the hold-off flag. */
  lemma {:induction false} RunBoundsCaptures(s: WindowState, events: seq<WindowEvent>)
    requires Reachable(s)
    decreases |events|
    ensures var (f, c, a) := Run(s, events);
      && Reachable(f)
      && f.index == s.index + a
      && c + Held(s) <= a + Held(f)
  {
    if events != [] {
      StepBoundsCaptures(s, events[0]);
      RunBoundsCaptures(Step(s, events[0]).0, events[1..]);
    }
  }

  /** From a fresh window, at most one capture is taken per circle that has
      been made active, and so at most 25 in all. */
  lemma AtMostOneCapturePerCircle(events: seq<WindowEvent>)
    ensures var (f, c, a) := Run(WindowState(0, 0, false), events);
      c <= f.index + 1 && c <= GridSize * GridSize
  {
    RunBoundsCaptures(WindowState(0, 0, false), events);
  }

  /** Space pressed on a fresh window, before Begin, already emits a capture. */
  lemma SpaceBeforeBeginCaptures(modifiers: set<Modifier>)
    ensures PressStep(WindowState(0, 0, false), KeyEvent(Space, modifiers)) == (WindowState(0, 0, true), CaptureSignal)
  {
  }

  /** `CalibrationCircle` (IrisSoftware version). */
  class CalibrationCircle {
    var active: bool

    constructor ()
      ensures !active
    {
      active := false;
    }

    method ToggleActive()
      modifies this
      ensures active == !old(active)
    {
      active := !active;
    }
  }

  class CalibrationWindow {
    var activeCircleIndex: int
    var circles: seq<CalibrationCircle>
    var preventSpacebarPress: bool

    function Abstract(): WindowState
      reads this
    {
      WindowState(activeCircleIndex, |circles|, preventSpacebarPress)
    }

    /** Circles are distinct objects, and the active ones are those up to the
        active index (a passed circle is hidden but keeps its `active` flag). */
    ghost predicate Valid()
      reads this, circles
    {
      && Reachable(Abstract())
      && (forall i, j :: 0 <= i < j < |circles| ==> circles[i] != circles[j])
      && (forall j :: 0 <= j < |circles| ==> (circles[j].active <==> j <= activeCircleIndex))
    }

    constructor ()
      ensures Valid() && Abstract() == WindowState(0, 0, false)
    {
      activeCircleIndex := 0;
      circles := [];
      preventSpacebarPress := false;
    }

    /** `__drawCircles`: appends a grid of new, inactive circles, row by row. */
    method DrawCircles()
      modifies this
      ensures |circles| == |old(circles)| + GridSize * GridSize
      ensures circles[..|old(circles)|] == old(circles)
      ensures forall k :: |old(circles)| <= k < |circles| ==> fresh(circles[k]) && !circles[k].active
      ensures (forall i, j :: 0 <= i < j < |old(circles)| ==> old(circles)[i] != old(circles)[j]) ==>
        forall i, j :: 0 <= i < j < |circles| ==> circles[i] != circles[j]
      ensures activeCircleIndex == old(activeCircleIndex) && preventSpacebarPress == old(preventSpacebarPress)
    {
      ghost var before := circles;
      var i := 0;
      while i < GridSize
        invariant 0 <= i <= GridSize
        invariant |circles| == |before| + GridSize * i
        invariant circles[..|before|] == before
        invariant forall k :: |before| <= k < |circles| ==> fresh(circles[k]) && !circles[k].active
        invariant (forall a, b :: 0 <= a < b < |before| ==> before[a] != before[b]) ==>
          forall a, b :: 0 <= a < b < |circles| ==> circles[a] != circles[b]
        invariant activeCircleIndex == old(activeCircleIndex) && preventSpacebarPress == old(preventSpacebarPress)
      {
        var j := 0;
        while j < GridSize
          invariant 0 <= j <= GridSize
          invariant |circles| == |before| + GridSize * i + j
          invariant circles[..|before|] == before
          invariant forall k :: |before| <= k < |circles| ==> fresh(circles[k]) && !circles[k].active
          invariant (forall a, b :: 0 <= a < b < |before| ==> before[a] != before[b]) ==>
            forall a, b :: 0 <= a < b < |circles| ==> circles[a] != circles[b]
          invariant activeCircleIndex == old(activeCircleIndex) && preventSpacebarPress == old(preventSpacebarPress)
        {
          var circle := new CalibrationCircle();
          circles := circles + [circle];
          j := j + 1;
        }
        i := i + 1;
      }
    }

    /** `__beginCalibration`: draws the grid and toggles the circle at the
        active index. From a fresh window this leaves the first circle
        active and the window valid. */
    method BeginCalibration()
      requires Valid()
      modifies this, circles
      ensures |circles| == |old(circles)| + GridSize * GridSize && circles[..|old(circles)|] == old(circles)
      ensures activeCircleIndex == old(activeCircleIndex) && preventSpacebarPress == old(preventSpacebarPress)
      ensures circles[activeCircleIndex].active == !old(activeCircleIndex < |circles| && circles[activeCircleIndex].active)
      ensures old(circles) == [] ==> Valid() && Abstract() == old(Abstract()).(count := GridSize * GridSize)
    {
      ghost var before := circles;
      DrawCircles();
      circles[activeCircleIndex].ToggleActive();
    }

    /** `__progressCalibration`, run when the capture has been processed. */
    method ProgressCalibration() returns (r: ProgressResult)
      requires Valid()
      modifies this, circles
      ensures Valid()
      ensures (Abstract(), r) == ProgressStep(old(Abstract()))
      ensures circles == old(circles)
    {
      if activeCircleIndex >= |circles| {
        return Raised(IndexError);
      }
      if activeCircleIndex >= |circles| - 1 {
        return Completed;
      }
      activeCircleIndex := activeCircleIndex + 1;
      circles[activeCircleIndex].ToggleActive();
      preventSpacebarPress := false;
      r := Advanced;
    }

    /** `keyPressEvent`: returns the signal emitted, or `Forwarded` when the
        event is passed on to Qt. */
    method KeyPressEvent(e: KeyEvent) returns (signal: Signal)
      requires Valid()
      modifies this, circles
      ensures Valid()
      ensures (Abstract(), signal) == PressStep(old(Abstract()), e)
      ensures old(|circles|) > 0 ==> circles == old(circles)
    {
      if |circles| == 0 && CheckContinueKey(e) {
        BeginCalibration();
      }
      if !preventSpacebarPress && e.key == Space {
        preventSpacebarPress := true;
        signal := CaptureSignal;
      } else if CheckCancelKey(e) || CheckCloseKeyCombo(e) {
        signal := CancelSignal;
      } else {
        signal := Forwarded;
      }
    }
  }

  // ---------------------------------------------------------------------------
  // Selection group

  const Primary: string := "primary"
  const Base: string := "base"

  class Button {
    const text: string
    var variant: string

    constructor (text: string, variant: string)
      ensures this.text == text && this.variant == variant
    {
      this.text := text;
      this.variant := variant;
    }

    method ChangeVariant(variant: string)
      modifies this
      ensures this.variant == variant
    {
      this.variant := variant;
    }
  }

  /** `mapping[l]` is the index of the last option labelled `l`, as the
      set-up loop's repeated assignments leave it; labels not offered are absent. */
  ghost predicate IsLastIndexMapping(mapping: map<string, int>, labels: seq<string>) {
    && (forall l :: l in mapping <==> l in labels)
    && (forall l :: l in mapping ==> 0 <= mapping[l] < |labels| && labels[mapping[l]] == l)
    && (forall l, j :: l in mapping && mapping[l] < j < |labels| ==> labels[j] != l)
  }

  /** The set-up loop's step: assigning `mapping[labels[i]] := i` extends the
      last-index mapping of the first `i` labels to the first `i + 1`. */
  lemma LastIndexMappingGrows(mapping: map<string, int>, labels: seq<string>, i: nat)
    requires i < |labels| && IsLastIndexMapping(mapping, labels[..i])
    ensures IsLastIndexMapping(mapping[labels[i] := i], labels[..i + 1])
  {
    var m := mapping[labels[i] := i];
    var before, after := labels[..i], labels[..i + 1];
    assert after == before + [labels[i]];
    forall l ensures l in m <==> l in after {
      assert l in after <==> l in before || l == labels[i];
    }
    forall l | l in m ensures 0 <= m[l] < |after| && after[m[l]] == l {
      if l != labels[i] { assert after[m[l]] == before[m[l]]; }
    }
    forall l, j | l in m && m[l] < j < |after| ensures after[j] != l {
      if l != labels[i] && j < i { assert after[j] == before[j]; }
    }
  }

  class SelectionGroup {
    const initialSelection: int
    const labels: seq<string>
    var buttons: seq<Button>
    var mapping: map<string, int>

    /** Reads only this object: a button's text never changes. */
    ghost predicate Valid()
      reads this
    {
      && |buttons| == |labels|
      && (forall i, j :: 0 <= i < j < |buttons| ==> buttons[i] != buttons[j])
      && (forall i :: 0 <= i < |buttons| ==> buttons[i].text == labels[i])
      && IsLastIndexMapping(mapping, labels)
    }

    /** `__init__` with `__setupUI`: one button per option, the one at
        `initialSelection` primary, and the label-to-index mapping. */
    constructor (labels: seq<string>, initialSelection: int)
      ensures Valid() && this.labels == labels && this.initialSelection == initialSelection
      ensures forall i :: 0 <= i < |buttons| ==> fresh(buttons[i]) && buttons[i].variant == (if i == initialSelection then Primary else Base)
    {
      this.initialSelection := initialSelection;
      this.labels := labels;
      buttons := [];
      mapping := map[];
      new;
      var i := 0;
      while i < |labels|
        invariant 0 <= i <= |labels|
        invariant |buttons| == i
        invariant forall a :: 0 <= a < i ==> fresh(buttons[a]) && buttons[a].text == labels[a]
        invariant forall a :: 0 <= a < i ==> buttons[a].variant == (if a == initialSelection then Primary else Base)
        invariant forall a, b :: 0 <= a < b < i ==> buttons[a] != buttons[b]
        invariant IsLastIndexMapping(mapping, labels[..i])
      {
        var button := new Button(labels[i], Base);
        if i == initialSelection {
          button.ChangeVariant(Primary);
        }
        LastIndexMappingGrows(mapping, labels, i);
        mapping := mapping[labels[i] := i];
        buttons := buttons + [button];
        i := i + 1;
      }
      assert labels[..i] == labels;
    }

    /** `updateSelection`: a label without a button raises `KeyError` and
        changes nothing; otherwise the button of that label becomes the one
        primary button and every other one is base. */
    method UpdateSelection(selected: string) returns (outcome: Outcome)
      requires Valid()
      modifies buttons
      ensures Valid()
      ensures selected !in labels <==> outcome == Fail(KeyError)
      ensures selected !in labels ==> forall i :: 0 <= i < |buttons| ==> buttons[i].variant == old(buttons[i].variant)
      ensures selected in labels ==> outcome == Pass
      ensures selected in labels ==>
        forall i :: 0 <= i < |buttons| ==> (buttons[i].variant == Primary <==> i == mapping[selected]) && (buttons[i].variant == Primary || buttons[i].variant == Base)
      ensures selected in labels ==> buttons[mapping[selected]].text == selected
    {
      if selected !in mapping {
        return Fail(KeyError);
      }
      MarkPrimary(mapping[selected]);
      outcome := Pass;
    }

    /** The loop of `updateSelection`: the button at `target` becomes
        primary and every other one base. */
    method MarkPrimary(target: int)
      requires forall a, b :: 0 <= a < b < |buttons| ==> buttons[a] != buttons[b]
      modifies buttons
      ensures forall a :: 0 <= a < |buttons| ==> buttons[a].variant == (if a == target then Primary else Base)
    {
      var i := 0;
      while i < |buttons|
        invariant 0 <= i <= |buttons|
        invariant forall a :: 0 <= a < i ==> buttons[a].variant == (if a == target then Primary else Base)
      {
        var variant := if i == target then Primary else Base;
        buttons[i].ChangeVariant(variant);
        i := i + 1;
      }
    }
  }
}
