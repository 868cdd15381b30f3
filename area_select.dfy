/** The full-screen region selector: press, drag and release over a screenshot; a large enough
    rectangle is cropped out and sent back to the main window. */
module AreaSelect {
  import opened Common

  /** A pointer position relative to the full-screen canvas, in whole display pixels. */
  datatype Pos = Pos(x: int, y: int)

  datatype Rect = Rect(x: int, y: int, width: nat, height: nat)

  function Abs(n: int): nat {
    if n < 0 then -n else n
  }

  function Min(a: int, b: int): int {
    if a <= b then a else b
  }

  function Max(a: int, b: int): int {
    if a <= b then b else a
  }

  /** The selection as the handlers compute it: origin at the smaller coordinates, extents the
      absolute differences, whichever way the pointer was dragged. */
  function Selection(start: Pos, current: Pos): (r: Rect)
    ensures r.x == Min(start.x, current.x) && r.x + r.width == Max(start.x, current.x)
    ensures r.y == Min(start.y, current.y) && r.y + r.height == Max(start.y, current.y)
  {
    Rect(Min(start.x, current.x), Min(start.y, current.y), Abs(current.x - start.x), Abs(current.y - start.y))
  }

  lemma SelectionSymmetric(a: Pos, b: Pos)
    ensures Selection(a, b) == Selection(b, a)
  {
  }

  /** Selections no larger than this in either direction are taken for accidental clicks. */
  const MinSize: nat := 10

  predicate Significant(r: Rect) {
    r.width > MinSize && r.height > MinSize
  }

  /** `captureArea`: a new canvas of the selection's size, onto which the source rectangle of the
      screenshot is copied at the origin. */
  datatype Crop = Crop(canvasWidth: nat, canvasHeight: nat, source: Rect, dest: Rect)

  function CropOf(r: Rect): Crop {
    Crop(r.width, r.height, r, Rect(0, 0, r.width, r.height))
  }

  /** The messages the selector sends over the desktop bridge. */
  datatype Message = AreaSelected(crop: Crop) | CloseAreaSelect

  /** The size label drawn above the selection: `Math.round(width) × Math.round(height)`; the
      extents are whole numbers, so the rounding keeps them. */
  function DimensionLabel(r: Rect): string {
    NatToString(r.width) + " × " + NatToString(r.height)
  }

  /** The length of the run of digits a string starts with. */
  function DigitRun(s: string): nat
    decreases |s|
  {
    if s == [] || !IsDigit(s[0]) then 0 else 1 + DigitRun(s[1..])
  }

  lemma {:induction false} DigitRunOf(a: string, rest: string)
    requires forall i :: 0 <= i < |a| ==> IsDigit(a[i])
    requires rest != [] && !IsDigit(rest[0])
    ensures DigitRun(a + rest) == |a|
    decreases |a|
  {
    if a == [] {
      assert a + rest == rest;
    } else {
      assert (a + rest)[1..] == a[1..] + rest;
      DigitRunOf(a[1..], rest);
    }
  }

  /** Two digit strings followed by the separator split the same way. */
  lemma SplitAtSeparator(a: string, b: string, c: string, d: string)
    requires forall i :: 0 <= i < |a| ==> IsDigit(a[i])
    requires forall i :: 0 <= i < |c| ==> IsDigit(c[i])
    requires a + " × " + b == c + " × " + d
    ensures a == c && b == d
  {
    var l := a + " × " + b;
    assert l == a + (" × " + b) && l == c + (" × " + d);
    DigitRunOf(a, " × " + b);
    DigitRunOf(c, " × " + d);
    assert a == l[..|a|] == c;
    assert b == l[|a| + 3..] == d;
  }

  /** The label determines the selection's size. */
  lemma DimensionLabelInjective(r1: Rect, r2: Rect)
    requires DimensionLabel(r1) == DimensionLabel(r2)
    ensures r1.width == r2.width && r1.height == r2.height
  {
    SplitAtSeparator(NatToString(r1.width), NatToString(r1.height), NatToString(r2.width), NatToString(r2.height));
    NatToStringInjective(r1.width, r2.width);
    NatToStringInjective(r1.height, r2.height);
  }

  /** What one `drawCanvas` call paints on the full-screen canvas. */
  datatype PreviewCmd =
    | DrawScreenshot(width: nat, height: nat)
    | DimOverlay(width: nat, height: nat)
    | ClearArea(area: Rect)
    | CopyFromScreenshot(area: Rect)
    | StrokeBorder(area: Rect)
    | LabelBackground(x: int, y: int, width: nat, height: nat)
    | LabelText(text: string, x: int, y: int)

  /** The screenshot stretched over the canvas, dimmed everywhere, and while a drag is on the
      selection shown undimmed with a border and its size label above it. */
  function PreviewFrame(isSelecting: bool, start: Pos, current: Pos, viewWidth: nat, viewHeight: nat): seq<PreviewCmd> {
    var base := [DrawScreenshot(viewWidth, viewHeight), DimOverlay(viewWidth, viewHeight)];
    if !isSelecting then base
    else
      var r := Selection(start, current);
      base + [ClearArea(r), CopyFromScreenshot(r), StrokeBorder(r),
              LabelBackground(r.x, r.y - 25, 100, 20), LabelText(DimensionLabel(r), r.x + 5, r.y - 10)]
  }

  /** The rectangle shown undimmed during a drag is exactly the one a release would crop. */
  lemma PreviewShowsCrop(start: Pos, current: Pos, viewWidth: nat, viewHeight: nat)
    ensures var f := PreviewFrame(true, start, current, viewWidth, viewHeight);
      |f| == 7 && f[2] == ClearArea(CropOf(Selection(start, current)).source) &&
      f[3] == CopyFromScreenshot(CropOf(Selection(start, current)).source)
    ensures PreviewFrame(false, start, current, viewWidth, viewHeight)
            == [DrawScreenshot(viewWidth, viewHeight), DimOverlay(viewWidth, viewHeight)]
  {
  }

  /** The selector's state; `screenshot` is the data URL of the full-screen capture once received. */
  datatype SelectorState = SelectorState(screenshot: Option<string>, isSelecting: bool, start: Pos, current: Pos)

  const Initial := SelectorState(None, false, Pos(0, 0), Pos(0, 0))

  function PointerDown(s: SelectorState, p: Pos): SelectorState {
    if s.screenshot.None? then s else s.(isSelecting := true, start := p, current := p)
  }

  function PointerMove(s: SelectorState, p: Pos): SelectorState {
    if !s.isSelecting then s else s.(current := p)
  }

  /** `handleMouseUp`: the new state and the messages sent. */
  function PointerUp(s: SelectorState): (SelectorState, seq<Message>) {
    if !s.isSelecting then (s, [])
    else
      var r := Selection(s.start, s.current);
      (s.(isSelecting := false), if Significant(r) then [AreaSelected(CropOf(r)), CloseAreaSelect] else [])
  }

  lemma PointerDownNeedsScreenshot(s: SelectorState, p: Pos)
    ensures s.screenshot.None? ==> PointerDown(s, p) == s
    ensures s.screenshot.Some? ==> PointerDown(s, p) == s.(isSelecting := true, start := p, current := p)
  {
  }

  lemma PointerMoveOnlyCurrent(s: SelectorState, p: Pos)
    ensures var r := PointerMove(s, p);
      r.screenshot == s.screenshot && r.isSelecting == s.isSelecting && r.start == s.start &&
      (s.isSelecting ==> r.current == p) && (!s.isSelecting ==> r == s)
  {
  }

  /** A release always ends the drag. It sends something iff a drag was on and the selection is
      more than 10 pixels in both directions, and then first the crop of exactly the selection
      and then the request to close. */
  lemma PointerUpEmitsOnlySignificant(s: SelectorState)
    ensures var (r, msgs) := PointerUp(s);
      !r.isSelecting && r.start == s.start && r.current == s.current && r.screenshot == s.screenshot &&
      (msgs != [] <==> s.isSelecting && Significant(Selection(s.start, s.current)))
    ensures var (r, msgs) := PointerUp(s);
      msgs != [] ==>
        var sel := Selection(s.start, s.current);
        msgs == [AreaSelected(Crop(sel.width, sel.height, sel, Rect(0, 0, sel.width, sel.height))), CloseAreaSelect]
  {
  }

  /** A 5 x 5 drag is dropped; an 11 x 11 drag yields an 11 x 11 crop; a 10-pixel side is dropped
      too, since the threshold is strict. */
  lemma ThresholdExamples()
    ensures var s := SelectorState(Some("shot"), true, Pos(100, 100), Pos(105, 105)); PointerUp(s).1 == []
    ensures var s := SelectorState(Some("shot"), true, Pos(100, 100), Pos(90, 120)); PointerUp(s).1 == []
    ensures var s := SelectorState(Some("shot"), true, Pos(100, 100), Pos(89, 111));
      PointerUp(s).1 == [AreaSelected(Crop(11, 11, Rect(89, 100, 11, 11), Rect(0, 0, 11, 11))), CloseAreaSelect]
  {
  }

  /** The area-select window. `frame` is what its canvas shows; the window size is fixed for its
      lifetime. */
  class Selector {
    var screenshot: Option<string>
    var isSelecting: bool
    var start: Pos
    var current: Pos
    var frame: seq<PreviewCmd>
    var sent: seq<Message>
    const viewWidth: nat
    const viewHeight: nat

    function State(): SelectorState
      reads this
    {
      SelectorState(screenshot, isSelecting, start, current)
    }

    /** Once the screenshot is in, the canvas shows the preview of the current state. */
    ghost predicate Valid()
      reads this
    {
      (isSelecting ==> screenshot.Some?) &&
      frame == if screenshot.Some? then PreviewFrame(isSelecting, start, current, viewWidth, viewHeight) else []
    }

    constructor (width: nat, height: nat)
      ensures Valid() && State() == Initial && sent == []
      ensures viewWidth == width && viewHeight == height
    {
      screenshot, isSelecting, start, current := None, false, Pos(0, 0), Pos(0, 0);
      frame, sent := [], [];
      viewWidth, viewHeight := width, height;
    }

    /** `drawCanvas`, run by the effect after each state change. */
    method Draw()
      requires screenshot.Some?
      modifies this`frame
      ensures frame == PreviewFrame(isSelecting, start, current, viewWidth, viewHeight)
    {
      var base := [DrawScreenshot(viewWidth, viewHeight), DimOverlay(viewWidth, viewHeight)];
      frame := base;
      if isSelecting {
        var r := Selection(start, current);
        frame := frame + [ClearArea(r), CopyFromScreenshot(r), StrokeBorder(r)];
        frame := frame + [LabelBackground(r.x, r.y - 25, 100, 20)];
        frame := frame + [LabelText(DimensionLabel(r), r.x + 5, r.y - 10)];
      }
    }

    /** The full-screen capture arrives and, once decoded, is drawn. */
    method ReceiveCapture(dataUrl: string)
      requires Valid()
      modifies this
      ensures Valid() && State() == old(State()).(screenshot := Some(dataUrl)) && sent == old(sent)
    {
      screenshot := Some(dataUrl);
      Draw();
    }

    method HandleMouseDown(clientX: int, clientY: int, rectLeft: int, rectTop: int)
      requires Valid()
      modifies this
      ensures Valid() && State() == PointerDown(old(State()), Pos(clientX - rectLeft, clientY - rectTop))
      ensures sent == old(sent)
    {
      if screenshot.None? {
        return;
      }
      isSelecting := true;
      start := Pos(clientX - rectLeft, clientY - rectTop);
      current := Pos(clientX - rectLeft, clientY - rectTop);
      Draw();
    }

    method HandleMouseMove(clientX: int, clientY: int, rectLeft: int, rectTop: int)
      requires Valid()
      modifies this
      ensures Valid() && State() == PointerMove(old(State()), Pos(clientX - rectLeft, clientY - rectTop))
      ensures sent == old(sent)
    {
      if !isSelecting {
        return;
      }
      current := Pos(clientX - rectLeft, clientY - rectTop);
      Draw();
    }

    method HandleMouseUp()
      requires Valid()
      modifies this
      ensures Valid()
      ensures State() == PointerUp(old(State())).0 && sent == old(sent) + PointerUp(old(State())).1
    {
      if !isSelecting {
        return;
      }
      isSelecting := false;
      var r := Selection(start, current);
      if Significant(r) {
        sent := sent + [AreaSelected(CropOf(r))];
        sent := sent + [CloseAreaSelect];
      }
      Draw();
    }

    /** The cancel button only asks for the window to close. */
    method HandleCancel()
      requires Valid()
      modifies this
      ensures Valid() && State() == old(State()) && sent == old(sent) + [CloseAreaSelect]
    {
      sent := sent + [CloseAreaSelect];
    }
  }
}
