/** The annotation editor: committed annotations, at most one draft being dragged, the pointer
    handlers that edit them, undo, and the overlay repaint that follows every change. */
module AnnotationCanvas {
  import opened Common
  import opened Constants

  /** A position in canvas (image) pixels. */
  datatype Point = Point(x: real, y: real)

  datatype ShapeKind = ArrowShape | BoxShape | HighlightShape

  /** A committed annotation: a dragged shape from `start` to `end`, or a text label. */
  datatype Annotation =
    | Shape(kind: ShapeKind, start: Point, end: Point, color: string)
    | Label(position: Point, text: string, color: string)

  /** Only dragged shapes are ever drafts; text is committed at once. */
  type Draft = a: Annotation | a.Shape? witness Shape(ArrowShape, Point(0.0, 0.0), Point(0.0, 0.0), Red)

  /** The overlay canvas's on-screen bounding box, as `getBoundingClientRect()` reports it. */
  datatype ClientRect = ClientRect(left: real, top: real, width: real, height: real)

  /** `getMousePos`: maps a pointer position in display pixels into canvas pixels, scaling each
      axis by the canvas's intrinsic size over its displayed size. */
  function MousePos(clientX: real, clientY: real, rect: ClientRect, canvasWidth: nat, canvasHeight: nat): (p: Point)
    requires rect.width > 0.0 && rect.height > 0.0
    ensures p.x * rect.width == (clientX - rect.left) * canvasWidth as real
    ensures p.y * rect.height == (clientY - rect.top) * canvasHeight as real
  {
    Point((clientX - rect.left) * (canvasWidth as real / rect.width),
          (clientY - rect.top) * (canvasHeight as real / rect.height))
  }

  /** The inverse map, from canvas pixels back to display pixels. */
  function ClientPos(p: Point, rect: ClientRect, canvasWidth: nat, canvasHeight: nat): (real, real)
    requires canvasWidth > 0 && canvasHeight > 0
  {
    (rect.left + p.x * (rect.width / canvasWidth as real), rect.top + p.y * (rect.height / canvasHeight as real))
  }

  /** Mapping to canvas pixels and back returns the pointer position. */
  lemma MousePosRoundTrip(clientX: real, clientY: real, rect: ClientRect, canvasWidth: nat, canvasHeight: nat)
    requires rect.width > 0.0 && rect.height > 0.0 && canvasWidth > 0 && canvasHeight > 0
    ensures ClientPos(MousePos(clientX, clientY, rect, canvasWidth, canvasHeight), rect, canvasWidth, canvasHeight)
            == (clientX, clientY)
  {
    var p := MousePos(clientX, clientY, rect, canvasWidth, canvasHeight);
    var w, h := canvasWidth as real, canvasHeight as real;
    assert p.x * (rect.width / w) == (clientX - rect.left) by {
      assert p.x * rect.width == (clientX - rect.left) * w;
    }
    assert p.y * (rect.height / h) == (clientY - rect.top) by {
      assert p.y * rect.height == (clientY - rect.top) * h;
    }
  }

  /** When the canvas is displayed at its own size the mapping only subtracts the offset. */
  lemma MousePosUnscaled(clientX: real, clientY: real, rect: ClientRect, canvasWidth: nat, canvasHeight: nat)
    requires rect.width > 0.0 && rect.height > 0.0
    requires rect.width == canvasWidth as real && rect.height == canvasHeight as real
    ensures MousePos(clientX, clientY, rect, canvasWidth, canvasHeight) == Point(clientX - rect.left, clientY - rect.top)
  {
    assert canvasWidth as real / rect.width == 1.0;
    assert canvasHeight as real / rect.height == 1.0;
  }

  /** A canvas twice as wide as displayed doubles the horizontal offset. */
  lemma MousePosDoubled(clientX: real, clientY: real, rect: ClientRect, canvasWidth: nat, canvasHeight: nat)
    requires rect.width > 0.0 && rect.height > 0.0
    requires canvasWidth as real == 2.0 * rect.width
    ensures MousePos(clientX, clientY, rect, canvasWidth, canvasHeight).x == 2.0 * (clientX - rect.left)
  {
    assert canvasWidth as real / rect.width == 2.0;
  }

  /** What one `drawAnnotation` call paints. The arrow is its shaft plus a fixed-size head at `to`.
      Every command paints with stroke width `StrokeWidth` and round caps and joins; a highlight
      carries its own alpha, which is reset to 1.0 before the next command. */
  datatype DrawCmd =
    | StrokeArrow(from: Point, to: Point, color: string)
    | StrokeRect(x: real, y: real, width: real, height: real, color: string)
    | FillRect(x: real, y: real, width: real, height: real, color: string, alpha: real)
    | FillText(text: string, at: Point, color: string, fontSize: nat)

  /** `drawAnnotation`: box and highlight use the signed extent `end - start`. */
  function DrawAnnotation(a: Annotation): DrawCmd {
    match a
    case Shape(ArrowShape, s, e, c) => StrokeArrow(s, e, c)
    case Shape(BoxShape, s, e, c) => StrokeRect(s.x, s.y, e.x - s.x, e.y - s.y, c)
    case Shape(HighlightShape, s, e, c) => FillRect(s.x, s.y, e.x - s.x, e.y - s.y, c, HighlightOpacity)
    case Label(p, t, c) => FillText(t, p, c, FontSize)
  }

  /** Box and highlight rectangles are anchored at the drag start and reach exactly the drag end. */
  lemma RectSpansDrag(kind: ShapeKind, start: Point, end: Point, color: string)
    requires kind != ArrowShape
    ensures var cmd := DrawAnnotation(Shape(kind, start, end, color));
      (cmd.StrokeRect? || cmd.FillRect?) && cmd.color == color &&
      cmd.x == start.x && cmd.y == start.y && cmd.x + cmd.width == end.x && cmd.y + cmd.height == end.y
  {
  }

  /** Dragging the other way draws the same rectangle from its opposite corner, with negated extents. */
  lemma RectReversedDrag(kind: ShapeKind, start: Point, end: Point, color: string)
    requires kind != ArrowShape
    ensures var fwd := DrawAnnotation(Shape(kind, start, end, color));
            var bwd := DrawAnnotation(Shape(kind, end, start, color));
      (fwd.StrokeRect? <==> bwd.StrokeRect?) && (fwd.FillRect? <==> bwd.FillRect?) &&
      bwd.x == fwd.x + fwd.width && bwd.y == fwd.y + fwd.height &&
      bwd.width == -fwd.width && bwd.height == -fwd.height
  {
  }

  /** The committed annotations painted in list order. */
  function DrawAll(s: seq<Annotation>): seq<DrawCmd>
    decreases |s|
  {
    if s == [] then [] else DrawAll(s[..|s| - 1]) + [DrawAnnotation(s[|s| - 1])]
  }

  /** The overlay after a repaint: committed annotations in order, then the draft. */
  function Painted(annotations: seq<Annotation>, draft: Option<Draft>): seq<DrawCmd> {
    DrawAll(annotations) + (if draft.Some? then [DrawAnnotation(draft.value)] else [])
  }

  lemma {:induction false} DrawAllAt(s: seq<Annotation>)
    ensures |DrawAll(s)| == |s|
    ensures forall k :: 0 <= k < |s| ==> DrawAll(s)[k] == DrawAnnotation(s[k])
    decreases |s|
  {
    if s != [] {
      DrawAllAt(s[..|s| - 1]);
    }
  }

  lemma {:induction false} DrawAllAppend(s: seq<Annotation>, t: seq<Annotation>)
    ensures DrawAll(s + t) == DrawAll(s) + DrawAll(t)
    decreases |t|
  {
    if t != [] {
      var u := s + t;
      assert u[..|u| - 1] == s + t[..|t| - 1];
      assert u[|u| - 1] == t[|t| - 1];
      DrawAllAppend(s, t[..|t| - 1]);
      calc {
        DrawAll(u);
        DrawAll(s + t[..|t| - 1]) + [DrawAnnotation(t[|t| - 1])];
        DrawAll(s) + DrawAll(t[..|t| - 1]) + [DrawAnnotation(t[|t| - 1])];
        DrawAll(s) + DrawAll(t);
      }
    } else {
      assert s + t == s;
    }
  }

  /** A repaint paints entry k of the list at position k and the draft after all of them. */
  lemma PaintedInOrder(annotations: seq<Annotation>, draft: Option<Draft>)
    ensures |Painted(annotations, draft)| == |annotations| + (if draft.Some? then 1 else 0)
    ensures forall k :: 0 <= k < |annotations| ==> Painted(annotations, draft)[k] == DrawAnnotation(annotations[k])
    ensures draft.Some? ==> Painted(annotations, draft)[|annotations|] == DrawAnnotation(draft.value)
  {
    DrawAllAt(annotations);
  }

  /** Committing the draft does not change the picture. */
  lemma CommitKeepsPicture(annotations: seq<Annotation>, d: Draft)
    ensures Painted(annotations + [d], None) == Painted(annotations, Some(d))
  {
    DrawAllAppend(annotations, [d]);
    assert DrawAll([d]) == [DrawAnnotation(d)] by {
      assert [d][..0] == [];
    }
  }

  /** The editor state the handlers read and write. */
  datatype EditorState = EditorState(
    tool: Tool,
    annotations: seq<Annotation>,
    draft: Option<Draft>,
    isDrawing: bool,
    color: string)

  const Initial := EditorState(NoTool, [], None, false, DefaultColor)

  predicate IsShapeTool(t: Tool) {
    t == Arrow || t == Box || t == Highlight
  }

  function KindOf(t: Tool): ShapeKind
    requires IsShapeTool(t)
  {
    match t
    case Arrow => ArrowShape
    case Box => BoxShape
    case Highlight => HighlightShape
  }

  /** `handleMouseDown` at canvas position `pos`; `reply` is what the text prompt returned. */
  function PointerDown(s: EditorState, pos: Point, reply: Option<string>): EditorState {
    if s.tool == NoTool then s
    else if s.tool == Text then
      s.(isDrawing := true, tool := NoTool,
         annotations := if Truthy(reply) then s.annotations + [Label(pos, reply.value, s.color)] else s.annotations)
    else
      s.(isDrawing := true, draft := Some(Shape(KindOf(s.tool), pos, pos, s.color)))
  }

  /** `handleMouseMove` at canvas position `pos`. */
  function PointerMove(s: EditorState, pos: Point): EditorState {
    if !s.isDrawing || s.draft.None? || s.tool == Text then s
    else s.(draft := Some(s.draft.value.(end := pos)))
  }

  /** `handleMouseUp`, also bound to pointer-leave. */
  function PointerUp(s: EditorState): EditorState {
    if !s.isDrawing then s
    else if s.draft.Some? && s.tool != Text then
      s.(annotations := s.annotations + [s.draft.value], draft := None, isDrawing := false)
    else s.(isDrawing := false)
  }

  /** `handleUndo`: `annotations.slice(0, -1)`. */
  function Undo(s: EditorState): EditorState {
    s.(annotations := if |s.annotations| == 0 then [] else s.annotations[..|s.annotations| - 1])
  }

  lemma PointerDownWithoutTool(s: EditorState, pos: Point, reply: Option<string>)
    requires s.tool == NoTool
    ensures PointerDown(s, pos, reply) == s
  {
  }

  lemma PointerDownStartsDraft(s: EditorState, pos: Point, reply: Option<string>)
    requires IsShapeTool(s.tool)
    ensures var r := PointerDown(s, pos, reply);
      r.draft.Some? && r.draft.value.start == pos && r.draft.value.end == pos &&
      r.draft.value.color == s.color && r.draft.value.kind == KindOf(s.tool) &&
      r.annotations == s.annotations && r.isDrawing && r.tool == s.tool && r.color == s.color
  {
  }

  /** A text click appends one label for a non-empty reply and none otherwise, and always drops
      back to no tool. */
  lemma PointerDownText(s: EditorState, pos: Point, reply: Option<string>)
    requires s.tool == Text
    ensures var r := PointerDown(s, pos, reply);
      r.tool == NoTool && r.draft == s.draft && r.color == s.color &&
      r.annotations[..|s.annotations|] == s.annotations &&
      (Truthy(reply) ==> r.annotations == s.annotations + [Label(pos, reply.value, s.color)]) &&
      (!Truthy(reply) ==> r.annotations == s.annotations)
  {
  }

  /** Moving changes at most the draft's end, and changes nothing unless a shape is being drawn. */
  lemma PointerMoveOnlyMovesEnd(s: EditorState, pos: Point)
    ensures var r := PointerMove(s, pos);
      r.annotations == s.annotations && r.tool == s.tool && r.isDrawing == s.isDrawing &&
      r.color == s.color && r.draft.Some? == s.draft.Some? &&
      (s.draft.Some? ==> r.draft.value.start == s.draft.value.start && r.draft.value.kind == s.draft.value.kind &&
                         r.draft.value.color == s.draft.value.color)
    ensures (!s.isDrawing || s.draft.None? || s.tool == Text) ==> PointerMove(s, pos) == s
    ensures (s.isDrawing && s.draft.Some? && s.tool != Text) ==> PointerMove(s, pos).draft.value.end == pos
  {
  }

  /** Releasing appends the draft at the end of the list, clears it and stops drawing; earlier
      entries never change. A release with nothing to commit (after a text click, say) only
      stops drawing. */
  lemma PointerUpCommits(s: EditorState)
    ensures var r := PointerUp(s);
      !r.isDrawing && |s.annotations| <= |r.annotations| && r.annotations[..|s.annotations|] == s.annotations &&
      r.tool == s.tool && r.color == s.color
    ensures s.isDrawing && s.draft.Some? && s.tool != Text ==>
      PointerUp(s).annotations == s.annotations + [s.draft.value] && PointerUp(s).draft.None?
    ensures !s.isDrawing ==> PointerUp(s) == s
    ensures s.isDrawing && !(s.draft.Some? && s.tool != Text) ==> PointerUp(s) == s.(isDrawing := false)
  {
  }

  /** Undo drops exactly the last committed entry and leaves the draft alone. */
  lemma UndoDropsLast(s: EditorState)
    ensures var r := Undo(s);
      r.draft == s.draft && r.isDrawing == s.isDrawing && r.tool == s.tool && r.color == s.color &&
      (s.annotations == [] ==> r.annotations == []) &&
      (s.annotations != [] ==> r.annotations + [s.annotations[|s.annotations| - 1]] == s.annotations)
  {
  }

  /** Undo right after a commit restores the committed list. */
  lemma UndoAfterCommit(s: EditorState)
    requires s.isDrawing && s.draft.Some? && s.tool != Text
    ensures Undo(PointerUp(s)).annotations == s.annotations
  {
    var a := s.annotations + [s.draft.value];
    assert a[..|a| - 1] == s.annotations;
  }

  /** Drawing an arrow from (0,0) to (100,50) commits one entry; undo removes it again. */
  lemma ArrowThenUndo()
    ensures var s1 := PointerUp(PointerMove(PointerDown(Initial.(tool := Arrow), Point(0.0, 0.0), None), Point(100.0, 50.0)));
      s1.annotations == [Shape(ArrowShape, Point(0.0, 0.0), Point(100.0, 50.0), Red)] &&
      s1.draft.None? && Undo(s1).annotations == []
  {
  }

  /** A text click with reply "hello" commits that label at once, with no draft phase. */
  lemma TextAtOnce()
    ensures var s1 := PointerDown(Initial.(tool := Text), Point(20.0, 30.0), Some("hello"));
      s1.annotations == [Label(Point(20.0, 30.0), "hello", Red)] && s1.draft.None? &&
      Painted(s1.annotations, s1.draft) == [FillText("hello", Point(20.0, 30.0), Red, FontSize)]
  {
    var s1 := PointerDown(Initial.(tool := Text), Point(20.0, 30.0), Some("hello"));
    assert s1.annotations[..0] == [];
    assert DrawAll(s1.annotations) == [DrawAnnotation(s1.annotations[0])];
  }

  /** Every colour in the editor comes from the palette. */
  ghost predicate PaletteColors(s: EditorState) {
    s.color in Palette &&
    (forall a :: a in s.annotations ==> a.color in Palette) &&
    (s.draft.Some? ==> s.draft.value.color in Palette)
  }

  lemma StepsKeepPalette(s: EditorState, pos: Point, reply: Option<string>, t: Tool, c: string)
    requires PaletteColors(s) && c in Palette
    ensures PaletteColors(PointerDown(s, pos, reply))
    ensures PaletteColors(PointerMove(s, pos))
    ensures PaletteColors(PointerUp(s))
    ensures PaletteColors(Undo(s))
    ensures PaletteColors(s.(tool := t)) && PaletteColors(s.(color := c))
  {
    var u := Undo(s);
    assert forall a :: a in u.annotations ==> a in s.annotations;
  }

  /** The editor component. `overlay` is what the overlay canvas shows: the commands painted since
      its last clear. The base canvas holding the image is not modelled. */
  class Editor {
    var tool: Tool
    var annotations: seq<Annotation>
    var draft: Option<Draft>
    var isDrawing: bool
    var color: string
    var imageLoaded: bool
    var canvasWidth: nat
    var canvasHeight: nat
    var overlay: seq<DrawCmd>

    function State(): EditorState
      reads this
    {
      EditorState(tool, annotations, draft, isDrawing, color)
    }

    /** Colours come from the palette, and once the image is there the overlay shows exactly the
        committed annotations in order followed by the draft. */
    ghost predicate Valid()
      reads this
    {
      PaletteColors(State()) &&
      overlay == (if imageLoaded then Painted(annotations, draft) else [])
    }

    /** A fresh editor: no tool, red, nothing drawn; canvases have the HTML default size 300 x 150
        until the image loads. */
    constructor ()
      ensures Valid() && State() == Initial
      ensures !imageLoaded && canvasWidth == 300 && canvasHeight == 150
    {
      tool, annotations, draft, isDrawing, color := NoTool, [], None, false, DefaultColor;
      imageLoaded, canvasWidth, canvasHeight, overlay := false, 300, 150, [];
    }

    /** The repaint effect: clear the overlay, paint the list in order, then the draft. */
    method Repaint()
      modifies this`overlay
      ensures overlay == if imageLoaded then Painted(annotations, draft) else old(overlay)
    {
      if !imageLoaded {
        return;
      }
      overlay := [];
      for i := 0 to |annotations|
        invariant overlay == DrawAll(annotations[..i])
      {
        assert annotations[..i + 1][..i] == annotations[..i];
        overlay := overlay + [DrawAnnotation(annotations[i])];
      }
      assert annotations[..|annotations|] == annotations;
      if draft.Some? {
        overlay := overlay + [DrawAnnotation(draft.value)];
      }
    }

    /** The image has loaded: both canvases take its size, then the overlay is repainted. */
    method LoadImage(width: nat, height: nat)
      requires Valid()
      modifies this
      ensures Valid() && State() == old(State())
      ensures imageLoaded && canvasWidth == width && canvasHeight == height
    {
      imageLoaded, canvasWidth, canvasHeight := true, width, height;
      Repaint();
    }

    /** A toolbar button selects a tool. */
    method SelectTool(t: Tool)
      requires Valid()
      modifies this
      ensures Valid() && State() == old(State()).(tool := t)
      ensures imageLoaded == old(imageLoaded) && canvasWidth == old(canvasWidth) && canvasHeight == old(canvasHeight)
    {
      tool := t;
    }

    /** A palette button selects a colour. */
    method SelectColor(c: string)
      requires Valid() && c in Palette
      modifies this
      ensures Valid() && State() == old(State()).(color := c)
      ensures imageLoaded == old(imageLoaded) && canvasWidth == old(canvasWidth) && canvasHeight == old(canvasHeight)
    {
      color := c;
    }

    method HandleMouseDown(clientX: real, clientY: real, rect: ClientRect, reply: Option<string>)
      requires Valid() && rect.width > 0.0 && rect.height > 0.0
      modifies this
      ensures Valid()
      ensures State() == PointerDown(old(State()),
        MousePos(clientX, clientY, rect, canvasWidth, canvasHeight), reply)
      ensures imageLoaded == old(imageLoaded) && canvasWidth == old(canvasWidth) && canvasHeight == old(canvasHeight)
    {
      ghost var s := State();
      if tool == NoTool {
        return;
      }
      var pos := MousePos(clientX, clientY, rect, canvasWidth, canvasHeight);
      StepsKeepPalette(s, pos, reply, tool, color);
      isDrawing := true;
      if tool == Text {
        if Truthy(reply) {
          annotations := annotations + [Label(pos, reply.value, color)];
        }
        tool := NoTool;
      } else {
        draft := Some(Shape(KindOf(tool), pos, pos, color));
      }
      Repaint();
    }

    method HandleMouseMove(clientX: real, clientY: real, rect: ClientRect)
      requires Valid() && rect.width > 0.0 && rect.height > 0.0
      modifies this
      ensures Valid()
      ensures State() == PointerMove(old(State()),
        MousePos(clientX, clientY, rect, canvasWidth, canvasHeight))
      ensures imageLoaded == old(imageLoaded) && canvasWidth == old(canvasWidth) && canvasHeight == old(canvasHeight)
    {
      if !isDrawing || draft.None? || tool == Text {
        return;
      }
      var pos := MousePos(clientX, clientY, rect, canvasWidth, canvasHeight);
      StepsKeepPalette(State(), pos, None, tool, color);
      draft := Some(draft.value.(end := pos));
      Repaint();
    }

    /** Pointer-up and pointer-leave. */
    method HandleMouseUp()
      requires Valid()
      modifies this
      ensures Valid() && State() == PointerUp(old(State()))
      ensures imageLoaded == old(imageLoaded) && canvasWidth == old(canvasWidth) && canvasHeight == old(canvasHeight)
    {
      if !isDrawing {
        return;
      }
      StepsKeepPalette(State(), Point(0.0, 0.0), None, tool, color);
      if draft.Some? && tool != Text {
        annotations := annotations + [draft.value];
        draft := None;
      }
      isDrawing := false;
      Repaint();
    }

    method HandleUndo()
      requires Valid()
      modifies this
      ensures Valid() && State() == Undo(old(State()))
      ensures imageLoaded == old(imageLoaded) && canvasWidth == old(canvasWidth) && canvasHeight == old(canvasHeight)
    {
      StepsKeepPalette(State(), Point(0.0, 0.0), None, tool, color);
      annotations := if |annotations| == 0 then [] else annotations[..|annotations| - 1];
      Repaint();
    }
  }
}
