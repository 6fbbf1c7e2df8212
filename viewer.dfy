/**
 * The viewport and slice state of the DICOM viewer component
 * (frontend/src/components/Viewer/DicomViewer.jsx): the four-entry
 * `viewports` array, the image state, the 3D rotation, the cine slice and
 * the measurement lists, together with the mouse, wheel, cine, rotation,
 * preset and reset handlers that update them.  Canvas drawing is not modelled.
 */
module Viewer {

  import opened Wrappers

  // ==================== state records ====================

  /** One entry of the `viewports` state array. */
  datatype Viewport = Viewport(slice: int, zoom: real, panX: real, panY: real, rotation: int)

  const DefaultViewport := Viewport(0, 1.0, 0.0, 0.0, 0)
  const ViewportCount := 4
  const DefaultViewports := [DefaultViewport, DefaultViewport, DefaultViewport, DefaultViewport]

  datatype ImageState = ImageState(zoom: real, rotation: int, flipH: bool, flipV: bool, invert: bool,
                                   brightness: real, contrast: real,
                                   windowWidth: real, windowLevel: real, panX: real, panY: real)

  const DefaultImageState := ImageState(1.0, 0, false, false, false, 0.0, 0.0, 400.0, 40.0, 0.0, 0.0)

  datatype Rotation3D = Rotation3D(x: int, y: int, z: int)
  const NoRotation := Rotation3D(0, 0, 0)

  datatype Axis = X | Y | Z

  /** A position relative to the canvas the event happened on. */
  datatype Point = Point(x: real, y: real)

  /** A length measurement, or a rectangle or ellipse ROI: the drag's start and current end. */
  datatype Shape = Shape(x1: real, y1: real, x2: real, y2: real)

  datatype VolumeROI = VolumeROI(shape: Shape, slices: int)
  const VolumeROISlices := 10

  datatype Annotation = Annotation(text: string, at: Point)

  /** Entries of the `angles` list; this component never adds one, only reset clears the list. */
  datatype Angle = Angle(first: Point, vertex: Point, last: Point)

  datatype Tool = Pan | Zoom | WindowLevel | Length | AngleTool | RectangleROI | EllipseROI
                | VolumeROITool | Annotate

  datatype ViewMode = TwoD | MPR | ThreeD | MIP | MINIP

  function Min(a: real, b: real): real { if a <= b then a else b }
  function Max(a: real, b: real): real { if a >= b then a else b }

  // ==================== layouts ====================

  datatype LayoutConfig = LayoutConfig(rows: nat, cols: nat, viewports: nat)

  /** The named grid layouts getLayoutConfig knows. */
  function LayoutTable(name: string): Option<LayoutConfig> {
    match name
    case "1x1" => Some(LayoutConfig(1, 1, 1))
    case "1x2" => Some(LayoutConfig(1, 2, 2))
    case "2x1" => Some(LayoutConfig(2, 1, 2))
    case "2x2" => Some(LayoutConfig(2, 2, 4))
    case "1x3" => Some(LayoutConfig(1, 3, 3))
    case "3x1" => Some(LayoutConfig(3, 1, 3))
    case "1x4" => Some(LayoutConfig(1, 4, 4))
    case "4x1" => Some(LayoutConfig(4, 1, 4))
    case "2x3" => Some(LayoutConfig(2, 3, 6))
    case "3x2" => Some(LayoutConfig(3, 2, 6))
    case "3x3" => Some(LayoutConfig(3, 3, 9))
    case "1x6" => Some(LayoutConfig(1, 6, 6))
    case "6x1" => Some(LayoutConfig(6, 1, 6))
    case _ => None
  }

  /** The name "RxC" of a grid with R rows and C columns (single digits). */
  function GridName(rows: nat, cols: nat): string
    requires rows < 10 && cols < 10
  {
    [('0' as int + rows) as char, 'x', ('0' as int + cols) as char]
  }

  /**
   * getLayoutConfig: a named layout has as many canvases as grid cells and is
   * called by its shape; any other name falls back to the 2x2 grid.
   */
  function GetLayoutConfig(name: string): (c: LayoutConfig)
    ensures c.viewports == c.rows * c.cols && 1 <= c.rows < 10 && 1 <= c.cols < 10
    ensures LayoutTable(name).Some? ==> name == GridName(c.rows, c.cols)
    ensures LayoutTable(name).None? ==> c == LayoutConfig(2, 2, 4)
  {
    match LayoutTable(name)
    case Some(known) => known
    case None => LayoutConfig(2, 2, 4)
  }

  // ==================== slices ====================

  /**
   * `(study?.file_ids?.length || 1) - 1`: the last slice index; a missing or
   * empty file list counts as a single slice.
   */
  function MaxSlice(fileCount: Option<nat>): (m: nat)
    ensures fileCount.Some? && fileCount.value > 0 ==> m + 1 == fileCount.value
    ensures fileCount.None? || fileCount.value == 0 ==> m == 0
  {
    if fileCount.Some? && fileCount.value > 0 then fileCount.value - 1 else 0
  }

  /** `Math.max(0, Math.min(maxSlice, slice + direction))`. */
  function ScrolledSlice(slice: int, direction: int, maxSlice: nat): (s: int)
    ensures 0 <= s <= maxSlice
    ensures 0 <= slice + direction <= maxSlice ==> s == slice + direction
    ensures slice + direction < 0 ==> s == 0
    ensures maxSlice < slice + direction ==> s == maxSlice
  {
    var above := if slice + direction <= maxSlice then slice + direction else maxSlice;
    if above >= 0 then above else 0
  }

  /** One tick of the cine interval: wrap to the first slice after the last. */
  function CineStep(prev: int, maxSlice: nat): (next: int)
    ensures 0 <= prev ==> 0 <= next <= maxSlice
    ensures next == 0 || next == prev + 1
    ensures prev < maxSlice <==> next == prev + 1
  {
    if prev >= maxSlice then 0 else prev + 1
  }

  /** The slice after `n` cine ticks from `start`. */
  function CineSteps(start: int, n: nat, maxSlice: nat): int {
    if n == 0 then start else CineStep(CineSteps(start, n - 1, maxSlice), maxSlice)
  }

  /** Below the last slice, cine advances one slice per tick. */
  lemma {:induction false} CineClimbs(start: nat, k: nat, maxSlice: nat)
    requires start + k <= maxSlice
    ensures CineSteps(start, k, maxSlice) == start + k
  {
    if k > 0 {
      CineClimbs(start, k - 1, maxSlice);
    }
  }

  /** Ticks compose: a + b ticks are b ticks after a ticks. */
  lemma {:induction false} CineStepsCompose(start: int, a: nat, b: nat, maxSlice: nat)
    ensures CineSteps(start, a + b, maxSlice) == CineSteps(CineSteps(start, a, maxSlice), b, maxSlice)
  {
    if b > 0 {
      CineStepsCompose(start, a, b - 1, maxSlice);
    }
  }

  /** Cine is a cycle through 0..maxSlice: every slice comes back after maxSlice + 1 ticks. */
  lemma CineCycles(start: nat, maxSlice: nat)
    requires start <= maxSlice
    ensures CineSteps(start, maxSlice + 1, maxSlice) == start
  {
    CineClimbs(start, maxSlice - start, maxSlice);
    CineStepsCompose(start, maxSlice - start, 1, maxSlice);
    CineClimbs(0, start, maxSlice);
    CineStepsCompose(start, maxSlice - start + 1, start, maxSlice);
  }

  /** From slice 0, cine shows every slice k at tick k. */
  lemma CineVisitsEverySlice(k: nat, maxSlice: nat)
    requires k <= maxSlice
    ensures CineSteps(0, k, maxSlice) == k
  {
    CineClimbs(0, k, maxSlice);
  }

  // ==================== per-viewport updates ====================

  /** The stack-scroll update of one viewport: only its slice moves, clamped to the stack. */
  function Scrolled(v: Viewport, direction: int, maxSlice: nat): (w: Viewport)
    ensures w.(slice := v.slice) == v
    ensures w.slice == ScrolledSlice(v.slice, direction, maxSlice)
    ensures 0 <= w.slice <= maxSlice
    ensures 0 <= v.slice + direction <= maxSlice ==> w.slice == v.slice + direction
  {
    v.(slice := ScrolledSlice(v.slice, direction, maxSlice))
  }

  /** `Math.max(0.2, Math.min(5, zoom + direction * 0.1))`. */
  function ZoomedBy(zoom: real, direction: int): (z: real)
    ensures 0.2 <= z <= 5.0
    ensures 0.2 <= zoom + direction as real * 0.1 <= 5.0 ==> z == zoom + direction as real * 0.1
    ensures zoom + direction as real * 0.1 > 5.0 ==> z == 5.0
    ensures zoom + direction as real * 0.1 < 0.2 ==> z == 0.2
  {
    Max(0.2, Min(5.0, zoom + direction as real * 0.1))
  }

  /** The wheel-zoom update of one viewport: only its zoom changes. */
  function Zoomed(v: Viewport, direction: int): (w: Viewport)
    ensures w.(zoom := v.zoom) == v
    ensures w.zoom == ZoomedBy(v.zoom, direction)
    ensures 0.2 <= w.zoom <= 5.0
  {
    v.(zoom := ZoomedBy(v.zoom, direction))
  }

  /** The pan update of one viewport: only the pan offsets change, by the drag delta. */
  function Panned(v: Viewport, dx: real, dy: real): (w: Viewport)
    ensures w.(panX := v.panX, panY := v.panY) == v
    ensures w.panX - v.panX == dx && w.panY - v.panY == dy
  {
    v.(panX := v.panX + dx, panY := v.panY + dy)
  }

  lemma PanBackRestores(v: Viewport, dx: real, dy: real)
    ensures Panned(Panned(v, dx, dy), -dx, -dy) == v
  {
    var w := Panned(Panned(v, dx, dy), -dx, -dy);
    assert w.panX == v.panX && w.panY == v.panY;
  }

  /**
   * The `setViewports(prev => ...)` updater shared by wheel and pan: copy the
   * array, then in synced comparison mode update every entry in a loop,
   * otherwise only the entry of the canvas the event came from.  An index
   * past the end of the array leaves it unchanged (see the as-written
   * variant below).
   */
  method UpdateViewports(prev: seq<Viewport>, index: nat, synced: bool, f: Viewport -> Viewport)
    returns (updated: seq<Viewport>)
    ensures |updated| == |prev|
    ensures forall i :: 0 <= i < |prev| ==>
      updated[i] == (if synced || i == index then f(prev[i]) else prev[i])
  {
    updated := prev;
    if synced {
      var i := 0;
      while i < |updated|
        invariant 0 <= i <= |updated| == |prev|
        invariant forall j :: 0 <= j < i ==> updated[j] == f(prev[j])
        invariant forall j :: i <= j < |prev| ==> updated[j] == prev[j]
      {
        updated := updated[i := f(updated[i])];
        i := i + 1;
      }
    } else if index < |updated| {
      updated := updated[index := f(updated[index])];
    }
  }

  // ==================== the unsynced update as written ====================

  /**
   * What the unsynced updater does as written: the new array, or the
   * TypeError it throws when it reads `.slice` (`.zoom`, `.panX`) of
   * `updated[viewportIndex]` and that entry is `undefined`.
   */
  datatype Outcome = Updated(vs: seq<Viewport>) | Throws

  /**
   * The unsynced branch exactly as the handlers write it: the new entry's
   * field is computed from `updated[viewportIndex]`, so an index past the end
   * of the array throws before anything is assigned.
   */
  function UnsyncedUpdateAsWritten(prev: seq<Viewport>, index: nat, f: Viewport -> Viewport): (o: Outcome)
    ensures o.Throws? <==> |prev| <= index
    ensures o.Updated? ==> |o.vs| == |prev|
    ensures o.Updated? ==>
      forall i :: 0 <= i < |prev| ==> o.vs[i] == (if i == index then f(prev[i]) else prev[i])
  {
    if index < |prev| then Updated(prev[index := f(prev[index])]) else Throws
  }

  /**
   * The 2x3 layout draws six canvases, each wired to the handlers with its own
   * index, but the state holds four viewports: with sync off, a wheel event on
   * the fifth canvas throws instead of scrolling anything.
   */
  lemma FifthCanvasWheelThrows(direction: int, maxSlice: nat)
    ensures GetLayoutConfig("2x3").viewports == 6 && |DefaultViewports| == 4
    ensures UnsyncedUpdateAsWritten(DefaultViewports, 4, v => Scrolled(v, direction, maxSlice)).Throws?
  {
  }

  // ==================== 3D rotation ====================

  /** The quotient of JavaScript's `Math.trunc(a / n)`: division rounded toward zero. */
  function JsQuotient(a: int, n: int): (q: int)
    requires n > 0
    ensures 0 <= a ==> 0 <= q * n <= a && a - q * n < n
    ensures a <= 0 ==> a <= q * n <= 0 && q * n - a < n
  {
    if a >= 0 then a / n else -((-a) / n)
  }

  /**
   * JavaScript's `a % n`: the remainder of truncated division, so it takes the
   * sign of `a` (`-15 % 360 == -15`, where Dafny's Euclidean `%` gives 345).
   */
  function JsRemainder(a: int, n: int): (r: int)
    requires n > 0
    ensures a == JsQuotient(a, n) * n + r
    ensures -n < r < n
    ensures 0 <= a ==> 0 <= r
    ensures a <= 0 ==> r <= 0
  {
    if a >= 0 then a % n else -((-a) % n)
  }

  function AxisValue(r: Rotation3D, axis: Axis): int {
    match axis
    case X => r.x
    case Y => r.y
    case Z => r.z
  }

  /** handle3DRotation: only the named axis turns, to `(prev + delta) % 360`. */
  function Rotated(r: Rotation3D, axis: Axis, delta: int): (t: Rotation3D)
    ensures AxisValue(t, axis) == JsRemainder(AxisValue(r, axis) + delta, 360)
    ensures -360 < AxisValue(t, axis) < 360
    ensures (AxisValue(t, axis) - (AxisValue(r, axis) + delta)) % 360 == 0
    ensures forall other: Axis :: other != axis ==> AxisValue(t, other) == AxisValue(r, other)
  {
    var v := JsRemainder(AxisValue(r, axis) + delta, 360);
    match axis
    case X => r.(x := v)
    case Y => r.(y := v)
    case Z => r.(z := v)
  }

  /** Turning an axis forth and back again leaves it at an angle congruent to the start. */
  lemma RotateBackCongruent(r: Rotation3D, axis: Axis, delta: int)
    ensures (AxisValue(Rotated(Rotated(r, axis, delta), axis, -delta), axis) - AxisValue(r, axis)) % 360 == 0
  {
    var once := Rotated(r, axis, delta);
    var twice := Rotated(once, axis, -delta);
    var a, b, c := AxisValue(r, axis), AxisValue(once, axis), AxisValue(twice, axis);
    var p := (b - (a + delta)) / 360;
    var q := (c - (b - delta)) / 360;
    assert b - (a + delta) == p * 360;
    assert c - (b - delta) == q * 360;
    assert c - a == (p + q) * 360;
  }

  // ==================== window presets ====================

  datatype Window = Window(width: real, level: real)

  const FallbackWindow := Window(400.0, 40.0)

  /** The presets applyWindowPreset knows. */
  function PresetTable(name: string): Option<Window> {
    match name
    case "lung" => Some(Window(1500.0, -600.0))
    case "bone" => Some(Window(2000.0, 300.0))
    case "brain" => Some(Window(80.0, 40.0))
    case "soft" => Some(Window(350.0, 40.0))
    case "liver" => Some(Window(150.0, 30.0))
    case "default" => Some(FallbackWindow)
    case _ => None
  }

  /** The width/level a preset name selects: its listed values, or 400/40 for an unknown name. */
  function WindowPresetFor(name: string): (w: Window)
    ensures PresetTable(name).Some? ==> w == PresetTable(name).value
    ensures PresetTable(name).None? ==> w == FallbackWindow
    ensures 1.0 <= w.width
  {
    match PresetTable(name)
    case Some(known) => known
    case None => FallbackWindow
  }

  /** The window-level drag: width grows by 2·dx but never below 1, level by dy/2; nothing else changes. */
  function WindowLevelDragged(s: ImageState, dx: real, dy: real): (t: ImageState)
    ensures t.(windowWidth := s.windowWidth, windowLevel := s.windowLevel) == s
    ensures t.windowWidth == Max(1.0, s.windowWidth + dx * 2.0) && 1.0 <= t.windowWidth
    ensures t.windowLevel - s.windowLevel == dy * 0.5
  {
    s.(windowWidth := Max(1.0, s.windowWidth + dx * 2.0), windowLevel := s.windowLevel + dy * 0.5)
  }

  // ==================== drags on the last shape ====================

  /** A new drag shape: both ends at the press point. */
  function ShapeAt(p: Point): Shape {
    Shape(p.x, p.y, p.x, p.y)
  }

  /** Moving the end of the shape being drawn: only the last shape's x2/y2 change. */
  function StretchLast(shapes: seq<Shape>, to: Point): (t: seq<Shape>)
    requires |shapes| > 0
    ensures |t| == |shapes| && t[..|t| - 1] == shapes[..|shapes| - 1]
    ensures t[|t| - 1].x1 == shapes[|shapes| - 1].x1 && t[|t| - 1].y1 == shapes[|shapes| - 1].y1
    ensures t[|t| - 1].x2 == to.x && t[|t| - 1].y2 == to.y
  {
    shapes[|shapes| - 1 := shapes[|shapes| - 1].(x2 := to.x, y2 := to.y)]
  }

  /** The same for volume ROIs: the slice count is kept. */
  function StretchLastVolume(rois: seq<VolumeROI>, to: Point): (t: seq<VolumeROI>)
    requires |rois| > 0
    ensures |t| == |rois| && t[..|t| - 1] == rois[..|rois| - 1]
    ensures t[|t| - 1].slices == rois[|rois| - 1].slices
    ensures t[|t| - 1].shape == StretchLast([rois[|rois| - 1].shape], to)[0]
  {
    var last := rois[|rois| - 1];
    rois[|rois| - 1 := last.(shape := last.shape.(x2 := to.x, y2 := to.y))]
  }

  // ==================== the component ====================

  /** The component's state; each handler reassigns the fields its setters touch. */
  class DicomViewer {
    var viewMode: ViewMode
    var layout: string
    var activeTool: Tool
    var activeViewport: nat
    var comparisonMode: bool
    var syncScroll: bool
    /** `study.file_ids.length`, None when the study document has no file list. */
    var fileCount: Option<nat>
    var viewports: seq<Viewport>
    var imageState: ImageState
    var rotation3D: Rotation3D
    var currentSlice: int
    var cineMode: bool
    var isDragging: bool
    var dragStart: Point
    var measurements: seq<Shape>
    var angles: seq<Angle>
    var rectangleROIs: seq<Shape>
    var ellipseROIs: seq<Shape>
    var volumeROIs: seq<VolumeROI>
    var annotations: seq<Annotation>
    var windowPreset: string

    /**
     * Four viewports, every slice and the cine slice inside the stack, every
     * zoom in [0.2, 5], window width at least 1, 3D angles inside (-360, 360).
     */
    ghost predicate Valid()
      reads this`viewports, this`fileCount, this`imageState, this`rotation3D, this`currentSlice
    {
      && |viewports| == ViewportCount
      && (forall i :: 0 <= i < |viewports| ==>
            0 <= viewports[i].slice <= MaxSlice(fileCount) && 0.2 <= viewports[i].zoom <= 5.0)
      && 1.0 <= imageState.windowWidth
      && -360 < rotation3D.x < 360 && -360 < rotation3D.y < 360 && -360 < rotation3D.z < 360
      && 0 <= currentSlice <= MaxSlice(fileCount)
    }

    /** The initial state once the study (with `fileCount` files) has loaded. */
    constructor (fileCount: Option<nat>)
      ensures Valid()
      ensures this.fileCount == fileCount
      ensures viewMode == TwoD && layout == "2x2" && activeTool == Pan && activeViewport == 0
      ensures !comparisonMode && syncScroll && !cineMode && !isDragging
      ensures viewports == DefaultViewports && imageState == DefaultImageState
      ensures rotation3D == NoRotation && currentSlice == 0 && dragStart == Point(0.0, 0.0)
      ensures measurements == [] && angles == [] && rectangleROIs == [] && ellipseROIs == []
      ensures volumeROIs == [] && annotations == [] && windowPreset == "default"
    {
      viewMode := TwoD;
      layout := "2x2";
      activeTool := Pan;
      activeViewport := 0;
      comparisonMode := false;
      syncScroll := true;
      this.fileCount := fileCount;
      viewports := DefaultViewports;
      imageState := DefaultImageState;
      rotation3D := NoRotation;
      currentSlice := 0;
      cineMode := false;
      isDragging := false;
      dragStart := Point(0.0, 0.0);
      measurements := [];
      angles := [];
      rectangleROIs := [];
      ellipseROIs := [];
      volumeROIs := [];
      annotations := [];
      windowPreset := "default";
    }

    /** Comparison mode with sync on: the handlers update every viewport. */
    predicate Synced()
      reads this`comparisonMode, this`syncScroll
    {
      comparisonMode && syncScroll
    }

    /**
     * handleWheel on canvas `index` (the canvases of the current layout are
     * numbered from 0).  A positive deltaY scrolls or zooms forward, anything
     * else backward; the zoom tool zooms, every other tool scrolls the stack.
     */
    method HandleWheel(index: nat, deltaY: real)
      requires Valid()
      requires index < GetLayoutConfig(layout).viewports
      modifies this`viewports
      ensures Valid()
      ensures var direction := if deltaY > 0.0 then 1 else -1;
        forall i :: 0 <= i < ViewportCount ==>
          viewports[i] == (if !(Synced() || i == index) then old(viewports)[i]
                           else if activeTool == Zoom then Zoomed(old(viewports)[i], direction)
                           else Scrolled(old(viewports)[i], direction, MaxSlice(fileCount)))
    {
      var direction := if deltaY > 0.0 then 1 else -1;
      if activeTool == Zoom {
        viewports := UpdateViewports(viewports, index, Synced(), v => Zoomed(v, direction));
      } else {
        var maxSlice := MaxSlice(fileCount);
        viewports := UpdateViewports(viewports, index, Synced(), v => Scrolled(v, direction, maxSlice));
      }
    }

    /**
     * handleMouseDown at point `at` on canvas `index`.  `hasCanvas` says whether
     * the canvas element is mounted; `typed` is what the annotation prompt
     * returned (None when it was cancelled).
     */
    method HandleMouseDown(index: nat, at: Point, hasCanvas: bool, typed: Option<string>)
      requires index < GetLayoutConfig(layout).viewports
      modifies this`activeViewport, this`isDragging, this`dragStart, this`measurements,
               this`rectangleROIs, this`ellipseROIs, this`volumeROIs, this`annotations
      ensures !hasCanvas ==>
        && activeViewport == old(activeViewport) && isDragging == old(isDragging)
        && dragStart == old(dragStart) && measurements == old(measurements)
        && rectangleROIs == old(rectangleROIs) && ellipseROIs == old(ellipseROIs)
        && volumeROIs == old(volumeROIs) && annotations == old(annotations)
      ensures hasCanvas ==> activeViewport == index && isDragging && dragStart == at
      ensures measurements ==
        if hasCanvas && activeTool == Length then old(measurements) + [ShapeAt(at)] else old(measurements)
      ensures rectangleROIs ==
        if hasCanvas && activeTool == RectangleROI then old(rectangleROIs) + [ShapeAt(at)] else old(rectangleROIs)
      ensures ellipseROIs ==
        if hasCanvas && activeTool == EllipseROI then old(ellipseROIs) + [ShapeAt(at)] else old(ellipseROIs)
      ensures volumeROIs ==
        if hasCanvas && activeTool == VolumeROITool then old(volumeROIs) + [VolumeROI(ShapeAt(at), VolumeROISlices)]
        else old(volumeROIs)
      ensures annotations ==
        if hasCanvas && activeTool == Annotate && typed.Some? && typed.value != ""
        then old(annotations) + [Annotation(typed.value, at)] else old(annotations)
    {
      if !hasCanvas {
        return;
      }
      activeViewport := index;
      isDragging := true;
      dragStart := at;
      match activeTool {
        case Length => measurements := measurements + [ShapeAt(at)];
        case RectangleROI => rectangleROIs := rectangleROIs + [ShapeAt(at)];
        case EllipseROI => ellipseROIs := ellipseROIs + [ShapeAt(at)];
        case VolumeROITool => volumeROIs := volumeROIs + [VolumeROI(ShapeAt(at), VolumeROISlices)];
        case Annotate =>
          if typed.Some? && typed.value != "" {
            annotations := annotations + [Annotation(typed.value, at)];
          }
        case _ =>
      }
    }

    /**
     * handleMouseMove to point `at` on canvas `index`, while a drag is under
     * way.  Pan and window-level apply the delta from the previous point and
     * make `at` the new one; the drawing tools move the end of their last shape.
     */
    method HandleMouseMove(index: nat, at: Point, hasCanvas: bool)
      requires Valid()
      requires index < GetLayoutConfig(layout).viewports
      modifies this`viewports, this`imageState, this`dragStart, this`measurements,
               this`rectangleROIs, this`ellipseROIs, this`volumeROIs
      ensures Valid()
      ensures forall i :: 0 <= i < ViewportCount ==>
        viewports[i] == (if isDragging && hasCanvas && activeTool == Pan && (Synced() || i == index)
                         then Panned(old(viewports)[i], at.x - old(dragStart).x, at.y - old(dragStart).y)
                         else old(viewports)[i])
      ensures imageState == if isDragging && hasCanvas && activeTool == WindowLevel
                            then WindowLevelDragged(old(imageState), at.x - old(dragStart).x, at.y - old(dragStart).y)
                            else old(imageState)
      ensures dragStart == if isDragging && hasCanvas && (activeTool == Pan || activeTool == WindowLevel)
                           then at else old(dragStart)
      ensures measurements == if isDragging && hasCanvas && activeTool == Length && |old(measurements)| > 0
                              then StretchLast(old(measurements), at) else old(measurements)
      ensures rectangleROIs == if isDragging && hasCanvas && activeTool == RectangleROI && |old(rectangleROIs)| > 0
                               then StretchLast(old(rectangleROIs), at) else old(rectangleROIs)
      ensures ellipseROIs == if isDragging && hasCanvas && activeTool == EllipseROI && |old(ellipseROIs)| > 0
                             then StretchLast(old(ellipseROIs), at) else old(ellipseROIs)
      ensures volumeROIs == if isDragging && hasCanvas && activeTool == VolumeROITool && |old(volumeROIs)| > 0
                            then StretchLastVolume(old(volumeROIs), at) else old(volumeROIs)
    {
      if !isDragging || !hasCanvas {
        return;
      }
      if activeTool == Pan || activeTool == WindowLevel {
        DragView(index, at);
      } else {
        StretchActiveShape(at);
      }
    }

    /** The pan and window-level branches of handleMouseMove. */
    method DragView(index: nat, at: Point)
      requires Valid() && (activeTool == Pan || activeTool == WindowLevel)
      modifies this`viewports, this`imageState, this`dragStart
      ensures Valid()
      ensures forall i :: 0 <= i < ViewportCount ==>
        viewports[i] == (if activeTool == Pan && (Synced() || i == index)
                         then Panned(old(viewports)[i], at.x - old(dragStart).x, at.y - old(dragStart).y)
                         else old(viewports)[i])
      ensures imageState == if activeTool == WindowLevel
                            then WindowLevelDragged(old(imageState), at.x - old(dragStart).x, at.y - old(dragStart).y)
                            else old(imageState)
      ensures dragStart == at
    {
      var dx, dy := at.x - dragStart.x, at.y - dragStart.y;
      if activeTool == Pan {
        viewports := UpdateViewports(viewports, index, Synced(), v => Panned(v, dx, dy));
      } else {
        imageState := WindowLevelDragged(imageState, dx, dy);
      }
      dragStart := at;
    }

    /** The drawing-tool branches of handleMouseMove: the active tool's last shape ends at `at`. */
    method StretchActiveShape(at: Point)
      modifies this`measurements, this`rectangleROIs, this`ellipseROIs, this`volumeROIs
      ensures measurements == if activeTool == Length && |old(measurements)| > 0
                              then StretchLast(old(measurements), at) else old(measurements)
      ensures rectangleROIs == if activeTool == RectangleROI && |old(rectangleROIs)| > 0
                               then StretchLast(old(rectangleROIs), at) else old(rectangleROIs)
      ensures ellipseROIs == if activeTool == EllipseROI && |old(ellipseROIs)| > 0
                             then StretchLast(old(ellipseROIs), at) else old(ellipseROIs)
      ensures volumeROIs == if activeTool == VolumeROITool && |old(volumeROIs)| > 0
                            then StretchLastVolume(old(volumeROIs), at) else old(volumeROIs)
    {
      if activeTool == Length && |measurements| > 0 {
        measurements := StretchLast(measurements, at);
      } else if activeTool == RectangleROI && |rectangleROIs| > 0 {
        rectangleROIs := StretchLast(rectangleROIs, at);
      } else if activeTool == EllipseROI && |ellipseROIs| > 0 {
        ellipseROIs := StretchLast(ellipseROIs, at);
      } else if activeTool == VolumeROITool && |volumeROIs| > 0 {
        volumeROIs := StretchLastVolume(volumeROIs, at);
      }
    }

    /** handleMouseUp (also bound to mouse-leave): the drag ends. */
    method HandleMouseUp()
      modifies this`isDragging
      ensures !isDragging
    {
      isDragging := false;
    }

    /** One tick of the cine interval, which runs only in 2D view with cine on. */
    method CineTick()
      requires Valid()
      modifies this`currentSlice
      ensures Valid()
      ensures currentSlice == if cineMode && viewMode == TwoD
                              then CineStep(old(currentSlice), MaxSlice(fileCount)) else old(currentSlice)
    {
      if cineMode && viewMode == TwoD {
        currentSlice := CineStep(currentSlice, MaxSlice(fileCount));
      }
    }

    /** handle3DRotation. */
    method Rotate3D(axis: Axis, delta: int)
      requires Valid()
      modifies this`rotation3D
      ensures Valid()
      ensures rotation3D == Rotated(old(rotation3D), axis, delta)
    {
      rotation3D := Rotated(rotation3D, axis, delta);
      assert AxisValue(rotation3D, X) == rotation3D.x;
      assert AxisValue(rotation3D, Y) == rotation3D.y;
      assert AxisValue(rotation3D, Z) == rotation3D.z;
    }

    /** applyWindowPreset: the preset's width and level; the name is remembered as given. */
    method ApplyWindowPreset(preset: string)
      requires Valid()
      modifies this`imageState, this`windowPreset
      ensures Valid()
      ensures imageState == old(imageState).(windowWidth := WindowPresetFor(preset).width,
                                             windowLevel := WindowPresetFor(preset).level)
      ensures windowPreset == preset
    {
      var selected := WindowPresetFor(preset);
      imageState := imageState.(windowWidth := selected.width, windowLevel := selected.level);
      windowPreset := preset;
    }

    /**
     * handleReset: default image state, no 3D rotation, four default viewports,
     * and no measurements, angles, rectangle/ellipse ROIs or annotations.
     * Volume ROIs, the cine slice and the preset name are not reset.
     */
    method Reset()
      requires Valid()
      modifies this`imageState, this`rotation3D, this`viewports, this`measurements, this`angles,
               this`rectangleROIs, this`ellipseROIs, this`annotations
      ensures Valid()
      ensures imageState == DefaultImageState && rotation3D == NoRotation && viewports == DefaultViewports
      ensures measurements == [] && angles == [] && rectangleROIs == [] && ellipseROIs == []
      ensures annotations == []
    {
      imageState := DefaultImageState;
      rotation3D := NoRotation;
      viewports := DefaultViewports;
      measurements := [];
      angles := [];
      rectangleROIs := [];
      ellipseROIs := [];
      annotations := [];
    }
  }
}
