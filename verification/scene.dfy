/** The drawing-and-history state of the sketch canvas, as a value, and one pure
    transition per event handler of the App component. */
module Scene {

  /** The 13 entries of the colour palette, in display order. */
  const COLORS: seq<string> := [
    "#000000", // black
    "#FF0000", // red
    "#00FF00", // green
    "#0000FF", // blue
    "#FFFF00", // yellow
    "#800080", // purple
    "#FFA500", // orange
    "#FFC0CB", // pink
    "#808080", // gray
    "#A52A2A", // brown
    "#00FFFF", // cyan
    "#FF00FF", // magenta
    "#FF00Fd"  // second magenta entry
  ]

  const DEFAULT_COLOR: string := "#000000"
  const DEFAULT_BRUSH_SIZE: int := 3
  const DEFAULT_IMAGE_SIZE: int := 200

  /** Ranges of the two sliders: brush size 1..9, image size 100..1800 in steps of 10. */
  const MIN_BRUSH_SIZE: int := 1
  const MAX_BRUSH_SIZE: int := 9
  const MIN_IMAGE_SIZE: int := 100
  const MAX_IMAGE_SIZE: int := 1800
  const IMAGE_SIZE_STEP: int := 10

  /** A decoded bitmap; only its identity matters to the canvas. */
  datatype Bitmap = Bitmap(handle: nat)

  datatype PlacedImage = PlacedImage(img: Bitmap, draggable: bool)

  /** A stroke: flat coordinates [x0, y0, x1, y1, ...], its colour and its width. */
  datatype Line = Line(points: seq<int>, color: string, size: int)

  /** The component state: the three lists, the brush, the global draggable flag,
      the image size, and the two refs isDrawing and linePoints. */
  datatype State = State(
    images: seq<PlacedImage>,
    lines: seq<Line>,
    undoHistory: seq<Line>,
    brushColor: string,
    brushSize: int,
    draggableImages: bool,
    imageSize: int,
    isDrawing: bool,
    linePoints: seq<int>)

  /** One user or browser event, with the values the handler reads from it. */
  datatype Event =
    | MouseDown(x: int, y: int)
    | MouseMove(x: int, y: int)
    | MouseUp
    | Undo
    | Redo
    | Delete
    | DeleteImage(index: int)
    | ToggleDraggable
    | ImageLoaded(img: Bitmap)
    | BrushColor(color: string)
    | BrushSize(size: int)
    | ImageSize(size: int)

  function Last<T>(s: seq<T>): (r: T)
    requires |s| > 0
  {
    s[|s| - 1]
  }

  predicate BrushSizeInRange(n: int) {
    MIN_BRUSH_SIZE <= n <= MAX_BRUSH_SIZE
  }

  predicate ImageSizeInRange(n: int) {
    MIN_IMAGE_SIZE <= n <= MAX_IMAGE_SIZE && (n - MIN_IMAGE_SIZE) % IMAGE_SIZE_STEP == 0
  }

  /** A stroke that mouse moves can produce: at least two points, whole (x, y) pairs,
      a palette colour and a width the slider offers. */
  predicate WellFormedLine(l: Line) {
    |l.points| >= 4 && |l.points| % 2 == 0 && l.color in COLORS && BrushSizeInRange(l.size)
  }

  predicate AllWellFormed(ls: seq<Line>) {
    forall i :: 0 <= i < |ls| ==> WellFormedLine(ls[i])
  }

  predicate AllDraggable(images: seq<PlacedImage>, flag: bool) {
    forall i :: 0 <= i < |images| ==> images[i].draggable == flag
  }

  /** What every reachable state satisfies. */
  predicate Valid(s: State) {
    && AllDraggable(s.images, s.draggableImages)
    && AllWellFormed(s.lines)
    && AllWellFormed(s.undoHistory)
    && s.brushColor in COLORS
    && BrushSizeInRange(s.brushSize)
    && ImageSizeInRange(s.imageSize)
    && |s.linePoints| % 2 == 0
    && (s.isDrawing ==> |s.linePoints| >= 2)
  }

  /** Events the UI can deliver: palette colours and slider values only. */
  predicate Allowed(e: Event) {
    match e
    case BrushColor(c) => c in COLORS
    case BrushSize(n) => BrushSizeInRange(n)
    case ImageSize(n) => ImageSizeInRange(n)
    case _ => true
  }

  /** The state at mount: empty lists, black brush of width 3, images draggable,
      image size 200, not drawing. */
  function Initial(): (s: State)
    ensures Valid(s)
    ensures !s.isDrawing && s.lines == [] && s.undoHistory == [] && s.images == []
  {
    State([], [], [], DEFAULT_COLOR, DEFAULT_BRUSH_SIZE, true, DEFAULT_IMAGE_SIZE, false, [])
  }

  /** Array.prototype.splice(index, 1) start resolution: a negative index counts
      from the end (clamped at 0), a large one is clamped to the length. */
  function SpliceStart(len: nat, index: int): (k: nat)
    ensures k <= len
  {
    if index < 0 then (if len + index < 0 then 0 else len + index)
    else if index > len then len
    else index
  }

  /** A copy of s with splice(index, 1) applied: the element at the resolved start,
      if there is one, is removed and the rest keep their order. */
  function SpliceOne<T>(s: seq<T>, index: int): (r: seq<T>)
    ensures var k := SpliceStart(|s|, index);
      && (k < |s| ==> |r| == |s| - 1 && multiset(r) + multiset{s[k]} == multiset(s))
      && (k == |s| ==> r == s)
      && (forall j :: 0 <= j < |r| ==> r[j] == if j < k then s[j] else s[j + 1])
  {
    var k := SpliceStart(|s|, index);
    if k < |s| then
      assert s == s[..k] + [s[k]] + s[k + 1..];
      s[..k] + s[k + 1..]
    else s
  }

  /** The per-image rewrite of handleToggleDraggable: same bitmaps, one shared flag. */
  function WithDraggable(images: seq<PlacedImage>, flag: bool): (r: seq<PlacedImage>)
    ensures |r| == |images| && AllDraggable(r, flag)
    ensures forall i :: 0 <= i < |r| ==> r[i].img == images[i].img
  {
    seq(|images|, i requires 0 <= i < |images| => images[i].(draggable := flag))
  }

  /** handleMouseDown: start a gesture at (x, y); no line is added yet. */
  function OnMouseDown(s: State, x: int, y: int): (r: State)
    ensures r.isDrawing && r.linePoints == [x, y]
    ensures r.(isDrawing := s.isDrawing, linePoints := s.linePoints) == s
  {
    s.(isDrawing := true, linePoints := [x, y])
  }

  /** handleMouseMove: while drawing, append a whole new line holding every point of
      the gesture so far; otherwise do nothing. */
  function OnMouseMove(s: State, x: int, y: int): (r: State)
    ensures !s.isDrawing ==> r == s
    ensures s.isDrawing ==>
      && |r.lines| == |s.lines| + 1
      && r.lines[..|s.lines|] == s.lines
      && Last(r.lines) == Line(s.linePoints + [x, y], s.brushColor, s.brushSize)
      && r.linePoints == Last(r.lines).points
    ensures r.(lines := s.lines, linePoints := s.linePoints) == s
  {
    if !s.isDrawing then s
    else
      var newPoints := s.linePoints + [x, y];
      s.(lines := s.lines + [Line(newPoints, s.brushColor, s.brushSize)], linePoints := newPoints)
  }

  /** handleMouseUp: stop drawing and empty the redo pool, drawing or not. */
  function OnMouseUp(s: State): (r: State)
    ensures !r.isDrawing && r.undoHistory == []
    ensures r.(isDrawing := s.isDrawing, undoHistory := s.undoHistory) == s
  {
    s.(isDrawing := false, undoHistory := [])
  }

  /** handleUndo: move the last line to the end of the redo pool. */
  function OnUndo(s: State): (r: State)
    ensures |s.lines| == 0 ==> r == s
    ensures |s.lines| > 0 ==>
      r.lines + [Last(s.lines)] == s.lines && r.undoHistory == s.undoHistory + [Last(s.lines)]
    ensures |r.lines| + |r.undoHistory| == |s.lines| + |s.undoHistory|
    ensures r.(lines := s.lines, undoHistory := s.undoHistory) == s
  {
    if |s.lines| == 0 then s
    else s.(lines := s.lines[..|s.lines| - 1], undoHistory := s.undoHistory + [Last(s.lines)])
  }

  /** handleRedo: move the last line of the redo pool back to the end of the lines. */
  function OnRedo(s: State): (r: State)
    ensures |s.undoHistory| == 0 ==> r == s
    ensures |s.undoHistory| > 0 ==>
      r.undoHistory + [Last(s.undoHistory)] == s.undoHistory && r.lines == s.lines + [Last(s.undoHistory)]
    ensures |r.lines| + |r.undoHistory| == |s.lines| + |s.undoHistory|
    ensures r.(lines := s.lines, undoHistory := s.undoHistory) == s
  {
    if |s.undoHistory| == 0 then s
    else s.(lines := s.lines + [Last(s.undoHistory)], undoHistory := s.undoHistory[..|s.undoHistory| - 1])
  }

  /** handleDelete (the DELETE button): clear all lines and the redo pool. */
  function OnDelete(s: State): (r: State)
    ensures r.lines == [] && r.undoHistory == []
    ensures r.(lines := s.lines, undoHistory := s.undoHistory) == s
  {
    s.(lines := [], undoHistory := [])
  }

  /** handleDeleteImage: splice one image out at index. */
  function OnDeleteImage(s: State, index: int): (r: State)
    ensures 0 <= index < |s.images| ==>
      |r.images| == |s.images| - 1 && r.images == s.images[..index] + s.images[index + 1..]
    ensures index >= |s.images| || s.images == [] ==> r == s
    ensures -|s.images| <= index < 0 ==>
      r.images == s.images[..|s.images| + index] + s.images[|s.images| + index + 1..]
    ensures index < -|s.images| && |s.images| > 0 ==> r.images == s.images[1..]
    ensures r.(images := s.images) == s
  {
    var r := s.(images := SpliceOne(s.images, index));
    var k := SpliceStart(|s.images|, index);
    assert k < |s.images| ==> r.images == s.images[..k] + s.images[k + 1..];
    r
  }

  /** handleToggleDraggable: negate the global flag and give every image the new value. */
  function OnToggleDraggable(s: State): (r: State)
    ensures r.draggableImages == !s.draggableImages
    ensures AllDraggable(r.images, r.draggableImages)
    ensures |r.images| == |s.images| && forall i :: 0 <= i < |r.images| ==> r.images[i].img == s.images[i].img
    ensures r.(images := s.images, draggableImages := s.draggableImages) == s
  {
    s.(draggableImages := !s.draggableImages, images := WithDraggable(s.images, !s.draggableImages))
  }

  /** The append at the end of handleDrop, once the bitmap has loaded. */
  function OnImageLoaded(s: State, img: Bitmap): (r: State)
    ensures r.images == s.images + [PlacedImage(img, s.draggableImages)]
    ensures AllDraggable(s.images, s.draggableImages) ==> AllDraggable(r.images, r.draggableImages)
    ensures r.(images := s.images) == s
  {
    s.(images := s.images + [PlacedImage(img, s.draggableImages)])
  }

  /** handleBrushColorChange. */
  function OnBrushColor(s: State, color: string): (r: State)
    ensures r.brushColor == color && r.(brushColor := s.brushColor) == s
  {
    s.(brushColor := color)
  }

  /** handleBrushSizeChange: the slider value is taken as is, with no clamping. */
  function OnBrushSize(s: State, size: int): (r: State)
    ensures r.brushSize == size && r.(brushSize := s.brushSize) == s
  {
    s.(brushSize := size)
  }

  /** handleImageSizeChange. */
  function OnImageSize(s: State, size: int): (r: State)
    ensures r.imageSize == size && r.(imageSize := s.imageSize) == s
  {
    s.(imageSize := size)
  }

  /** The handler an event reaches. */
  function Step(s: State, e: Event): (r: State) {
    match e
    case MouseDown(x, y) => OnMouseDown(s, x, y)
    case MouseMove(x, y) => OnMouseMove(s, x, y)
    case MouseUp => OnMouseUp(s)
    case Undo => OnUndo(s)
    case Redo => OnRedo(s)
    case Delete => OnDelete(s)
    case DeleteImage(i) => OnDeleteImage(s, i)
    case ToggleDraggable => OnToggleDraggable(s)
    case ImageLoaded(img) => OnImageLoaded(s, img)
    case BrushColor(c) => OnBrushColor(s, c)
    case BrushSize(n) => OnBrushSize(s, n)
    case ImageSize(n) => OnImageSize(s, n)
  }

  /** Events handled one after the other, each against the latest state. */
  function Run(s: State, events: seq<Event>): (r: State)
    decreases |events|
  {
    if events == [] then s else Run(Step(s, events[0]), events[1..])
  }
}
