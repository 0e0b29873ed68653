/** The App component as an object: its state hooks and refs are fields, and each
    event handler is a method that updates them in place. */
module Component {
  import opened Scene
  import Laws

  class App {
    var images: seq<PlacedImage>
    var lines: seq<Line>
    var undoHistory: seq<Line>
    var brushColor: string
    var brushSize: int
    var draggableImages: bool
    var imageSize: int
    /** The isDrawing ref. */
    var isDrawing: bool
    /** The linePoints ref: the flat points of the gesture in progress. */
    var linePoints: seq<int>

    /** The component's current state as a value. */
    function Snapshot(): State
      reads this
    {
      State(images, lines, undoHistory, brushColor, brushSize, draggableImages, imageSize, isDrawing, linePoints)
    }

    ghost predicate Valid()
      reads this
    {
      Scene.Valid(Snapshot())
    }

    /** Mounting: every hook at its initial value. */
    constructor ()
      ensures Valid()
      ensures Snapshot() == Initial()
    {
      images, lines, undoHistory := [], [], [];
      brushColor, brushSize := DEFAULT_COLOR, DEFAULT_BRUSH_SIZE;
      draggableImages, imageSize := true, DEFAULT_IMAGE_SIZE;
      isDrawing, linePoints := false, [];
    }

    method HandleMouseDown(x: int, y: int)
      requires Valid()
      modifies this
      ensures Valid()
      ensures isDrawing && linePoints == [x, y]
      ensures lines == old(lines) && undoHistory == old(undoHistory)
      ensures Snapshot() == OnMouseDown(old(Snapshot()), x, y)
    {
      isDrawing := true;
      linePoints := [x, y];
    }

    method HandleMouseMove(x: int, y: int)
      requires Valid()
      modifies this
      ensures Valid()
      ensures !old(isDrawing) ==> Snapshot() == old(Snapshot())
      ensures old(isDrawing) ==>
        lines == old(lines) + [Line(old(linePoints) + [x, y], brushColor, brushSize)]
      ensures Snapshot() == OnMouseMove(old(Snapshot()), x, y)
    {
      if !isDrawing {
        return;
      }
      var newPoints := linePoints + [x, y];
      lines := lines + [Line(newPoints, brushColor, brushSize)];
      linePoints := newPoints;
    }

    method HandleMouseUp()
      requires Valid()
      modifies this
      ensures Valid()
      ensures !isDrawing && undoHistory == []
      ensures Snapshot() == OnMouseUp(old(Snapshot()))
    {
      isDrawing := false;
      undoHistory := [];
    }

    method HandleUndo()
      requires Valid()
      modifies this
      ensures Valid()
      ensures old(lines) == [] ==> Snapshot() == old(Snapshot())
      ensures old(lines) != [] ==>
        lines + [Last(old(lines))] == old(lines) && undoHistory == old(undoHistory) + [Last(old(lines))]
      ensures Snapshot() == OnUndo(old(Snapshot()))
    {
      if |lines| == 0 {
        return;
      }
      var updatedLines := lines;
      var lastLine := updatedLines[|updatedLines| - 1];
      updatedLines := updatedLines[..|updatedLines| - 1];
      lines := updatedLines;
      undoHistory := undoHistory + [lastLine];
    }

    method HandleRedo()
      requires Valid()
      modifies this
      ensures Valid()
      ensures old(undoHistory) == [] ==> Snapshot() == old(Snapshot())
      ensures old(undoHistory) != [] ==>
        lines == old(lines) + [Last(old(undoHistory))] && undoHistory + [Last(old(undoHistory))] == old(undoHistory)
      ensures Snapshot() == OnRedo(old(Snapshot()))
    {
      if |undoHistory| == 0 {
        return;
      }
      var updatedUndoHistory := undoHistory;
      var lastLine := updatedUndoHistory[|updatedUndoHistory| - 1];
      updatedUndoHistory := updatedUndoHistory[..|updatedUndoHistory| - 1];
      lines := lines + [lastLine];
      undoHistory := updatedUndoHistory;
    }

    /** The DELETE button. */
    method HandleDelete()
      requires Valid()
      modifies this
      ensures Valid()
      ensures lines == [] && undoHistory == []
      ensures Snapshot() == OnDelete(old(Snapshot()))
    {
      lines := [];
      undoHistory := [];
    }

    method HandleDeleteImage(index: int)
      requires Valid()
      modifies this
      ensures Valid()
      ensures 0 <= index < |old(images)| ==> images == old(images)[..index] + old(images)[index + 1..]
      ensures index >= |old(images)| || old(images) == [] ==> images == old(images)
      ensures Snapshot() == OnDeleteImage(old(Snapshot()), index)
    {
      var updatedImages := images;
      updatedImages := SpliceOne(updatedImages, index);
      images := updatedImages;
    }

    method HandleToggleDraggable()
      requires Valid()
      modifies this
      ensures Valid()
      ensures draggableImages == !old(draggableImages)
      ensures |images| == |old(images)|
      ensures forall i :: 0 <= i < |images| ==> images[i] == old(images)[i].(draggable := !old(images)[i].draggable)
      ensures Snapshot() == OnToggleDraggable(old(Snapshot()))
    {
      Laws.ToggleNegatesEach(Snapshot());
      var flag := !draggableImages;
      draggableImages := flag;
      images := WithDraggable(images, flag);
    }

    /** The append that ends handleDrop once the dropped file has decoded. */
    method HandleImageLoaded(img: Bitmap)
      requires Valid()
      modifies this
      ensures Valid()
      ensures images == old(images) + [PlacedImage(img, draggableImages)]
      ensures Snapshot() == OnImageLoaded(old(Snapshot()), img)
    {
      images := images + [PlacedImage(img, draggableImages)];
    }

    method HandleBrushColorChange(color: string)
      requires Valid()
      requires color in COLORS
      modifies this
      ensures Valid()
      ensures brushColor == color
      ensures Snapshot() == OnBrushColor(old(Snapshot()), color)
    {
      brushColor := color;
    }

    method HandleBrushSizeChange(size: int)
      requires Valid()
      requires BrushSizeInRange(size)
      modifies this
      ensures Valid()
      ensures brushSize == size
      ensures Snapshot() == OnBrushSize(old(Snapshot()), size)
    {
      brushSize := size;
    }

    method HandleImageSizeChange(size: int)
      requires Valid()
      requires ImageSizeInRange(size)
      modifies this
      ensures Valid()
      ensures imageSize == size
      ensures Snapshot() == OnImageSize(old(Snapshot()), size)
    {
      imageSize := size;
    }
  }
}
