# Sketch canvas: drawing and history state machine

This project models the `App` component of a small React/Konva sketch board. Users drop
images on a canvas, drag them, delete them by double-click or tap, and draw freehand
lines over them. Undo and redo apply to lines only. Without React and Konva, the component
is one record of state:

- `images`: placed images, each with a bitmap and a `draggable` flag;
- `lines`: strokes, each a flat point list `[x0, y0, x1, y1, …]` with a colour and a width;
- `undoHistory`: the redo pool;
- `brushColor`, `brushSize`, `draggableImages` and `imageSize`;
- the refs `isDrawing` and `linePoints`.

Each event handler is a deterministic transition on that record.

Files:

- `scene.dfy` (module `Scene`) holds the state as a value (`State`), the 13-entry palette
  `COLORS` and the other constants. It has one pure transition per handler (`OnMouseDown`,
  `OnUndo`, …) and the state invariant `Valid`. `Step` and `Run` process events one after
  another.
- `laws.dfy` (module `Laws`) holds the lemmas:
  - the undo/redo laws;
  - what a press–move–release gesture leaves in `lines`;
  - the draggable invariant;
  - `Valid` is kept by every event sequence the UI can deliver.
- `app.dfy` (module `Component`) is the component as a class. The hooks and refs are
  fields, and there is one method per handler. Each method updates the fields in place and
  states the new state both directly and as the matching `Scene` transition of the old
  `Snapshot()`.

Behaviours of the code worth knowing:

- Every mouse move while drawing appends a whole new line holding all the points so far
  (src/App.jsx:59-60). It does not replace the in-progress line. One gesture with k moves
  adds k overlapping lines, and one undo removes only the last of them (`Laws.Gesture`,
  `Laws.ThreePointStroke`).
- Of the mouse handlers, only mouse-up empties the redo pool; mouse-down does not.
  Mouse-up empties it even when no gesture was in progress (src/App.jsx:64-67). The
  DELETE button empties it too (src/App.jsx:77-80).
- Toggle gives every image the negation of the global flag. It does not negate each
  image's own flag (src/App.jsx:107-110). The two agree only under the invariant that every
  image's flag equals the global one (`Laws.ToggleNegatesEach`).
- Deleting an image uses `splice(index, 1)` semantics. An index at or past the end changes
  nothing. A negative index counts from the end, so `-1` removes the last image, and an
  index below minus the length removes the first (`Scene.OnDeleteImage`,
  `Laws.DeleteMinusOneDropsLast`). The UI only passes indices of existing images.
- The brush size is taken as given, with no clamping (src/App.jsx:102-104).

## Model

| member | source | states |
|---|---|---|
| Scene.Initial | src/App.jsx:22-30 | The state at mount satisfies the invariant: no images, lines or redo entries, and not drawing |
| Scene.SpliceOne | src/App.jsx:82-88 | `splice(index, 1)` on a copy: one element fewer if the start is inside, with that element removed from the multiset. Every other element keeps its order. A start at the end leaves the list unchanged |
| Scene.WithDraggable | src/App.jsx:108-112 | The per-image rewrite keeps the number of images and every bitmap, and gives every image the one flag |
| Scene.OnMouseDown | src/App.jsx:50-54 | Drawing is on and `linePoints` is `[x, y]`. Nothing else changes: `lines` and `undoHistory` stay as they were |
| Scene.OnMouseMove | src/App.jsx:56-62 | Not drawing: nothing changes. Drawing: exactly one line is appended and the earlier lines are untouched. The new line holds the old `linePoints` followed by `x, y`, with the current brush colour and size, and it becomes the new `linePoints` |
| Scene.OnMouseUp | src/App.jsx:64-67 | Drawing is off and the redo pool is empty. Nothing else changes |
| Scene.OnUndo | src/App.jsx:69-75 | With no lines, the whole state is unchanged. Otherwise the last line moves to the end of `undoHistory`. The combined length of `lines` and `undoHistory` is preserved, and nothing else changes |
| Scene.OnRedo | src/App.jsx:90-96 | With an empty redo pool, the whole state is unchanged. Otherwise the last redo entry moves to the end of `lines`. The combined length of `lines` and `undoHistory` is preserved, and nothing else changes |
| Scene.OnDelete | src/App.jsx:77-80 | `lines` and `undoHistory` are both empty. Nothing else changes |
| Scene.OnDeleteImage | src/App.jsx:82-88 | For an index `i` of an existing image, exactly image `i` is removed and the others keep their order. An index at or past the end, or any index on an empty list, leaves the whole state unchanged. A negative index `i` down to minus the length removes the image at length + `i`. A more negative index removes the first image. Nothing but the images changes |
| Scene.OnToggleDraggable | src/App.jsx:106-113 | The global flag is negated, and every image's flag equals the new global flag. The images keep their number and bitmaps |
| Scene.OnImageLoaded | src/App.jsx:39-41 | The dropped bitmap is appended with the current global flag, which keeps the draggable invariant |
| Scene.OnBrushColor | src/App.jsx:98-100 | Sets the brush colour and nothing else |
| Scene.OnBrushSize | src/App.jsx:102-104 | Sets the brush size as given and nothing else |
| Scene.OnImageSize | src/App.jsx:115-117 | Sets the image size and nothing else |
| Laws.UndoThenRedo | src/App.jsx:69-96 | Undo followed by redo restores the whole state exactly when there was a line to undo |
| Laws.RedoThenUndo | src/App.jsx:69-96 | Redo followed by undo restores the whole state exactly when the redo pool was not empty |
| Laws.UndoRedoRepeat | src/App.jsx:69-96 | k undos followed by k redos restore the state, for any k up to the number of lines |
| Laws.UndoKeepsOrder | src/App.jsx:69-75 | Undo keeps the sequence formed by the lines followed by the redo pool read from its top |
| Laws.RedoKeepsOrder | src/App.jsx:90-96 | Redo keeps the sequence formed by the lines followed by the redo pool read from its top |
| Laws.HistoryStepKeepsLines | src/App.jsx:69-96 | One undo or redo keeps the multiset of lines plus redo entries |
| Laws.HistoryRunConserves | src/App.jsx:69-96 | Any sequence of undo and redo clicks keeps the lines followed by the redo pool read from its top as one sequence. So no line is lost, duplicated, altered or reordered, and the multiset of both lists is kept. Nothing outside the two lists changes |
| Laws.RedoAfterMouseUpIsNoop | src/App.jsx:64-96 | Redo right after a mouse-up changes nothing |
| Laws.UndoRedoAfterDeleteAreNoops | src/App.jsx:69-96 | After clear-all, both undo and redo change nothing |
| Laws.DragRun | src/App.jsx:56-62 | While drawing, k moves append exactly the k snapshot lines, and `linePoints` grows by every sample |
| Laws.Gesture | src/App.jsx:50-67 | A press, k moves and a release keep every earlier line and append exactly k lines, the i-th holding the press point and the first i + 1 samples. They empty the redo pool, end with drawing off and leave the images alone |
| Laws.PressReleaseAddsNoLine | src/App.jsx:50-67 | A press followed directly by a release adds no line |
| Laws.GestureLineShape | src/App.jsx:59-60 | The i-th line of a gesture has `2(i + 2)` coordinates when started from one press point. It begins with the press point, ends with sample i and has the gesture's colour and width |
| Laws.ToggleNegatesEach | src/App.jsx:106-113 | Under the draggable invariant, toggle negates each image's own flag and keeps its bitmap |
| Laws.ToggleTwice | src/App.jsx:106-113 | Under the draggable invariant, toggling twice restores the whole state |
| Laws.DeleteMinusOneDropsLast | src/App.jsx:82-88 | Deleting at index -1 removes the last image, because `splice` counts negative indices from the end |
| Laws.MoveKeepsValid | src/App.jsx:56-62 | A move keeps the invariant. The appended line has an even number of at least 4 coordinates, a palette colour and a width in 1..9 |
| Laws.UndoKeepsValid | src/App.jsx:69-75 | Undo keeps the invariant |
| Laws.RedoKeepsValid | src/App.jsx:90-96 | Redo keeps the invariant |
| Laws.DeleteImageKeepsValid | src/App.jsx:82-88 | Deleting an image at any index keeps the invariant, including every remaining image's flag equal to the global flag |
| Laws.StepPreservesValid | src/App.jsx:22-117 | Every handler, given a palette colour or a slider value where it takes one, keeps the invariant |
| Laws.RunPreservesValid | src/App.jsx:22-117 | Every sequence of such events keeps the invariant. Every image's `draggable` equals `draggableImages`, and every stored line has an even number of at least 4 coordinates, a palette colour and a width in 1..9 |
| Laws.ThreePointStroke | src/App.jsx:50-96 | From the mount state: press at (10,10), move to (20,10) and (20,20), then release. This gives two lines, `[10,10,20,10]` and `[10,10,20,10,20,20]`, both black and of width 3. Undo leaves the first, and redo restores both |
| Laws.BrushChangesDoNotTouchLines | src/App.jsx:56-104 | A line drawn with red and width 7 keeps them when the brush is changed afterwards |
| Component.App.constructor | src/App.jsx:22-30 | The fields start at the mount state, which is valid |
| Component.App.HandleMouseDown | src/App.jsx:50-54 | Sets drawing and `linePoints := [x, y]` in place, leaving `lines` and `undoHistory` alone. Keeps the invariant |
| Component.App.HandleMouseMove | src/App.jsx:56-62 | When drawing, appends the line with the extended points and the current brush. Otherwise nothing changes. Keeps the invariant |
| Component.App.HandleMouseUp | src/App.jsx:64-67 | Drawing off and the redo pool emptied. Keeps the invariant |
| Component.App.HandleUndo | src/App.jsx:69-75 | Pops the last line from a copy and appends it to the redo pool. A no-op when there are no lines |
| Component.App.HandleRedo | src/App.jsx:90-96 | Pops the last redo entry from a copy and appends it to the lines. A no-op when the pool is empty |
| Component.App.HandleDelete | src/App.jsx:77-80 | Empties `lines` and `undoHistory` |
| Component.App.HandleDeleteImage | src/App.jsx:82-88 | Splices one image out of a copy. Exactly image `i` is removed when it exists, and nothing changes for an index past the end |
| Component.App.HandleToggleDraggable | src/App.jsx:106-113 | Negates the global flag and rewrites every image to it, which negates each image's own flag under the invariant |
| Component.App.HandleImageLoaded | src/App.jsx:39-41 | Appends the loaded bitmap with the current global flag |
| Component.App.HandleBrushColorChange | src/App.jsx:98-100 | Sets the brush colour to a palette entry |
| Component.App.HandleBrushSizeChange | src/App.jsx:102-104 | Sets the brush size to a slider value |
| Component.App.HandleImageSizeChange | src/App.jsx:115-117 | Sets the image size to a slider value |

## Left out

- Reading and decoding a dropped file (`FileReader`, `window.Image`, the two `onload`
  callbacks, src/App.jsx:32-43) is asynchronous browser I/O. Only the final append is
  modelled, as an event carrying an opaque `Bitmap`. A failed decode simply never produces
  that event.
- `handleDragOver` (src/App.jsx:46-48) only calls `preventDefault`.
- Rendering is a foreign UI library and changes no state. This covers the JSX, the Konva
  `Stage`/`Layer`/`Image`/`Line`, `renderColorPalette`, CSS classes and the window size
  (src/App.jsx:119-194).
- The positions images get when dragged live inside Konva, not in the component state, so
  they are not modelled.
- React hook mechanics are not modelled: batching, re-rendering and handlers that run
  against a stale closure. Handlers are atomic transitions, each applied to the latest
  state.
- The drop's stale closure is not modelled. In the code, the append that ends a drop
  (src/App.jsx:40) reads `images` and `draggableImages` as they were when the file was
  dropped, not when it finished loading. A toggle between drop and load would bring back
  the old flags and break the draggable invariant; a second drop in that window would lose
  an image. `Scene.OnImageLoaded`, and with it `Laws.RunPreservesValid`, assume the load is
  handled against the latest state.
- Event objects are not modelled. Handlers take the coordinates and slider values
  directly, and coordinates are integers even though browsers report `offsetX` as a
  fractional number.
- Component.App.HandleBrushColorChange, Component.App.HandleBrushSizeChange and
  Component.App.HandleImageSizeChange require what the UI controls guarantee. The colour is
  a palette entry, the brush size is in 1..9 and the image size is in 100..1800 in steps of
  10. The code itself does not check these. The pure `Scene.OnBrushColor`,
  `Scene.OnBrushSize` and `Scene.OnImageSize` accept any value.
- Component.App methods require `Valid()`, which the constructor establishes and every
  method keeps. Every reachable component state is therefore covered.
