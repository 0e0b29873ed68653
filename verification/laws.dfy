/** Properties of the canvas transitions: the undo/redo laws, what a drawing gesture
    leaves in the line list, the draggable invariant, and the state invariant kept by
    every sequence of events the UI can deliver. */
module Laws {
  import opened Scene

  // ----- composing runs -----

  lemma {:induction false} RunAppend(s: State, a: seq<Event>, b: seq<Event>)
    ensures Run(s, a + b) == Run(Run(s, a), b)
    decreases |a|
  {
    if a == [] {
      assert a + b == b;
    } else {
      assert (a + b)[1..] == a[1..] + b;
      RunAppend(Step(s, a[0]), a[1..], b);
    }
  }

  lemma RunOne(s: State, e: Event)
    ensures Run(s, [e]) == Step(s, e)
  {
  }

  lemma RunTwo(s: State, e1: Event, e2: Event)
    ensures Run(s, [e1, e2]) == Step(Step(s, e1), e2)
  {
    assert [e1, e2][1..] == [e2];
    RunOne(Step(s, e1), e2);
  }

  // ----- undo and redo -----

  /** Undo then redo gives back the very same state when there was a line to undo. */
  lemma UndoThenRedo(s: State)
    requires |s.lines| > 0
    ensures OnRedo(OnUndo(s)) == s
  {
  }

  /** Redo then undo gives back the very same state when the redo pool was not empty. */
  lemma RedoThenUndo(s: State)
    requires |s.undoHistory| > 0
    ensures OnUndo(OnRedo(s)) == s
  {
  }

  /** After a mouse-up the redo pool is empty, so redo changes nothing. */
  lemma RedoAfterMouseUpIsNoop(s: State)
    ensures OnRedo(OnMouseUp(s)) == OnMouseUp(s)
  {
  }

  /** The DELETE button leaves nothing to undo and nothing to redo. */
  lemma UndoRedoAfterDeleteAreNoops(s: State)
    ensures OnUndo(OnDelete(s)) == OnDelete(s) && OnRedo(OnDelete(s)) == OnDelete(s)
  {
  }

  predicate IsHistoryEvent(e: Event) {
    e.Undo? || e.Redo?
  }

  /** The redo pool read from its top: the line redo would restore first comes first. */
  function Reversed<T>(s: seq<T>): (r: seq<T>)
    ensures |r| == |s|
  {
    if s == [] then [] else [Last(s)] + Reversed(s[..|s| - 1])
  }

  /** One undo keeps the lines followed by the redo pool read from its top. */
  lemma UndoKeepsOrder(s: State)
    ensures OnUndo(s).lines + Reversed(OnUndo(s).undoHistory) == s.lines + Reversed(s.undoHistory)
  {
    var n := OnUndo(s);
    if |s.lines| > 0 {
      var x := Last(s.lines);
      assert n.undoHistory[..|n.undoHistory| - 1] == s.undoHistory;
      assert Reversed(n.undoHistory) == [x] + Reversed(s.undoHistory);
      assert n.lines + Reversed(n.undoHistory) == (n.lines + [x]) + Reversed(s.undoHistory);
    }
  }

  /** One redo keeps the lines followed by the redo pool read from its top. */
  lemma RedoKeepsOrder(s: State)
    ensures OnRedo(s).lines + Reversed(OnRedo(s).undoHistory) == s.lines + Reversed(s.undoHistory)
  {
    var n := OnRedo(s);
    if |s.undoHistory| > 0 {
      var x := Last(s.undoHistory);
      assert s.undoHistory[..|s.undoHistory| - 1] == n.undoHistory;
      assert Reversed(s.undoHistory) == [x] + Reversed(n.undoHistory);
      assert n.lines + Reversed(n.undoHistory) == s.lines + ([x] + Reversed(n.undoHistory));
    }
  }

  /** One undo or redo keeps the multiset of the two lists. */
  lemma HistoryStepKeepsLines(s: State, e: Event)
    requires IsHistoryEvent(e)
    ensures var n := Step(s, e);
      multiset(n.lines) + multiset(n.undoHistory) == multiset(s.lines) + multiset(s.undoHistory)
  {
    var n := Step(s, e);
    if e.Undo? && |s.lines| > 0 {
      assert s.lines == n.lines + [Last(s.lines)];
    } else if e.Redo? && |s.undoHistory| > 0 {
      assert s.undoHistory == n.undoHistory + [Last(s.undoHistory)];
    }
  }

  /** Any sequence of undo and redo clicks only moves lines between the two lists,
      as two stacks top to top: the lines followed by the redo pool read from its top
      stay the same sequence, so no line is lost, duplicated, altered or reordered,
      and nothing else changes. */
  lemma {:induction false} HistoryRunConserves(s: State, events: seq<Event>)
    requires forall i :: 0 <= i < |events| ==> IsHistoryEvent(events[i])
    ensures var t := Run(s, events);
      && t.lines + Reversed(t.undoHistory) == s.lines + Reversed(s.undoHistory)
      && multiset(t.lines) + multiset(t.undoHistory) == multiset(s.lines) + multiset(s.undoHistory)
      && t.(lines := s.lines, undoHistory := s.undoHistory) == s
    decreases |events|
  {
    if events != [] {
      var n := Step(s, events[0]);
      if events[0].Undo? {
        UndoKeepsOrder(s);
      } else {
        RedoKeepsOrder(s);
      }
      assert n.lines + Reversed(n.undoHistory) == s.lines + Reversed(s.undoHistory);
      assert n.(lines := s.lines, undoHistory := s.undoHistory) == s;
      HistoryStepKeepsLines(s, events[0]);
      HistoryRunConserves(n, events[1..]);
      assert Run(s, events) == Run(n, events[1..]);
    }
  }

  function Repeat(e: Event, k: nat): (r: seq<Event>)
    ensures |r| == k && forall i :: 0 <= i < k ==> r[i] == e
  {
    if k == 0 then [] else [e] + Repeat(e, k - 1)
  }

  /** k undos followed by k redos restore the state, when there were k lines to undo. */
  lemma {:induction false} UndoRedoRepeat(s: State, k: nat)
    requires k <= |s.lines|
    ensures Run(s, Repeat(Undo, k) + Repeat(Redo, k)) == s
    decreases k
  {
    if k > 0 {
      var u := OnUndo(s);
      assert Repeat(Redo, k) == Repeat(Redo, k - 1) + [Redo];
      var mid := Repeat(Undo, k - 1) + Repeat(Redo, k - 1);
      assert Repeat(Undo, k) + Repeat(Redo, k) == [Undo] + mid + [Redo];
      calc {
        Run(s, [Undo] + mid + [Redo]);
        { RunAppend(s, [Undo] + mid, [Redo]); }
        Run(Run(s, [Undo] + mid), [Redo]);
        { RunAppend(s, [Undo], mid); RunOne(s, Undo); }
        Run(Run(u, mid), [Redo]);
        { UndoRedoRepeat(u, k - 1); }
        Run(u, [Redo]);
        { RunOne(u, Redo); UndoThenRedo(s); }
        s;
      }
    }
  }

  // ----- drawing gestures -----

  /** The flat coordinates of a list of (x, y) samples. */
  function Flatten(moves: seq<(int, int)>): (r: seq<int>)
    ensures |r| == 2 * |moves|
  {
    if moves == [] then [] else Flatten(moves[..|moves| - 1]) + [Last(moves).0, Last(moves).1]
  }

  /** One mouse-move event per sample. */
  function Moves(moves: seq<(int, int)>): (r: seq<Event>)
    ensures |r| == |moves|
  {
    seq(|moves|, i requires 0 <= i < |moves| => MouseMove(moves[i].0, moves[i].1))
  }

  /** What the moves of one gesture append: one line per move, the i-th holding the
      press point and the first i + 1 samples, all in one colour and width. */
  function GestureLines(start: seq<int>, moves: seq<(int, int)>, color: string, size: int): (r: seq<Line>)
    ensures |r| == |moves|
  {
    seq(|moves|, i requires 0 <= i < |moves| => Line(start + Flatten(moves[..i + 1]), color, size))
  }

  /** While drawing, k moves append k lines and extend linePoints by every sample. */
  lemma {:induction false} DragRun(s: State, moves: seq<(int, int)>)
    requires s.isDrawing
    ensures Run(s, Moves(moves)) ==
      s.(lines := s.lines + GestureLines(s.linePoints, moves, s.brushColor, s.brushSize),
         linePoints := s.linePoints + Flatten(moves))
    decreases |moves|
  {
    if moves == [] {
      assert s.lines + GestureLines(s.linePoints, moves, s.brushColor, s.brushSize) == s.lines;
      assert s.linePoints + Flatten(moves) == s.linePoints;
    } else {
      var init := moves[..|moves| - 1];
      var m := Last(moves);
      assert Moves(moves) == Moves(init) + [MouseMove(m.0, m.1)];
      RunAppend(s, Moves(init), [MouseMove(m.0, m.1)]);
      DragRun(s, init);
      var t := Run(s, Moves(init));
      RunOne(t, MouseMove(m.0, m.1));
      var g := GestureLines(s.linePoints, init, s.brushColor, s.brushSize);
      var G := GestureLines(s.linePoints, moves, s.brushColor, s.brushSize);
      assert moves[..|moves|] == moves;
      forall i | 0 <= i < |init|
        ensures G[i] == g[i]
      {
        assert moves[..i + 1] == init[..i + 1];
      }
      assert G == g + [Line(s.linePoints + Flatten(moves), s.brushColor, s.brushSize)];
      assert s.linePoints + Flatten(moves) == (s.linePoints + Flatten(init)) + [m.0, m.1];
    }
  }

  /** A whole gesture (press, k moves, release) appends exactly the k snapshot lines,
      keeps every earlier line, empties the redo pool and ends not drawing. */
  lemma Gesture(s: State, x: int, y: int, moves: seq<(int, int)>)
    ensures var t := Run(s, [MouseDown(x, y)] + Moves(moves) + [MouseUp]);
      && t.lines == s.lines + GestureLines([x, y], moves, s.brushColor, s.brushSize)
      && |t.lines| == |s.lines| + |moves|
      && t.undoHistory == []
      && !t.isDrawing
      && t.images == s.images
  {
    var d := OnMouseDown(s, x, y);
    RunAppend(s, [MouseDown(x, y)] + Moves(moves), [MouseUp]);
    RunAppend(s, [MouseDown(x, y)], Moves(moves));
    RunOne(s, MouseDown(x, y));
    DragRun(d, moves);
    RunOne(Run(d, Moves(moves)), MouseUp);
  }

  /** Pressing and releasing without moving adds no line. */
  lemma PressReleaseAddsNoLine(s: State, x: int, y: int)
    ensures Run(s, [MouseDown(x, y), MouseUp]).lines == s.lines
  {
    Gesture(s, x, y, []);
    assert [MouseDown(x, y)] + Moves([]) + [MouseUp] == [MouseDown(x, y), MouseUp];
  }

  /** The points of the i-th line of a gesture: the press point, then samples 0..i. */
  lemma {:induction false} GestureLineShape(start: seq<int>, moves: seq<(int, int)>, color: string, size: int, i: nat)
    requires i < |moves|
    ensures var l := GestureLines(start, moves, color, size)[i];
      && |l.points| == |start| + 2 * (i + 1)
      && l.points[..|start|] == start
      && l.points[|l.points| - 2..] == [moves[i].0, moves[i].1]
      && l.color == color && l.size == size
  {
  }

  // ----- images -----

  /** With the invariant in place, the bulk toggle negates each image's own flag. */
  lemma ToggleNegatesEach(s: State)
    requires AllDraggable(s.images, s.draggableImages)
    ensures var r := OnToggleDraggable(s);
      forall i :: 0 <= i < |s.images| ==>
        r.images[i] == s.images[i].(draggable := !s.images[i].draggable)
  {
  }

  /** With the invariant in place, toggling twice restores the state. */
  lemma ToggleTwice(s: State)
    requires AllDraggable(s.images, s.draggableImages)
    ensures OnToggleDraggable(OnToggleDraggable(s)) == s
  {
  }

  /** splice with -1 removes the last image, not nothing. */
  lemma DeleteMinusOneDropsLast(s: State)
    requires |s.images| > 0
    ensures OnDeleteImage(s, -1).images == s.images[..|s.images| - 1]
  {
  }

  // ----- the state invariant -----

  /** One event the UI can deliver keeps the invariant. */
  lemma MoveKeepsValid(s: State, x: int, y: int)
    requires Valid(s)
    ensures Valid(OnMouseMove(s, x, y))
  {
    var r := OnMouseMove(s, x, y);
    if s.isDrawing {
      assert WellFormedLine(Last(r.lines));
      assert forall i :: 0 <= i < |s.lines| ==> r.lines[i] == s.lines[i];
    }
  }

  lemma UndoKeepsValid(s: State)
    requires Valid(s)
    ensures Valid(OnUndo(s))
  {
    var r := OnUndo(s);
    if |s.lines| > 0 {
      assert forall i :: 0 <= i < |r.lines| ==> r.lines[i] == s.lines[i];
      assert WellFormedLine(Last(r.undoHistory));
    }
  }

  lemma RedoKeepsValid(s: State)
    requires Valid(s)
    ensures Valid(OnRedo(s))
  {
    var r := OnRedo(s);
    if |s.undoHistory| > 0 {
      assert forall i :: 0 <= i < |r.undoHistory| ==> r.undoHistory[i] == s.undoHistory[i];
      assert WellFormedLine(Last(r.lines));
    }
  }

  lemma DeleteImageKeepsValid(s: State, index: int)
    requires Valid(s)
    ensures Valid(OnDeleteImage(s, index))
  {
    var r := OnDeleteImage(s, index);
    assert forall j :: 0 <= j < |r.images| ==> r.images[j] in s.images;
  }

  /** One event the UI can deliver keeps the invariant. */
  lemma StepPreservesValid(s: State, e: Event)
    requires Valid(s) && Allowed(e)
    ensures Valid(Step(s, e))
  {
    match e {
      case MouseMove(x, y) => MoveKeepsValid(s, x, y);
      case Undo => UndoKeepsValid(s);
      case Redo => RedoKeepsValid(s);
      case DeleteImage(i) => DeleteImageKeepsValid(s, i);
      case ToggleDraggable =>
      case ImageLoaded(img) =>
      case MouseDown(x, y) =>
      case MouseUp =>
      case Delete =>
      case BrushColor(c) =>
      case BrushSize(n) =>
      case ImageSize(n) =>
    }
  }

  /** Every state reached from a valid one by events the UI can deliver is valid:
      every image's flag equals the global flag, every stored line has an even number
      of at least four coordinates, a palette colour and a width in 1..9. */
  lemma {:induction false} RunPreservesValid(s: State, events: seq<Event>)
    requires Valid(s)
    requires forall i :: 0 <= i < |events| ==> Allowed(events[i])
    ensures Valid(Run(s, events))
    decreases |events|
  {
    if events != [] {
      StepPreservesValid(s, events[0]);
      RunPreservesValid(Step(s, events[0]), events[1..]);
    }
  }

  // ----- worked scenarios -----

  /** Press at (10,10), move to (20,10) and (20,20), release: two lines, one per move,
      then undo and redo restore them. */
  lemma ThreePointStroke()
    ensures var t := Run(Initial(), [MouseDown(10, 10), MouseMove(20, 10), MouseMove(20, 20), MouseUp]);
      && t.lines == [Line([10, 10, 20, 10], "#000000", 3), Line([10, 10, 20, 10, 20, 20], "#000000", 3)]
      && OnUndo(t).lines == [Line([10, 10, 20, 10], "#000000", 3)]
      && OnRedo(OnUndo(t)) == t
  {
    var press := [MouseDown(10, 10), MouseMove(20, 10)];
    var release := [MouseMove(20, 20), MouseUp];
    assert press + release == [MouseDown(10, 10), MouseMove(20, 10), MouseMove(20, 20), MouseUp];
    RunAppend(Initial(), press, release);
    RunTwo(Initial(), MouseDown(10, 10), MouseMove(20, 10));
    var d := OnMouseDown(Initial(), 10, 10);
    assert d.isDrawing && d.lines == [] && d.brushColor == "#000000" && d.brushSize == 3;
    assert d.linePoints + [20, 10] == [10, 10, 20, 10];
    var a := Run(Initial(), press);
    assert a == OnMouseMove(d, 20, 10);
    assert a.lines == [Line([10, 10, 20, 10], "#000000", 3)] && a.linePoints == [10, 10, 20, 10];
    RunTwo(a, MouseMove(20, 20), MouseUp);
    assert a.linePoints + [20, 20] == [10, 10, 20, 10, 20, 20];
    var t := Run(a, release);
    assert t.lines == [Line([10, 10, 20, 10], "#000000", 3), Line([10, 10, 20, 10, 20, 20], "#000000", 3)];
    UndoThenRedo(t);
  }

  /** A line keeps the colour and width current when it was drawn, whatever the
      brush is set to afterwards. */
  lemma BrushChangesDoNotTouchLines(s: State, x: int, y: int, c: string, n: int)
    ensures var t := Run(s, [BrushColor(COLORS[1]), BrushSize(7), MouseDown(x, y), MouseMove(x + 1, y), MouseUp, BrushColor(c), BrushSize(n)]);
      && |t.lines| == |s.lines| + 1
      && Last(t.lines) == Line([x, y, x + 1, y], "#FF0000", 7)
  {
    var setBrush := [BrushColor(COLORS[1]), BrushSize(7)];
    var gesture := [MouseDown(x, y)] + Moves([(x + 1, y)]) + [MouseUp];
    var later := [BrushColor(c), BrushSize(n)];
    assert setBrush + gesture + later
        == [BrushColor(COLORS[1]), BrushSize(7), MouseDown(x, y), MouseMove(x + 1, y), MouseUp, BrushColor(c), BrushSize(n)];
    RunAppend(s, setBrush + gesture, later);
    RunAppend(s, setBrush, gesture);
    var a := Run(s, setBrush);
    RunTwo(s, BrushColor(COLORS[1]), BrushSize(7));
    assert a == OnBrushSize(OnBrushColor(s, COLORS[1]), 7);
    Gesture(a, x, y, [(x + 1, y)]);
    var g := Run(a, gesture);
    assert [(x + 1, y)][..1] == [(x + 1, y)] && [(x + 1, y)][..0] == [];
    assert Flatten([(x + 1, y)]) == [x + 1, y];
    assert GestureLines([x, y], [(x + 1, y)], "#FF0000", 7)[0].points == [x, y, x + 1, y];
    RunTwo(g, BrushColor(c), BrushSize(n));
    assert Run(g, later) == OnBrushSize(OnBrushColor(g, c), n);
  }
}
