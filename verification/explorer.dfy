/**
 * The "Interactive Triangle Explorer" slide: three draggable vertices, the
 * drag selection (`isDragging`, `dragVertex`) and the reset button.
 *
 * The pointer position reaches `OnMouseMove` already normalised to the
 * 0..100 plane; the conversion from screen pixels is browser layout and is
 * not part of this model.
 */
module Explorer {
  import opened Geometry

  datatype Option<T> = None | Some(value: T)

  /** A dragged coordinate is kept inside this margin of the 0..100 plane. */
  const CanvasMin: real := 5.0
  const CanvasMax: real := 95.0

  /** The triangle the explorer starts with and that "Reset Triangle" restores. */
  const DefaultTriangle: Triangle := Triangle(Point(50.0, 20.0), Point(20.0, 80.0), Point(80.0, 80.0))

  function Min(x: real, y: real): real
  {
    if x <= y then x else y
  }

  function Max(x: real, y: real): real
  {
    if x >= y then x else y
  }

  /** `Math.max(5, Math.min(95, v))`. */
  function Clamp(v: real): (r: real)
    ensures CanvasMin <= r <= CanvasMax
    ensures CanvasMin <= v <= CanvasMax ==> r == v
    ensures v < CanvasMin ==> r == CanvasMin
    ensures v > CanvasMax ==> r == CanvasMax
  {
    Max(CanvasMin, Min(CanvasMax, v))
  }

  lemma ClampIdempotent(v: real)
    ensures Clamp(Clamp(v)) == Clamp(v)
  {
  }

  predicate InCanvas(p: Point)
  {
    CanvasMin <= p.x <= CanvasMax && CanvasMin <= p.y <= CanvasMax
  }

  predicate TriangleInCanvas(t: Triangle)
  {
    InCanvas(t.a) && InCanvas(t.b) && InCanvas(t.c)
  }

  /**
   * The vertex update of a mouse move while vertex `v` is dragged: `v` goes
   * to the pointer position with each coordinate clamped on its own, and
   * the other two vertices stay put.
   */
  function Drag(t: Triangle, v: Vertex, x: real, y: real): (t': Triangle)
    ensures t'.Get(v) == Point(Clamp(x), Clamp(y))
    ensures InCanvas(t'.Get(v))
    ensures forall w :: w != v ==> t'.Get(w) == t.Get(w)
    ensures TriangleInCanvas(t) ==> TriangleInCanvas(t')
  {
    t.With(v, Point(Clamp(x), Clamp(y)))
  }

  /** A pointer inside the margin places the dragged vertex exactly under it. */
  lemma DragInsideFollowsPointer(t: Triangle, v: Vertex, x: real, y: real)
    requires CanvasMin <= x <= CanvasMax && CanvasMin <= y <= CanvasMax
    ensures Drag(t, v, x, y).Get(v) == Point(x, y)
  {
  }

  /** Moving the pointer to the same place twice is the same as moving it there once. */
  lemma DragIdempotent(t: Triangle, v: Vertex, x: real, y: real)
    ensures Drag(Drag(t, v, x, y), v, x, y) == Drag(t, v, x, y)
  {
    var t1 := Drag(t, v, x, y);
    var t2 := Drag(t1, v, x, y);
    assert forall w :: t2.Get(w) == t1.Get(w);
    assert t2.Get(A) == t1.Get(A) && t2.Get(B) == t1.Get(B) && t2.Get(C) == t1.Get(C);
  }

  /** Where the pointer went before the last move does not matter. */
  lemma DragOverwrites(t: Triangle, v: Vertex, x0: real, y0: real, x: real, y: real)
    ensures Drag(Drag(t, v, x0, y0), v, x, y) == Drag(t, v, x, y)
  {
    var t1 := Drag(Drag(t, v, x0, y0), v, x, y);
    var t2 := Drag(t, v, x, y);
    assert t1.Get(A) == t2.Get(A) && t1.Get(B) == t2.Get(B) && t1.Get(C) == t2.Get(C);
  }

  lemma DefaultTriangleInCanvas()
    ensures TriangleInCanvas(DefaultTriangle)
    ensures VertexArea(DefaultTriangle) == 180.0
  {
  }

  /**
   * The explorer's React state: the vertices, whether a drag is in progress
   * and which vertex is being dragged (`null` is `None`).
   */
  class TriangleExplorer {
    var vertices: Triangle
    var isDragging: bool
    var dragVertex: Option<Vertex>

    /**
     * A vertex is selected exactly while a drag is in progress, and every
     * vertex lies inside the canvas margin.
     */
    ghost predicate Valid()
      reads this
    {
      (isDragging <==> dragVertex.Some?) && TriangleInCanvas(vertices)
    }

    constructor ()
      ensures Valid()
      ensures vertices == DefaultTriangle && !isDragging && dragVertex == None
    {
      vertices := DefaultTriangle;
      isDragging := false;
      dragVertex := None;
    }

    /** Pressing the mouse on vertex `v` selects it for dragging. */
    method OnMouseDown(v: Vertex)
      requires Valid()
      modifies this
      ensures Valid()
      ensures isDragging && dragVertex == Some(v)
      ensures vertices == old(vertices)
    {
      isDragging := true;
      dragVertex := Some(v);
    }

    /**
     * A move of the pointer to the normalised position (x, y): without a
     * drag in progress nothing changes; otherwise only the dragged vertex
     * moves, to the clamped position.
     */
    method OnMouseMove(x: real, y: real)
      requires Valid()
      modifies this
      ensures Valid()
      ensures isDragging == old(isDragging) && dragVertex == old(dragVertex)
      ensures !old(isDragging) || old(dragVertex).None? ==> vertices == old(vertices)
      ensures old(isDragging) && old(dragVertex).Some? ==>
        vertices == Drag(old(vertices), old(dragVertex).value, x, y)
    {
      if !isDragging || dragVertex.None? {
        return;
      }
      vertices := Drag(vertices, dragVertex.value, x, y);
    }

    /** Releasing the mouse ends any drag. */
    method OnMouseUp()
      requires Valid()
      modifies this
      ensures Valid()
      ensures !isDragging && dragVertex == None
      ensures vertices == old(vertices)
    {
      isDragging := false;
      dragVertex := None;
    }

    /** Leaving the drawing surface ends any drag, like releasing the mouse. */
    method OnMouseLeave()
      requires Valid()
      modifies this
      ensures Valid()
      ensures !isDragging && dragVertex == None
      ensures vertices == old(vertices)
    {
      isDragging := false;
      dragVertex := None;
    }

    /** "Reset Triangle" restores the starting vertices and leaves the selection alone. */
    method Reset()
      requires Valid()
      modifies this
      ensures Valid()
      ensures vertices == DefaultTriangle
      ensures isDragging == old(isDragging) && dragVertex == old(dragVertex)
    {
      vertices := DefaultTriangle;
    }
  }

  /**
   * Dragging vertex A to the pointer position (200, 50) and releasing it:
   * A is clamped to (95, 50), B and C keep their places and the drag ends.
   */
  method DragOffCanvas() returns (a: Point, b: Point, c: Point, dragging: bool)
    ensures a == Point(95.0, 50.0) && b == Point(20.0, 80.0) && c == Point(80.0, 80.0)
    ensures !dragging
  {
    var explorer := new TriangleExplorer();
    explorer.OnMouseDown(A);
    explorer.OnMouseMove(200.0, 50.0);
    explorer.OnMouseUp();
    a, b, c := explorer.vertices.a, explorer.vertices.b, explorer.vertices.c;
    dragging := explorer.isDragging;
  }
}
