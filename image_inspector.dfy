/** The full-screen inspector (app/components/ImageInspector.tsx): zoom,
    pan and rotation state changed by button, mouse and wheel handlers.
    Zoom is an exact rational here; mouse coordinates are whole pixels. */
module ImageInspector {
  import opened Common

  const MinZoom: real := 0.25
  const MaxZoom: real := 5.0

  /** `(r + 90) % 360`. */
  function NextRotation(r: int): int
  {
    (r + 90) % 360
  }

  predicate IsQuarterTurn(r: int)
  {
    r == 0 || r == 90 || r == 180 || r == 270
  }

  /** Rotation stays a quarter turn, and four rotations come back to the start. */
  lemma {:induction false} RotationCycle(r: int)
    requires IsQuarterTurn(r)
    ensures IsQuarterTurn(NextRotation(r))
    ensures NextRotation(NextRotation(NextRotation(NextRotation(r)))) == r
    ensures NextRotation(r) != r
  {
  }

  class Inspector {
    var zoom: real
    var x: int
    var y: int
    var dragging: bool
    var dragX: int
    var dragY: int
    var rotation: int

    ghost predicate Valid()
      reads this
    {
      MinZoom <= zoom <= MaxZoom && IsQuarterTurn(rotation)
    }

    constructor ()
      ensures Valid()
      ensures zoom == 1.0 && x == 0 && y == 0 && !dragging && rotation == 0
    {
      zoom := 1.0;
      x, y := 0, 0;
      dragging := false;
      dragX, dragY := 0, 0;
      rotation := 0;
    }

    /** `handleZoomIn`: a quarter step up, at most 5. */
    method ZoomIn()
      requires Valid()
      modifies this
      ensures Valid()
      ensures zoom == MinReal(old(zoom) + 0.25, MaxZoom) && zoom >= old(zoom)
      ensures x == old(x) && y == old(y) && dragging == old(dragging) && rotation == old(rotation)
    {
      zoom := MinReal(zoom + 0.25, MaxZoom);
    }

    /** `handleZoomOut`: a quarter step down, at least 0.25. */
    method ZoomOut()
      requires Valid()
      modifies this
      ensures Valid()
      ensures zoom == MaxReal(old(zoom) - 0.25, MinZoom) && zoom <= old(zoom)
      ensures x == old(x) && y == old(y) && dragging == old(dragging) && rotation == old(rotation)
    {
      zoom := MaxReal(zoom - 0.25, MinZoom);
    }

    /** `handleReset`: zoom 1, no offset, no rotation; dragging is kept. */
    method Reset()
      requires Valid()
      modifies this
      ensures Valid()
      ensures zoom == 1.0 && x == 0 && y == 0 && rotation == 0
      ensures dragging == old(dragging) && dragX == old(dragX) && dragY == old(dragY)
    {
      zoom := 1.0;
      x, y := 0, 0;
      rotation := 0;
    }

    /** `handleRotate`: a quarter turn clockwise. */
    method Rotate()
      requires Valid()
      modifies this
      ensures Valid()
      ensures rotation == NextRotation(old(rotation))
      ensures zoom == old(zoom) && x == old(x) && y == old(y) && dragging == old(dragging)
    {
      RotationCycle(rotation);
      rotation := NextRotation(rotation);
    }

    /** `handleMouseDown`: dragging starts only on a zoomed-in image, and
        remembers the pointer relative to the current offset. */
    method MouseDown(clientX: int, clientY: int)
      requires Valid()
      modifies this
      ensures Valid()
      ensures dragging <==> old(dragging) || old(zoom) > 1.0
      ensures old(zoom) > 1.0 ==> dragX == clientX - x && dragY == clientY - y
      ensures old(zoom) <= 1.0 ==> dragX == old(dragX) && dragY == old(dragY)
      ensures zoom == old(zoom) && x == old(x) && y == old(y) && rotation == old(rotation)
    {
      if zoom > 1.0 {
        dragging := true;
        dragX, dragY := clientX - x, clientY - y;
      }
    }

    /** `handleMouseMove`: the offset follows the pointer only while
        dragging a zoomed-in image. */
    method MouseMove(clientX: int, clientY: int)
      requires Valid()
      modifies this
      ensures Valid()
      ensures dragging && zoom > 1.0 ==> x == clientX - dragX && y == clientY - dragY
      ensures !(dragging && zoom > 1.0) ==> x == old(x) && y == old(y)
      ensures zoom == old(zoom) && dragging == old(dragging) && rotation == old(rotation)
      ensures dragX == old(dragX) && dragY == old(dragY)
    {
      if dragging && zoom > 1.0 {
        x, y := clientX - dragX, clientY - dragY;
      }
    }

    /** `handleMouseUp`, also bound to mouse-leave: dragging ends. */
    method MouseUp()
      requires Valid()
      modifies this
      ensures Valid()
      ensures !dragging
      ensures zoom == old(zoom) && x == old(x) && y == old(y) && rotation == old(rotation)
    {
      dragging := false;
    }

    /** `handleWheel`: a positive `deltaY` zooms out by 0.1, anything else
        (0 included) zooms in by 0.1, within [0.25, 5]. */
    method Wheel(deltaY: real)
      requires Valid()
      modifies this
      ensures Valid()
      ensures deltaY > 0.0 ==> zoom == MaxReal(old(zoom) - 0.1, MinZoom) && zoom <= old(zoom)
      ensures deltaY <= 0.0 ==> zoom == MinReal(old(zoom) + 0.1, MaxZoom) && zoom >= old(zoom)
      ensures x == old(x) && y == old(y) && dragging == old(dragging) && rotation == old(rotation)
    {
      var delta := if deltaY > 0.0 then -0.1 else 0.1;
      zoom := MinReal(MaxReal(zoom + delta, MinZoom), MaxZoom);
    }
  }

  /** Pressing the mouse and moving it on an image at zoom 1 or less
      never moves the image. */
  method DragAtFitDoesNotPan(v: Inspector, x0: int, y0: int, x1: int, y1: int)
    requires v.Valid() && v.zoom <= 1.0 && !v.dragging
    modifies v
    ensures v.x == old(v.x) && v.y == old(v.y) && !v.dragging
  {
    v.MouseDown(x0, y0);
    v.MouseMove(x1, y1);
  }
}
