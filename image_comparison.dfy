/** The side-by-side viewer (app/components/ImageComparison.tsx): a zoom
    level changed by two buttons and a slider position set by dragging the
    divider or by the range input. The panes take `slider` and
    `100 - slider` percent of the width. */
module ImageComparison {
  import opened Common

  const MinZoom: real := 0.5
  const MaxZoom: real := 3.0

  /** The divider position for a pointer `offset` pixels right of the
      container's left edge: the percentage of the width, clamped to [0, 100]. */
  function DragPercentage(offset: real, width: real): (p: real)
    requires width > 0.0
    ensures 0.0 <= p <= 100.0
    ensures 0.0 <= offset <= width ==> p * width == offset * 100.0
  {
    MaxReal(0.0, MinReal(100.0, offset / width * 100.0))
  }

  /** The pane widths, in percent. */
  function PaneWidths(slider: real): (real, real)
  {
    (slider, 100.0 - slider)
  }

  class Viewer {
    var zoom: real
    var slider: real

    ghost predicate Valid()
      reads this
    {
      MinZoom <= zoom <= MaxZoom && 0.0 <= slider <= 100.0
    }

    constructor ()
      ensures Valid() && zoom == 1.0 && slider == 50.0
    {
      zoom := 1.0;
      slider := 50.0;
    }

    /** `handleZoomIn`: a quarter step up, at most 3; at 3 nothing changes. */
    method ZoomIn()
      requires Valid()
      modifies this
      ensures Valid() && slider == old(slider)
      ensures zoom == MinReal(old(zoom) + 0.25, MaxZoom)
      ensures old(zoom) == MaxZoom ==> zoom == old(zoom)
    {
      zoom := MinReal(zoom + 0.25, MaxZoom);
    }

    /** `handleZoomOut`: a quarter step down, at least 0.5; at 0.5 nothing changes. */
    method ZoomOut()
      requires Valid()
      modifies this
      ensures Valid() && slider == old(slider)
      ensures zoom == MaxReal(old(zoom) - 0.25, MinZoom)
      ensures old(zoom) == MinZoom ==> zoom == old(zoom)
    {
      zoom := MaxReal(zoom - 0.25, MinZoom);
    }

    /** A pointer move while the divider is held. */
    method Drag(offset: real, width: real)
      requires Valid() && width > 0.0
      modifies this
      ensures Valid() && zoom == old(zoom)
      ensures slider == DragPercentage(offset, width)
    {
      slider := DragPercentage(offset, width);
    }

    /** The range input, whose value the browser keeps in [0, 100]. */
    method SetFromRange(value: real)
      requires Valid() && 0.0 <= value <= 100.0
      modifies this
      ensures Valid() && zoom == old(zoom) && slider == value
    {
      slider := value;
    }
  }

  /** The two panes always fill the width, and neither is negative for a
      slider in [0, 100]. */
  lemma PanesFillWidth(slider: real)
    requires 0.0 <= slider <= 100.0
    ensures PaneWidths(slider).0 + PaneWidths(slider).1 == 100.0
    ensures PaneWidths(slider).0 >= 0.0 && PaneWidths(slider).1 >= 0.0
  {
  }
}
