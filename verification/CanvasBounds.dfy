/**
 * Where a canvas view stands in its window: the renderer's rectangle, scaled by the zoom
 * factor, rounded to whole pixels and clipped to the content area.
 */
module CanvasBounds {
  import opened Wrappers

  datatype Bounds = Bounds(x: Number, y: Number, width: Number, height: Number)

  datatype Rect = Rect(x: real, y: real, width: real, height: real)

  /** Half rounds up, as Math.round does. */
  function Round(value: real): (rounded: real)
    ensures value - 0.5 < rounded <= value + 0.5
    ensures rounded == rounded.Floor as real
  {
    (value + 0.5).Floor as real
  }

  function Max(a: real, b: real): real { if a < b then b else a }

  function Min(a: real, b: real): real { if a < b then a else b }

  predicate AllFinite(bounds: Bounds) {
    bounds.x.Finite? && bounds.y.Finite? && bounds.width.Finite? && bounds.height.Finite?
  }

  /** The exact edges before rounding. */
  function Left(bounds: Bounds, zoom: real): real requires AllFinite(bounds) { bounds.x.value * zoom }

  function Top(bounds: Bounds, zoom: real): real requires AllFinite(bounds) { bounds.y.value * zoom }

  function Right(bounds: Bounds, zoom: real): real requires AllFinite(bounds) {
    (bounds.x.value + bounds.width.value) * zoom
  }

  function Bottom(bounds: Bounds, zoom: real): real requires AllFinite(bounds) {
    (bounds.y.value + bounds.height.value) * zoom
  }

  predicate Near(a: real, b: real) {
    a - 0.5 <= b <= a + 0.5
  }

  /**
   * A shown rectangle is not empty, lies in the content area, and has each edge within
   * half a pixel of the exact clipped edge.
   */
  function NormalizeBounds(bounds: Bounds, zoomFactor: Number, contentWidth: real,
                           contentHeight: real): (shown: Option<Rect>)
    ensures shown.Some? ==> AllFinite(bounds) && zoomFactor.Finite?
    ensures shown.Some? ==>
              && 0.0 < shown.value.width && 0.0 < shown.value.height
              && 0.0 <= shown.value.x && shown.value.x + shown.value.width <= contentWidth
              && 0.0 <= shown.value.y && shown.value.y + shown.value.height <= contentHeight
    ensures shown.Some? ==>
              && Near(Max(0.0, Left(bounds, zoomFactor.value)), shown.value.x)
              && Near(Max(0.0, Top(bounds, zoomFactor.value)), shown.value.y)
              && Near(Min(contentWidth, Right(bounds, zoomFactor.value)), shown.value.x + shown.value.width)
              && Near(Min(contentHeight, Bottom(bounds, zoomFactor.value)), shown.value.y + shown.value.height)
  {
    if !AllFinite(bounds) || bounds.width.value <= 0.0 || bounds.height.value <= 0.0 ||
       zoomFactor.NotFinite? || zoomFactor.value <= 0.0 || contentWidth <= 0.0 || contentHeight <= 0.0 then None
    else
      var zoom := zoomFactor.value;
      var left, top, right, bottom := Left(bounds, zoom), Top(bounds, zoom), Right(bounds, zoom), Bottom(bounds, zoom);
      if right <= 0.0 || bottom <= 0.0 || left >= contentWidth || top >= contentHeight then None
      else
        var x, y := Max(0.0, Round(left)), Max(0.0, Round(top));
        var boundedRight, boundedBottom := Min(contentWidth, Round(right)), Min(contentHeight, Round(bottom));
        if boundedRight <= x || boundedBottom <= y then None
        else Some(Rect(x, y, boundedRight - x, boundedBottom - y))
  }

  /** Nothing is shown of valid bounds only when at most one pixel of them lies in the content area, across or down. */
  lemma HiddenRect(bounds: Bounds, zoom: Number, contentWidth: real, contentHeight: real)
    requires AllFinite(bounds) && zoom.Finite? && zoom.value > 0.0
    requires NormalizeBounds(bounds, zoom, contentWidth, contentHeight).None?
    requires bounds.width.value > 0.0 && bounds.height.value > 0.0 && contentWidth > 0.0 && contentHeight > 0.0
    ensures || Min(contentWidth, Right(bounds, zoom.value)) - Max(0.0, Left(bounds, zoom.value)) <= 1.0
            || Min(contentHeight, Bottom(bounds, zoom.value)) - Max(0.0, Top(bounds, zoom.value)) <= 1.0
  {
  }

  /** An edge two intervals share, one ending and one starting there, is rounded to the same place for both. */
  lemma EdgeMeets(edge: real, size: real, from: real, to: real)
    requires 0.0 <= from < Min(size, Round(edge))
    requires Max(0.0, Round(edge)) < to <= size
    ensures Min(size, Round(edge)) == Max(0.0, Round(edge))
  {
  }

  /**
   * Rectangles that share an edge, side by side or one above the other, are shown meeting at it: no
   * gap, no overlap.
   */
  lemma SharedEdge(first: Bounds, second: Bounds, zoom: Number, contentWidth: real, contentHeight: real)
    requires NormalizeBounds(first, zoom, contentWidth, contentHeight).Some?
    requires NormalizeBounds(second, zoom, contentWidth, contentHeight).Some?
    ensures var a, b := NormalizeBounds(first, zoom, contentWidth, contentHeight).value,
                        NormalizeBounds(second, zoom, contentWidth, contentHeight).value;
            && (Right(first, zoom.value) == Left(second, zoom.value) ==> a.x + a.width == b.x)
            && (Bottom(first, zoom.value) == Top(second, zoom.value) ==> a.y + a.height == b.y)
  {
    var a, b := NormalizeBounds(first, zoom, contentWidth, contentHeight).value,
                NormalizeBounds(second, zoom, contentWidth, contentHeight).value;
    var right, bottom := Right(first, zoom.value), Bottom(first, zoom.value);
    if right == Left(second, zoom.value) {
      EdgeMeets(right, contentWidth, a.x, b.x + b.width);
    }
    if bottom == Top(second, zoom.value) {
      EdgeMeets(bottom, contentHeight, a.y, b.y + b.height);
    }
  }
}
