/**
 * PinSpacingItemDecoration: the gaps around each grid cell, written into the
 * caller's `Rect`.
 */
module Spacing {
  import opened Optional
  import opened KotlinInt

  /** `RecyclerView.NO_POSITION`. */
  const NO_POSITION: int := -1

  /** The four offsets of a cell. */
  datatype Insets = Insets(left: int, right: int, top: int, bottom: int)

  /**
   * The offsets of the cell at adapter `position` in span `column`: full
   * spacing on the grid's outer left and right edges and above the first
   * row, half spacing elsewhere, and always full spacing below.
   */
  function Offsets(spanCount: int, horizontal: int, vertical: int, position: int, column: int): (r: Insets)
    ensures r.left == (if column == 0 then horizontal else Div(horizontal, 2))
    ensures r.right == (if column == spanCount - 1 then horizontal else Div(horizontal, 2))
    ensures r.top == (if position < spanCount then vertical else Div(vertical, 2))
    ensures r.bottom == vertical
  {
    var halfHorizontal := Div(horizontal, 2);
    var halfVertical := Div(vertical, 2);
    Insets(
      if column == 0 then horizontal else halfHorizontal,
      if column == spanCount - 1 then horizontal else halfHorizontal,
      if position < spanCount then vertical else halfVertical,
      vertical)
  }

  /** With one column a cell gets the full spacing on both sides. */
  lemma SingleColumnFullSides(horizontal: int, vertical: int, position: int)
    ensures Offsets(1, horizontal, vertical, position, 0).left == horizontal
    ensures Offsets(1, horizontal, vertical, position, 0).right == horizontal
  {
  }

  /**
   * Every gap between two neighbouring columns is the same: twice the
   * truncated half spacing, which is the spacing itself when it is even.
   */
  lemma InnerGapsEqual(spanCount: int, horizontal: int, vertical: int, p: int, q: int, column: int)
    requires 0 <= column && column + 1 < spanCount
    ensures Offsets(spanCount, horizontal, vertical, p, column).right
          + Offsets(spanCount, horizontal, vertical, q, column + 1).left == 2 * Div(horizontal, 2)
    ensures horizontal >= 0 && horizontal % 2 == 0 ==> 2 * Div(horizontal, 2) == horizontal
  {
  }

  /** Android's mutable `Rect`. */
  class Rect {
    var left: int
    var right: int
    var top: int
    var bottom: int

    constructor (left: int, right: int, top: int, bottom: int)
      ensures Value() == Insets(left, right, top, bottom)
    {
      this.left := left;
      this.right := right;
      this.top := top;
      this.bottom := bottom;
    }

    function Value(): Insets
      reads this
    {
      Insets(left, right, top, bottom)
    }
  }

  class PinSpacingItemDecoration {
    const spanCount: int
    const horizontalSpacing: int
    const verticalSpacing: int

    constructor (spanCount: int, horizontalSpacing: int, verticalSpacing: int)
      ensures this.spanCount == spanCount && this.horizontalSpacing == horizontalSpacing
      ensures this.verticalSpacing == verticalSpacing
    {
      this.spanCount := spanCount;
      this.horizontalSpacing := horizontalSpacing;
      this.verticalSpacing := verticalSpacing;
    }

    /**
     * `getItemOffsets`: `spanIndex` is the staggered-grid span of the cell,
     * absent when its layout params are of another kind. A cell without a
     * position or without a span leaves the rectangle as it was.
     */
    method GetItemOffsets(outRect: Rect, position: int, spanIndex: Option<int>)
      modifies outRect
      ensures position == NO_POSITION || spanIndex.None? ==> outRect.Value() == old(outRect.Value())
      ensures position != NO_POSITION && spanIndex.Some? ==>
        outRect.Value() == Offsets(spanCount, horizontalSpacing, verticalSpacing, position, spanIndex.value)
    {
      if position == NO_POSITION {
        return;
      }
      if spanIndex.None? {
        return;
      }
      var column := spanIndex.value;
      var halfHorizontal := Div(horizontalSpacing, 2);
      var halfVertical := Div(verticalSpacing, 2);
      outRect.left := if column == 0 then horizontalSpacing else halfHorizontal;
      outRect.right := if column == spanCount - 1 then horizontalSpacing else halfHorizontal;
      outRect.top := if position < spanCount then verticalSpacing else halfVertical;
      outRect.bottom := verticalSpacing;
    }
  }
}
