/**
 * PinAdapter: the grid cell's placeholder rotation, the height it asks for,
 * its placeholder and delayed-spinner state, and the list diffing rules.
 */
module Adapter {
  import opened Optional
  import opened KotlinInt
  import opened Models

  const MIN_ITEM_HEIGHT: int := 200

  predicate IsEven(x: int) {
    Rem(x, 2) == 0
  }

  /**
   * The placeholder's rotation for the cell at `position`: +45 when its
   * column and row have the same parity, -45 otherwise, and +45 when there
   * is no usable span count.
   */
  function OrientationToggle(spanCount: int, position: int): (r: int)
    ensures r == 45 || r == -45
    ensures spanCount <= 0 ==> r == 45
    ensures spanCount > 0 ==>
      (r == 45 <==> IsEven(Rem(position, spanCount)) == IsEven(Div(position, spanCount)))
  {
    if spanCount > 0 then
      var column := Rem(position, spanCount);
      var row := Div(position, spanCount);
      var base := if IsEven(column) then 45 else -45;
      if IsEven(row) then base else -base
    else
      45
  }

  /** Stepping from one integer to the next flips its parity. */
  lemma ParityFlips(x: int)
    requires x >= 0
    ensures IsEven(x + 1) <==> !IsEven(x)
  {
    assert Rem(x, 2) == x % 2;
    assert Rem(x + 1, 2) == (x + 1) % 2;
  }

  /** A non-zero multiple of a positive `b` is at least `b` away from zero. */
  lemma MultipleBounds(k: int, b: int)
    requires b > 0
    ensures k >= 1 ==> k * b >= b
    ensures k <= -1 ==> k * b <= -b
  {
    if k >= 1 {
      assert k * b == (k - 1) * b + b;
    } else if k <= -1 {
      assert k * b == (k + 1) * b - b;
    }
  }

  /** Quotient and remainder are the unique `q`, `r` with `a == q * b + r` and `0 <= r < b`. */
  lemma DivisionUnique(a: int, b: int, q: int, r: int)
    requires b > 0 && 0 <= r < b && a == q * b + r
    ensures a / b == q && a % b == r
  {
    var q0 := a / b;
    var r0 := a % b;
    assert (q - q0) * b == r0 - r;
    MultipleBounds(q - q0, b);
  }

  /** Within a row, the next cell's column is one more and its row is the same. */
  lemma NextInRow(spanCount: int, position: int)
    requires spanCount > 0 && position >= 0
    requires Rem(position, spanCount) < spanCount - 1
    ensures Div(position + 1, spanCount) == Div(position, spanCount)
    ensures Rem(position + 1, spanCount) == Rem(position, spanCount) + 1
  {
    var q := position / spanCount;
    var r := position % spanCount;
    assert Rem(position, spanCount) == r;
    DivisionUnique(position + 1, spanCount, q, r + 1);
  }

  /** The cell one row further down is in the same column and the next row. */
  lemma NextRow(spanCount: int, position: int)
    requires spanCount > 0 && position >= 0
    ensures Div(position + spanCount, spanCount) == Div(position, spanCount) + 1
    ensures Rem(position + spanCount, spanCount) == Rem(position, spanCount)
  {
    var q := position / spanCount;
    var r := position % spanCount;
    assert Rem(position, spanCount) == r;
    assert position + spanCount == (q + 1) * spanCount + r;
    DivisionUnique(position + spanCount, spanCount, q + 1, r);
  }

  /** Neighbours in the same row lean opposite ways. */
  lemma {:induction false} RowNeighboursAlternate(spanCount: int, position: int)
    requires spanCount > 1 && position >= 0
    requires Rem(position, spanCount) < spanCount - 1
    ensures OrientationToggle(spanCount, position + 1) == -OrientationToggle(spanCount, position)
  {
    NextInRow(spanCount, position);
    ParityFlips(Rem(position, spanCount));
  }

  /** Neighbours in the same column lean opposite ways: together, a checkerboard. */
  lemma {:induction false} ColumnNeighboursAlternate(spanCount: int, position: int)
    requires spanCount > 0 && position >= 0
    ensures OrientationToggle(spanCount, position + spanCount) == -OrientationToggle(spanCount, position)
  {
    NextRow(spanCount, position);
    ParityFlips(Div(position, spanCount));
  }

  /** The image size the cell's aspect ratio comes from: the thumbnail's, falling back field by field to the original's. */
  function AspectSource(image: PinryImage): (wh: (Option<int>, Option<int>))
    ensures image.thumbnail.Some? && image.thumbnail.value.width.Some? ==> wh.0 == image.thumbnail.value.width
    ensures image.thumbnail.Some? && image.thumbnail.value.height.Some? ==> wh.1 == image.thumbnail.value.height
    ensures image.thumbnail.Some? && image.thumbnail.value.width.None? ==> wh.0 == image.width
    ensures image.thumbnail.Some? && image.thumbnail.value.height.None? ==> wh.1 == image.height
    ensures image.thumbnail.None? ==> wh == (image.width, image.height)
    ensures wh.0.None? ==> image.width.None?
    ensures wh.1.None? ==> image.height.None?
  {
    var t := image.thumbnail;
    var w := if t.Some? && t.value.width.Some? then t.value.width else image.width;
    var h := if t.Some? && t.value.height.Some? then t.value.height else image.height;
    (w, h)
  }

  /** The first positive of the image view's width, its measured width and the cell's width. */
  function MeasuredWidth(viewWidth: int, viewMeasuredWidth: int, itemWidth: int): (r: Option<int>)
    ensures r.Some? ==> r.value > 0
    ensures r.None? <==> viewWidth <= 0 && viewMeasuredWidth <= 0 && itemWidth <= 0
    ensures viewWidth > 0 ==> r == Some(viewWidth)
    ensures viewWidth <= 0 && viewMeasuredWidth > 0 ==> r == Some(viewMeasuredWidth)
    ensures viewWidth <= 0 && viewMeasuredWidth <= 0 && itemWidth > 0 ==> r == Some(itemWidth)
    ensures r.Some? ==> r.value in {viewWidth, viewMeasuredWidth, itemWidth}
  {
    if viewWidth > 0 then Some(viewWidth)
    else if viewMeasuredWidth > 0 then Some(viewMeasuredWidth)
    else if itemWidth > 0 then Some(itemWidth)
    else None
  }

  /**
   * The cell height for a view `measuredWidth` wide showing a `width` x
   * `height` image: the same aspect ratio, but never under 200. The product
   * is an `Int` product, so it wraps around.
   */
  function ItemHeight(measuredWidth: int, width: int, height: int): (h: int)
    requires measuredWidth > 0 && width > 0
    ensures h >= MIN_ITEM_HEIGHT
    ensures IsInt(measuredWidth * height) && (measuredWidth * height) / width >= MIN_ITEM_HEIGHT ==>
      h == (measuredWidth * height) / width
    ensures IsInt(measuredWidth * height) && height >= 0 && (measuredWidth * height) / width < MIN_ITEM_HEIGHT ==>
      h == MIN_ITEM_HEIGHT
  {
    var scaled := Div(Wrap(measuredWidth * height), width);
    if scaled < MIN_ITEM_HEIGHT then MIN_ITEM_HEIGHT else scaled
  }

  /**
   * The height the posted layout pass sets, if any: only when the aspect
   * source has positive width and height, a positive width was measured, and
   * the result differs from the current height.
   */
  function PostedHeight(image: PinryImage, viewWidth: int, viewMeasuredWidth: int, itemWidth: int, currentHeight: int): (r: Option<int>)
    ensures r.Some? ==> r.value >= MIN_ITEM_HEIGHT && r.value != currentHeight
    ensures r.Some? ==>
      var (w, h) := AspectSource(image);
      var m := MeasuredWidth(viewWidth, viewMeasuredWidth, itemWidth);
      w.Some? && h.Some? && w.value > 0 && h.value > 0 && m.Some? &&
      r.value == ItemHeight(m.value, w.value, h.value)
    ensures
      var (w, h) := AspectSource(image);
      var m := MeasuredWidth(viewWidth, viewMeasuredWidth, itemWidth);
      w.Some? && h.Some? && w.value > 0 && h.value > 0 && m.Some? ==>
        (r.Some? <==> ItemHeight(m.value, w.value, h.value) != currentHeight)
    ensures r.None? && currentHeight < MIN_ITEM_HEIGHT ==>
      var (w, h) := AspectSource(image);
      !(w.Some? && h.Some? && w.value > 0 && h.value > 0) || MeasuredWidth(viewWidth, viewMeasuredWidth, itemWidth).None?
  {
    var (w, h) := AspectSource(image);
    if w.Some? && h.Some? && w.value > 0 && h.value > 0 then
      var measured := MeasuredWidth(viewWidth, viewMeasuredWidth, itemWidth);
      if measured.Some? then
        var calculated := ItemHeight(measured.value, w.value, h.value);
        if calculated != currentHeight then Some(calculated) else None
      else None
    else None
  }

  /** `DiffCallback.areItemsTheSame`: the same pin id. */
  predicate AreItemsTheSame(oldItem: PinryPin, newItem: PinryPin)
    ensures oldItem == newItem ==> AreItemsTheSame(oldItem, newItem)
  {
    oldItem.id == newItem.id
  }

  /** `DiffCallback.areContentsTheSame`: equal in every field, so also the same item. */
  predicate AreContentsTheSame(oldItem: PinryPin, newItem: PinryPin)
    ensures AreContentsTheSame(oldItem, newItem) ==> AreItemsTheSame(oldItem, newItem)
  {
    oldItem == newItem
  }

  /** A grid cell's placeholder and its delayed spinner. */
  class PinViewHolder {
    var placeholderVisible: bool
    var placeholderRotation: int
    var spinnerVisible: bool
    /** A posted spinner runnable that has not run yet. */
    var spinnerScheduled: bool
    /** The image request asked for a crossfade. */
    var crossfade: bool

    /** A scheduled spinner is not showing yet. */
    predicate Valid()
      reads this
    {
      !(spinnerScheduled && spinnerVisible)
    }

    constructor ()
      ensures Valid() && !spinnerVisible && !spinnerScheduled
    {
      placeholderVisible := false;
      placeholderRotation := 0;
      spinnerVisible := false;
      spinnerScheduled := false;
      crossfade := false;
    }

    /** `stopSpinner`: the pending runnable is removed and the spinner hidden. */
    method StopSpinner()
      modifies this
      ensures Valid() && !spinnerVisible && !spinnerScheduled
      ensures placeholderVisible == old(placeholderVisible) && placeholderRotation == old(placeholderRotation)
      ensures crossfade == old(crossfade)
    {
      spinnerScheduled := false;
      spinnerVisible := false;
    }

    /** `prepareSpinner`: the spinner is hidden and shows only if the delay passes first. */
    method PrepareSpinner()
      modifies this
      ensures Valid() && !spinnerVisible && spinnerScheduled
      ensures placeholderVisible == old(placeholderVisible) && placeholderRotation == old(placeholderRotation)
      ensures crossfade == old(crossfade)
    {
      StopSpinner();
      spinnerScheduled := true;
    }

    /**
     * `bind` for the cell at `position`: without a loaded image the rotated
     * placeholder shows and the spinner is scheduled; with one, both are hidden.
     */
    method Bind(spanCount: int, position: int, hasImage: bool)
      modifies this
      ensures Valid()
      ensures !hasImage ==>
        placeholderVisible && placeholderRotation == OrientationToggle(spanCount, position)
        && spinnerScheduled && !spinnerVisible
      ensures hasImage ==>
        !placeholderVisible && !spinnerScheduled && !spinnerVisible && placeholderRotation == old(placeholderRotation)
      ensures crossfade == !hasImage
    {
      var orientationToggle := OrientationToggle(spanCount, position);
      if !hasImage {
        placeholderVisible := true;
        placeholderRotation := orientationToggle;
        PrepareSpinner();
      } else {
        StopSpinner();
        placeholderVisible := false;
      }
      crossfade := !hasImage;
    }

    /** The delay passed before the image arrived: the spinner shows. */
    method SpinnerDelayElapsed()
      requires Valid() && spinnerScheduled
      modifies this
      ensures Valid() && spinnerVisible && !spinnerScheduled
      ensures placeholderVisible == old(placeholderVisible) && placeholderRotation == old(placeholderRotation)
      ensures crossfade == old(crossfade)
    {
      spinnerScheduled := false;
      spinnerVisible := true;
    }

    /** The image loaded: spinner and placeholder go, and no late spinner can appear. */
    method LoadSucceeded()
      modifies this
      ensures Valid() && !spinnerVisible && !spinnerScheduled && !placeholderVisible
      ensures placeholderRotation == old(placeholderRotation) && crossfade == old(crossfade)
    {
      StopSpinner();
      placeholderVisible := false;
    }

    /** The image failed: the spinner goes and the placeholder stays. */
    method LoadFailed()
      modifies this
      ensures Valid() && !spinnerVisible && !spinnerScheduled && placeholderVisible
      ensures placeholderRotation == old(placeholderRotation) && crossfade == old(crossfade)
    {
      StopSpinner();
      placeholderVisible := true;
    }
  }
}
