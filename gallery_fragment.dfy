/** GalleryFragment: the grid's span count and the long-press share of a pin. */
module GalleryScreen {
  import opened Optional
  import opened Models
  import opened ImageShare

  /** Three columns in landscape, two otherwise. */
  function SpanCount(landscape: bool): (n: int)
    ensures n > 0
    ensures n == 3 <==> landscape
    ensures n == 2 <==> !landscape
  {
    if landscape then 3 else 2
  }

  /**
   * `sharePin(position)`: no list or a position outside `[0, size)` does
   * nothing; otherwise the pin at that position is shared.
   */
  function SharePinAction(pins: Option<seq<PinryPin>>, position: int): (r: ShareAction)
    ensures r == Ignore <==> pins.None? || position < 0 || position >= |pins.value|
    ensures pins.Some? && 0 <= position < |pins.value| ==> r == PinShareAction(pins.value[position])
  {
    if pins.None? || position < 0 || position >= |pins.value| then Ignore
    else PinShareAction(pins.value[position])
  }

  /** A long press outside the list shows nothing, whatever the network would have said. */
  lemma OutOfRangeShowsNothing(pins: seq<PinryPin>, position: int, reply: DownloadReply, millis: int, saved: bool,
                               chooserError: Option<Option<string>>)
    requires position < 0 || position >= |pins|
    ensures ShareOutcome(SharePinAction(Some(pins), position), reply, millis, saved, chooserError).None?
  {
  }
}
