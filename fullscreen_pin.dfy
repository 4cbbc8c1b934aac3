/**
 * FullscreenPinDialogFragment: the pager over the gallery's pins, the tag
 * button and tag list of the current pin, the auto-hiding controls and the
 * share button.
 */
module Fullscreen {
  import opened Optional
  import opened Models
  import opened ImageShare

  /** A pin's tags, an absent list being empty. */
  function PinTags(pin: PinryPin): (r: seq<string>)
    ensures pin.tags.Some? ==> r == pin.tags.value
    ensures pin.tags.None? ==> r == []
  {
    pin.tags.GetOr([])
  }

  /** The tag button, the tag list's visibility and the tags the list holds. */
  datatype TagControls = TagControls(buttonEnabled: bool, listVisible: bool, shown: seq<string>)

  /**
   * `updateTagsForCurrentPin`: with a current pin, the button is enabled
   * exactly when the pin has tags; a pin with tags fills the list and shows
   * it if tags are toggled on, a pin without hides it. Past the end of the
   * list nothing changes.
   */
  function TagsForCurrentPin(pins: seq<PinryPin>, current: nat, tagsVisible: bool, c: TagControls): (r: TagControls)
    ensures current >= |pins| ==> r == c
    ensures current < |pins| ==> (r.buttonEnabled <==> PinTags(pins[current]) != [])
    ensures current < |pins| && PinTags(pins[current]) == [] ==> !r.listVisible && r.shown == c.shown
    ensures current < |pins| && PinTags(pins[current]) != [] ==>
      r.shown == PinTags(pins[current]) && r.listVisible == (tagsVisible || c.listVisible)
  {
    if current < |pins| then
      var tags := PinTags(pins[current]);
      if tags != [] then TagControls(true, if tagsVisible then true else c.listVisible, tags)
      else TagControls(false, false, c.shown)
    else c
  }

  /**
   * `updateTagsVisibility` after a toggle: for a current pin with tags the
   * list follows the toggle (the fade-out's end is taken as done); otherwise
   * nothing changes.
   */
  function TagsAfterToggle(pins: seq<PinryPin>, current: nat, tagsVisible: bool, c: TagControls): (r: TagControls)
    ensures current < |pins| && PinTags(pins[current]) != [] ==> r == c.(listVisible := tagsVisible)
    ensures !(current < |pins| && PinTags(pins[current]) != []) ==> r == c
  {
    if current < |pins| && PinTags(pins[current]) != [] then c.(listVisible := tagsVisible) else c
  }

  /** The controls' agreement with the current pin that every update restores. */
  ghost predicate TagsAgree(pins: seq<PinryPin>, current: nat, c: TagControls) {
    current < |pins| ==>
      (c.buttonEnabled <==> PinTags(pins[current]) != []) && (PinTags(pins[current]) == [] ==> !c.listVisible)
  }

  lemma TagsForCurrentPinAgrees(pins: seq<PinryPin>, current: nat, tagsVisible: bool, c: TagControls)
    ensures TagsAgree(pins, current, TagsForCurrentPin(pins, current, tagsVisible, c))
  {
  }

  /** A toggle keeps the controls in agreement with the pin. */
  lemma TagsAfterToggleAgrees(pins: seq<PinryPin>, current: nat, tagsVisible: bool, c: TagControls)
    requires TagsAgree(pins, current, c)
    ensures TagsAgree(pins, current, TagsAfterToggle(pins, current, tagsVisible, c))
  {
  }

  /** Where the pager lands when it jumps to `initialIndex`: the pager clamps a negative item to 0. */
  function JumpTarget(initialIndex: int): (r: nat)
    ensures initialIndex >= 0 ==> r == initialIndex
    ensures initialIndex < 0 ==> r == 0
  {
    if initialIndex < 0 then 0 else initialIndex
  }

  class FullscreenPinDialog {
    /** The gallery's list as last observed. */
    var pins: seq<PinryPin>
    /** The pager adapter's own copy. */
    var items: seq<PinryPin>
    var currentItem: nat
    const initialIndex: int
    var tagsVisible: bool
    var uiVisible: bool
    var tags: TagControls
    var hideTimerPending: bool
    var dismissed: bool

    /**
     * The adapter mirrors the observed list, the controls stay visible
     * while tags are shown, and the tag controls agree with the current pin.
     */
    ghost predicate Valid()
      reads this
    {
      items == pins && (tagsVisible ==> uiVisible) && TagsAgree(pins, currentItem, tags)
    }

    /** The dialog as `onViewCreated` leaves it before the first list arrives. */
    constructor (initialIndex: int)
      ensures Valid() && this.initialIndex == initialIndex
      ensures items == [] && currentItem == 0 && !tagsVisible && uiVisible && hideTimerPending && !dismissed
    {
      this.initialIndex := initialIndex;
      pins := [];
      items := [];
      currentItem := 0;
      tagsVisible := false;
      uiVisible := true;
      tags := TagControls(true, false, []);
      hideTimerPending := true;
      dismissed := false;
    }

    /** `showUi` */
    method ShowUi()
      modifies this
      ensures uiVisible
      ensures pins == old(pins) && items == old(items) && currentItem == old(currentItem)
      ensures tagsVisible == old(tagsVisible) && tags == old(tags)
      ensures hideTimerPending == old(hideTimerPending) && dismissed == old(dismissed)
    {
      if !uiVisible {
        uiVisible := true;
      }
    }

    /** `hideUi`: the controls hide only when shown and no tags are shown. */
    method HideUi()
      modifies this
      ensures uiVisible == (old(uiVisible) && old(tagsVisible))
      ensures pins == old(pins) && items == old(items) && currentItem == old(currentItem)
      ensures tagsVisible == old(tagsVisible) && tags == old(tags)
      ensures hideTimerPending == old(hideTimerPending) && dismissed == old(dismissed)
    {
      if uiVisible && !tagsVisible {
        uiVisible := false;
      }
    }

    /** `resetHideUiTimer`: show the controls and start a new three-second timer. */
    method ResetHideUiTimer()
      requires Valid()
      modifies this
      ensures Valid() && uiVisible && hideTimerPending
      ensures pins == old(pins) && items == old(items) && currentItem == old(currentItem)
      ensures tagsVisible == old(tagsVisible) && tags == old(tags) && dismissed == old(dismissed)
    {
      ShowUi();
      hideTimerPending := true;
    }

    /** The hide timer has run out. */
    method HideTimerFired()
      requires Valid() && hideTimerPending
      modifies this
      ensures Valid() && !hideTimerPending
      ensures uiVisible == old(tagsVisible)
      ensures pins == old(pins) && currentItem == old(currentItem) && tagsVisible == old(tagsVisible) && tags == old(tags)
    {
      hideTimerPending := false;
      HideUi();
    }

    /** `onPause` cancels the timer; `onResume` starts it again. */
    method OnPause()
      requires Valid()
      modifies this
      ensures Valid() && !hideTimerPending && uiVisible == old(uiVisible)
      ensures pins == old(pins) && currentItem == old(currentItem) && tagsVisible == old(tagsVisible) && tags == old(tags)
    {
      hideTimerPending := false;
    }

    /**
     * The pins observer: the adapter takes exactly the new list, the pager
     * jumps to `initialIndex` only when it was empty and the index is within
     * the new list, and the tag controls follow the current pin.
     */
    method OnPinsObserved(newPins: seq<PinryPin>)
      requires Valid()
      modifies this
      ensures Valid() && items == newPins && pins == newPins
      ensures currentItem == if old(items) == [] && initialIndex < |newPins| then JumpTarget(initialIndex) else old(currentItem)
      ensures tags == TagsForCurrentPin(newPins, currentItem, tagsVisible, old(tags))
      ensures tagsVisible == old(tagsVisible) && uiVisible == old(uiVisible) && hideTimerPending == old(hideTimerPending)
      ensures dismissed == old(dismissed)
    {
      var wasEmpty := |items| == 0;
      items := newPins;
      pins := newPins;
      if wasEmpty && initialIndex < |newPins| {
        currentItem := JumpTarget(initialIndex);
      }
      TagsForCurrentPinAgrees(pins, currentItem, tagsVisible, tags);
      tags := TagsForCurrentPin(pins, currentItem, tagsVisible, tags);
    }

    /** `onPageSelected`: the page becomes current, the tags follow it, and the timer restarts. */
    method OnPageSelected(position: nat)
      requires Valid()
      modifies this
      ensures Valid() && currentItem == position && uiVisible && hideTimerPending
      ensures tags == TagsForCurrentPin(pins, position, tagsVisible, old(tags))
      ensures pins == old(pins) && tagsVisible == old(tagsVisible)
    {
      currentItem := position;
      TagsForCurrentPinAgrees(pins, currentItem, tagsVisible, tags);
      tags := TagsForCurrentPin(pins, currentItem, tagsVisible, tags);
      ResetHideUiTimer();
    }

    /** `toggleTags`: flips the toggle; turning it on also restarts the timer and shows the controls. */
    method ToggleTags()
      requires Valid()
      modifies this
      ensures Valid() && tagsVisible == !old(tagsVisible)
      ensures tags == TagsAfterToggle(pins, currentItem, tagsVisible, old(tags))
      ensures tagsVisible ==> uiVisible && hideTimerPending
      ensures !tagsVisible ==> uiVisible == old(uiVisible) && hideTimerPending == old(hideTimerPending)
      ensures pins == old(pins) && currentItem == old(currentItem) && dismissed == old(dismissed)
    {
      tagsVisible := !tagsVisible;
      TagsAfterToggleAgrees(pins, currentItem, tagsVisible, tags);
      tags := TagsAfterToggle(pins, currentItem, tagsVisible, tags);
      if tagsVisible {
        ShowUi();
        hideTimerPending := true;
      }
    }

    /** `shareCurrentPin`: restarts the timer, and shares the current pin if there is one. */
    method ShareCurrentPin() returns (action: ShareAction)
      requires Valid()
      modifies this
      ensures Valid() && uiVisible && hideTimerPending
      ensures action == Ignore <==> old(currentItem) >= |old(pins)|
      ensures currentItem < |pins| ==> action == PinShareAction(pins[currentItem])
      ensures pins == old(pins) && currentItem == old(currentItem) && tagsVisible == old(tagsVisible)
    {
      ResetHideUiTimer();
      if currentItem < |pins| {
        action := PinShareAction(pins[currentItem]);
      } else {
        action := Ignore;
      }
    }

    /** A dismiss drag shows hidden controls and cancels the timer. */
    method DismissDragged()
      requires Valid()
      modifies this
      ensures Valid() && uiVisible
      ensures !old(uiVisible) ==> !hideTimerPending
      ensures old(uiVisible) ==> hideTimerPending == old(hideTimerPending)
      ensures pins == old(pins) && currentItem == old(currentItem) && tagsVisible == old(tagsVisible) && tags == old(tags)
    {
      if !uiVisible {
        ShowUi();
        hideTimerPending := false;
      }
    }

    /** `finalizeDismiss`: past the threshold the dialog closes, otherwise it snaps back with the controls shown. */
    method DismissReleased(pastThreshold: bool)
      requires Valid()
      modifies this
      ensures Valid()
      ensures pastThreshold ==> dismissed
      ensures !pastThreshold ==> uiVisible && hideTimerPending && dismissed == old(dismissed)
      ensures pins == old(pins) && currentItem == old(currentItem) && tagsVisible == old(tagsVisible) && tags == old(tags)
    {
      if pastThreshold {
        dismissed := true;
      } else {
        uiVisible := true;
        ResetHideUiTimer();
      }
    }

    /** The close button. */
    method CloseClicked()
      modifies this
      ensures dismissed
      ensures pins == old(pins) && currentItem == old(currentItem) && tagsVisible == old(tagsVisible) && tags == old(tags)
      ensures uiVisible == old(uiVisible) && items == old(items) && hideTimerPending == old(hideTimerPending)
    {
      dismissed := true;
    }
  }
}
