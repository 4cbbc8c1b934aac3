/** The records the Pinry REST API returns, as immutable values. */
module Models {
  import opened Optional

  /** One resized variant of an image (thumbnail, square or standard). */
  datatype PinryImageSize = PinryImageSize(image: string, width: Option<int>, height: Option<int>) {

    /** The variant's address is its `image` field. */
    function Url(): (r: string)
      ensures r == image
    {
      image
    }
  }

  datatype PinryImage = PinryImage(
    id: Option<int>,
    image: Option<string>,
    width: Option<int>,
    height: Option<int>,
    thumbnail: Option<PinryImageSize>,
    square: Option<PinryImageSize>,
    standard: Option<PinryImageSize>)
  {
    /** True when the server sent none of the three resized variants. */
    predicate HasNoVariants() {
      thumbnail.None? && square.None? && standard.None?
    }

    /**
     * The preview address: the first variant present in the order thumbnail,
     * square, standard, and otherwise the full image.
     */
    function BestImageUrl(): (r: Option<string>)
      ensures thumbnail.Some? ==> r == Some(thumbnail.value.Url())
      ensures thumbnail.None? && square.Some? ==> r == Some(square.value.Url())
      ensures thumbnail.None? && square.None? && standard.Some? ==> r == Some(standard.value.Url())
      ensures HasNoVariants() ==> r == image
      ensures r.None? <==> HasNoVariants() && image.None?
    {
      if thumbnail.Some? then Some(thumbnail.value.Url())
      else if square.Some? then Some(square.value.Url())
      else if standard.Some? then Some(standard.value.Url())
      else image
    }

    /** The full-size address is the `image` field, whatever variants exist. */
    function FullSizeUrl(): (r: Option<string>)
      ensures r == image
      ensures HasNoVariants() ==> r == BestImageUrl()
    {
      image
    }
  }

  datatype PinrySubmitter = PinrySubmitter(
    username: Option<string>,
    email: Option<string>,
    token: Option<string>,
    gravatar: Option<string>,
    resourceLink: Option<string>)

  /** A pin; two pins are the same item when their ids are equal. */
  datatype PinryPin = PinryPin(
    id: int,
    url: Option<string>,
    description: Option<string>,
    image: PinryImage,
    submitter: Option<PinrySubmitter>,
    tags: Option<seq<string>>)

  /** The page envelope of `GET /api/v2/pins/`. */
  datatype PinryPinsResponse = PinryPinsResponse(
    count: int,
    next: Option<string>,
    previous: Option<string>,
    results: Option<seq<PinryPin>>)

  /** The response the data class's default arguments describe. */
  function DefaultPinsResponse(): (r: PinryPinsResponse)
    ensures r.count == 0 && r.next.None? && r.previous.None? && r.results == Some([])
  {
    PinryPinsResponse(0, None, None, Some([]))
  }
}
