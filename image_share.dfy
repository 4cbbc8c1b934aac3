/**
 * Sharing a pin's image, as GalleryFragment and FullscreenPinDialogFragment
 * both do it: pick the address, download it, pick a file extension, save it
 * in the cache and open the share sheet.
 */
module ImageShare {
  import opened Optional
  import opened Text
  import opened Models

  /** `decodeThumbnail` is called with this bound. */
  const THUMBNAIL_MAX_SIZE: int := 512

  /** OkHttp's `header("Content-Type", "image/jpeg")` default. */
  const DEFAULT_CONTENT_TYPE: string := "image/jpeg"

  const UNABLE_TO_SHARE: string := "Unable to share pin"
  const DOWNLOAD_FAILED: string := "Failed to download image"

  predicate IsImageExtension(e: string) {
    e == "png" || e == "gif" || e == "webp" || e == "jpg"
  }

  /** A missing character rules out every occurrence. */
  lemma {:induction false} MissingCharNotContained(s: string, other: string, k: nat)
    requires k < |other| && other[k] !in s
    ensures !Contains(s, other)
    decreases |s|
  {
    assert !StartsWith(s, other) by {
      if |other| <= |s| {
        assert s[..|other|][k] == s[k] && s[k] in s;
      }
    }
    if s != [] {
      assert forall c :: c in s[1..] ==> c in s;
      MissingCharNotContained(s[1..], other, k);
    }
  }

  /** The Content-Type tests, case-sensitive, in the order png, gif, webp. */
  function HeaderExtension(contentType: string): (r: Option<string>)
    ensures r.Some? ==> IsImageExtension(r.value)
    ensures r == Some("png") <==> Contains(contentType, "png")
    ensures r == Some("gif") <==> !Contains(contentType, "png") && Contains(contentType, "gif")
    ensures r == Some("webp") <==> !Contains(contentType, "png") && !Contains(contentType, "gif") && Contains(contentType, "webp")
    ensures r.None? <==> !Contains(contentType, "png") && !Contains(contentType, "gif") && !Contains(contentType, "webp")
  {
    if Contains(contentType, "png") then Some("png")
    else if Contains(contentType, "gif") then Some("gif")
    else if Contains(contentType, "webp") then Some("webp")
    else None
  }

  /** The address tests, ignoring case, in the same order; jpg otherwise. */
  function UrlExtension(imageUrl: string): (r: string)
    ensures IsImageExtension(r)
    ensures r == "png" <==> ContainsIgnoreCase(imageUrl, ".png")
    ensures r == "gif" <==> !ContainsIgnoreCase(imageUrl, ".png") && ContainsIgnoreCase(imageUrl, ".gif")
    ensures r == "webp" <==>
      !ContainsIgnoreCase(imageUrl, ".png") && !ContainsIgnoreCase(imageUrl, ".gif") && ContainsIgnoreCase(imageUrl, ".webp")
    ensures r == "jpg" <==>
      !ContainsIgnoreCase(imageUrl, ".png") && !ContainsIgnoreCase(imageUrl, ".gif") && !ContainsIgnoreCase(imageUrl, ".webp")
  {
    if ContainsIgnoreCase(imageUrl, ".png") then "png"
    else if ContainsIgnoreCase(imageUrl, ".gif") then "gif"
    else if ContainsIgnoreCase(imageUrl, ".webp") then "webp"
    else "jpg"
  }

  /**
   * The extension of the cached file: the Content-Type decides when it names
   * a format, otherwise the address does. The result is always one of png,
   * gif, webp and jpg.
   */
  function ChooseExtension(contentType: Option<string>, imageUrl: string): (r: string)
    ensures IsImageExtension(r)
    ensures HeaderExtension(contentType.GetOr(DEFAULT_CONTENT_TYPE)).Some? ==>
      r == HeaderExtension(contentType.GetOr(DEFAULT_CONTENT_TYPE)).value
    ensures HeaderExtension(contentType.GetOr(DEFAULT_CONTENT_TYPE)).None? ==> r == UrlExtension(imageUrl)
  {
    match HeaderExtension(contentType.GetOr(DEFAULT_CONTENT_TYPE))
    case Some(e) => e
    case None => UrlExtension(imageUrl)
  }

  /** Without a Content-Type header the default names no format, so the address decides. */
  lemma MissingHeaderUsesUrl(imageUrl: string)
    ensures ChooseExtension(None, imageUrl) == UrlExtension(imageUrl)
  {
    var ct := DEFAULT_CONTENT_TYPE;
    assert 'n' !in ct && 'f' !in ct && 'w' !in ct;
    NamesNoFormat(ct);
  }

  /** A Content-Type without the letters n, f and w names no format. */
  lemma NamesNoFormat(ct: string)
    requires 'n' !in ct && 'f' !in ct && 'w' !in ct
    ensures HeaderExtension(ct) == None
  {
    MissingCharNotContained(ct, "png", 1);
    MissingCharNotContained(ct, "gif", 2);
    MissingCharNotContained(ct, "webp", 0);
  }

  /** The same, ignoring case. */
  lemma {:induction false} MissingCharNotContainedIgnoreCase(s: string, other: string, k: nat)
    requires k < |other| && forall c :: c in s ==> !EqualsIgnoreCase(c, other[k])
    ensures !ContainsIgnoreCase(s, other)
    decreases |s|
  {
    assert !StartsWithIgnoreCase(s, other) by {
      if |other| <= |s| {
        assert s[k] in s;
      }
    }
    if s != [] {
      assert forall c :: c in s[1..] ==> c in s;
      MissingCharNotContainedIgnoreCase(s[1..], other, k);
    }
  }

  /** A Content-Type that contains `gif` and no letter n names gif, as `image/gif` does. */
  lemma GifHeader(ct: string)
    requires Contains(ct, "gif") && 'n' !in ct
    ensures HeaderExtension(ct) == Some("gif")
  {
    MissingCharNotContained(ct, "png", 1);
  }

  /** A Content-Type that names gif wins over a `.png` address. */
  lemma HeaderWinsOverUrl(ct: string)
    requires ct == "image/gif"
    ensures ChooseExtension(Some(ct), "https://host/a.png") == "gif"
  {
    assert ct[6..][..3] == "gif";
    ContainsAt(ct, "gif", 6);
    GifHeader(ct);
  }

  /** The address that `sharePin` downloads: the full image, else the preview. */
  function ShareUrl(image: PinryImage): (r: Option<string>)
    ensures image.image.Some? ==> r == image.image
    ensures image.image.None? ==> r == image.BestImageUrl()
    ensures r.None? <==> image.image.None? && image.HasNoVariants()
  {
    image.FullSizeUrl().OrElse(image.BestImageUrl())
  }

  /** What a share request turns into before anything is downloaded. */
  datatype ShareAction = Ignore | ShowUnable | Download(url: string)

  /** `sharePin(pin)`: a missing or blank address shows "Unable to share pin" and downloads nothing. */
  function PinShareAction(pin: PinryPin): (r: ShareAction)
    ensures r != Ignore
    ensures r.Download? <==> ShareUrl(pin.image).Some? && !IsBlank(ShareUrl(pin.image).value)
    ensures r.Download? ==> Some(r.url) == ShareUrl(pin.image)
  {
    var url := ShareUrl(pin.image);
    if url.None? || IsBlank(url.value) then ShowUnable else Download(url.value)
  }

  /** How the download request ended. */
  datatype DownloadReply =
    | RequestFailed
    | Replied(code: int, contentType: Option<string>, hasBody: bool)

  /** The cache file `shared_image_<millis>.<extension>`. */
  function CacheFileName(millis: int, extension: string): (r: string)
    ensures StartsWith(r, "shared_image_") && EndsWith(r, "." + extension)
  {
    var prefix := "shared_image_" + IntToString(millis);
    assert (prefix + ("." + extension))[..|"shared_image_"|] == "shared_image_";
    prefix + ("." + extension)
  }

  /**
   * `downloadAndShareImage`: the cached file's name, or nothing when the
   * request fails, the status is not 2xx, there is no body, or the file
   * cannot be written (`saved` false).
   */
  function DownloadedFile(imageUrl: string, reply: DownloadReply, millis: int, saved: bool): (r: Option<string>)
    ensures r.Some? <==> reply.Replied? && 200 <= reply.code < 300 && reply.hasBody && saved
    ensures r.Some? ==> r.value == CacheFileName(millis, ChooseExtension(reply.contentType, imageUrl))
  {
    match reply
    case RequestFailed => None
    case Replied(code, contentType, hasBody) =>
      if !(200 <= code < 300) || !hasBody || !saved then None
      else Some(CacheFileName(millis, ChooseExtension(contentType, imageUrl)))
  }

  /** What the user sees at the end of a share. */
  datatype ShareEnd = ChooserShown(fileName: string) | Snackbar(text: string)

  /**
   * The coroutine in `sharePin`: no file gives "Failed to download image";
   * an exception while opening the chooser gives "Error sharing image: "
   * and its message.
   */
  function FinishShare(file: Option<string>, chooserError: Option<Option<string>>): (r: ShareEnd)
    ensures file.None? ==> r == Snackbar(DOWNLOAD_FAILED)
    ensures file.Some? && chooserError.None? ==> r == ChooserShown(file.value)
    ensures file.Some? && chooserError.Some? ==> r == Snackbar("Error sharing image: " + Interp(chooserError.value))
  {
    if file.None? then Snackbar(DOWNLOAD_FAILED)
    else if chooserError.Some? then Snackbar("Error sharing image: " + Interp(chooserError.value))
    else ChooserShown(file.value)
  }

  /** No character of `x.WEBP` is an n or a g in either case. */
  lemma WebpAddressLetters()
    ensures forall c :: c in "x.WEBP" ==> !EqualsIgnoreCase(c, 'n') && !EqualsIgnoreCase(c, 'g')
  {
    var u := "x.WEBP";
    assert forall c :: c in u ==> c == u[0] || c == u[1] || c == u[2] || c == u[3] || c == u[4] || c == u[5];
  }

  /** `.WEBP` begins with `.webp` up to case. */
  lemma WebpSuffixMatches()
    ensures StartsWithIgnoreCase(".WEBP", ".webp")
  {
    var t, w := ".WEBP", ".webp";
    assert EqualsIgnoreCase(t[0], w[0]) && EqualsIgnoreCase(t[1], w[1]) && EqualsIgnoreCase(t[2], w[2]);
    assert EqualsIgnoreCase(t[3], w[3]) && EqualsIgnoreCase(t[4], w[4]);
  }

  /** An address that contains `.webp` in any case and no letter n or g in either case is taken for webp. */
  lemma WebpAddress(u: string)
    requires forall c :: c in u ==> !EqualsIgnoreCase(c, 'n') && !EqualsIgnoreCase(c, 'g')
    requires ContainsIgnoreCase(u, ".webp")
    ensures UrlExtension(u) == "webp"
  {
    MissingCharNotContainedIgnoreCase(u, ".png", 2);
    MissingCharNotContainedIgnoreCase(u, ".gif", 1);
  }

  /**
   * A whole share: nothing for an ignored request, "Unable to share pin"
   * without an address, and otherwise the download and the chooser. The
   * chooser opens only on a saved 2xx download with a body, for a file
   * named after the chosen extension.
   */
  function ShareOutcome(action: ShareAction, reply: DownloadReply, millis: int, saved: bool,
                        chooserError: Option<Option<string>>): (r: Option<ShareEnd>)
    ensures r.None? <==> action == Ignore
    ensures action == ShowUnable ==> r == Some(Snackbar(UNABLE_TO_SHARE))
    ensures r.Some? && r.value.ChooserShown? ==>
      action.Download? && reply.Replied? && 200 <= reply.code < 300 && reply.hasBody && saved && chooserError.None?
      && r.value.fileName == CacheFileName(millis, ChooseExtension(reply.contentType, action.url))
  {
    match action
    case Ignore => None
    case ShowUnable => Some(Snackbar(UNABLE_TO_SHARE))
    case Download(url) => Some(FinishShare(DownloadedFile(url, reply, millis, saved), chooserError))
  }

  /** A successful download of a `.WEBP` address without a Content-Type is saved as webp. */
  lemma WebpDownloadExample(millis: int)
    ensures DownloadedFile("x.WEBP", Replied(200, None, true), millis, true)
      == Some(CacheFileName(millis, "webp"))
  {
    var u := "x.WEBP";
    MissingHeaderUsesUrl(u);
    WebpAddressLetters();
    WebpSuffixMatches();
    assert u[1..] == ".WEBP";
    assert ContainsIgnoreCase(u[1..], ".webp");
    WebpAddress(u);
  }
}
