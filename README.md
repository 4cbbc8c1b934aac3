# Pinry Saver for Android — a Dafny model of its core

Pinry Saver is an Android client for a self-hosted Pinry image board. It has two halves:

- a **saver**, which receives an image shared from another app, labels it and uploads it to the server as a new pin;
- a **gallery**, which pages through the server's pins, shows them full-screen and shares them on.

This project models the logic behind both halves and proves properties of that model:

- **Settings.** The stored key/value settings (`Settings`).
- **Settings screens.** The settings sheet with its server check (`SettingsSheet`) and the first-run settings screen (`MainScreen`).
- **Pins API client.** The repository that builds the pins request and turns the server's reply into a fetch result (`Repository`), with the pin data model (`Models`).
- **Gallery paging.** The gallery's state machine: initial load, pull-to-refresh, infinite scroll and the merging of pages (`Gallery`).
- **Gallery grid.** The adapter's height arithmetic and placeholder orientation (`Adapter`), and the spacing decoration (`Spacing`).
- **Uploader.** The JSON escaping, the regular-expression scanning of the upload reply, the pin payloads, and the callback state machine of an upload (`Uploader`).
- **Share receiver.** The screen that receives a share: its gate, tag normalisation, label post-processing, and status and finishing timer (`ShareReceiver`).
- **Image sharing.** The flow both gallery screens use to share a pin's image: choosing the address, downloading it, choosing the file extension and naming the cache file (`ImageShare`). Also the gallery grid's long press (`GalleryScreen`).
- **Full-screen pager.** Its tag controls, auto-hiding controls, pager jump and dismissal (`Fullscreen`).
- **Sample size.** The power-of-two sampling loop used to decode previews and thumbnails (`Sampling`).

Support modules:

- `Optional` holds `Option`.
- `KotlinInt` holds Kotlin's truncating `/` and `%` and 32-bit wrap-around.
- `Text` holds trimming, prefix and infix tests, ASCII lowercasing, joining and decimal rendering.
- `Http` holds requests, replies and the request builder.

How effects are modelled:

- **Network replies** (`Reply`: an I/O failure, or a status code with a body) are parameters.
- **JSON parsing outcomes** from Gson are parameters too.
- **Values from outside code** are parameters as well: ML Kit labels, the decodability of bitmaps, whether a cache file could be written, and the clock's milliseconds.
- **Objects whose fields the app updates in place** are classes whose methods state their new state:
  - the settings store;
  - the two settings screens;
  - the view model;
  - a view holder;
  - the spacing decoration;
  - an upload call;
  - the share receiver;
  - the full-screen dialog.
- **Pure step functions behind those methods.** Most of the classes are specified through pure step functions. Lemmas about those functions prove the properties of whole runs.

## Model

Unless they start with `app/`, all source paths are under `app/src/main/java/com/pinrysaver/`. The table uses them in full.

| member | source | states |
|---|---|---|
| Models.PinryImage.BestImageUrl | app/src/main/java/com/pinrysaver/data/model/PinryModels.kt:35-36 | The first present variant (thumbnail, then square, then standard), else the full image. It is absent exactly when there is no variant and no image. |
| Models.PinryImageSize.Url | app/src/main/java/com/pinrysaver/data/model/PinryModels.kt:48-49 | A variant's address is its `image` field. |
| Models.PinryImage.FullSizeUrl | app/src/main/java/com/pinrysaver/data/model/PinryModels.kt:38-39 | The full image's address. It agrees with the best address when there are no variants. |
| Models.DefaultPinsResponse | app/src/main/java/com/pinrysaver/data/model/PinryModels.kt:8-13 | The defaults of a pins page: count 0, no next or previous link, empty results. |
| Settings.Stored | app/src/main/java/com/pinrysaver/data/SettingsManager.kt:25-29 | A stored value, or the empty string for a missing key. |
| Settings.Saved | app/src/main/java/com/pinrysaver/data/SettingsManager.kt:31-37 | Saving sets exactly the three keys and keeps every other entry. |
| Settings.SaveOverwrites | app/src/main/java/com/pinrysaver/data/SettingsManager.kt:31-37 | A second save entirely replaces the first. |
| Settings.SettingsManager.constructor | app/src/main/java/com/pinrysaver/data/SettingsManager.kt:11-20 | The manager starts over the given stored preferences. |
| Settings.SettingsManager.GetPinryUrl | app/src/main/java/com/pinrysaver/data/SettingsManager.kt:25 | The stored server address, or empty when unset. |
| Settings.SettingsManager.GetApiToken | app/src/main/java/com/pinrysaver/data/SettingsManager.kt:27 | The stored token, or empty when unset. |
| Settings.SettingsManager.GetBoardId | app/src/main/java/com/pinrysaver/data/SettingsManager.kt:29 | The stored board id, or empty when unset. |
| Settings.SettingsManager.IsConfigured | app/src/main/java/com/pinrysaver/data/SettingsManager.kt:22 | Configured exactly when a non-blank address is stored. |
| Settings.SettingsManager.HasToken | app/src/main/java/com/pinrysaver/data/SettingsManager.kt:23 | A token exists exactly when a non-blank token is stored. |
| Settings.SettingsManager.SaveSettings | app/src/main/java/com/pinrysaver/data/SettingsManager.kt:31-37 | After saving, the getters return the saved values. Configured and has-token follow the saved values' blankness. |
| Repository.ErrorResult | app/src/main/java/com/pinrysaver/data/PinryRepository.kt:147-155 | A failed fetch result has no pins, no more pages, count 0 and the given message. |
| Repository.NormalizeBase | app/src/main/java/com/pinrysaver/data/PinryRepository.kt:35 | The trimmed address with exactly one trailing slash removed, when there is one. |
| Repository.AuthHeaders | app/src/main/java/com/pinrysaver/data/PinryRepository.kt:105-107 | An `Authorization: Token …` header exactly when the token is present and not blank. |
| Repository.PinsRequest | app/src/main/java/com/pinrysaver/data/PinryRepository.kt:40-57 | A GET of `/api/v2/pins/` with limit, offset and `ordering=-id`, accepting JSON. It carries an authorization header exactly when the token is not blank. |
| Repository.ValidationRequest | app/src/main/java/com/pinrysaver/data/PinryRepository.kt:95-109 | A GET of `/api/v2/pins/?limit=1` accepting JSON. It carries an authorization header exactly when the token is present and not blank. |
| Repository.BuildPinsRequest | app/src/main/java/com/pinrysaver/data/PinryRepository.kt:40-57 | The request builder's steps produce exactly the pins request. |
| Repository.BuildValidationRequest | app/src/main/java/com/pinrysaver/data/PinryRepository.kt:95-109 | The request builder's steps produce exactly the validation request. |
| Repository.FetchPins | app/src/main/java/com/pinrysaver/data/PinryRepository.kt:34-87 | No request for an empty address. The result succeeds exactly on a 2xx reply with a non-empty body that parses. Its pins, count and has-more come from the page. Each failure has its own message for these cases: I/O failure, non-2xx status (the code and the body cut at 200 UTF-16 code units, as `Text.TakeUnits`), empty body and parse error. |
| Text.TakeUnits | app/src/main/java/com/pinrysaver/data/PinryRepository.kt:64 | Kotlin's `take(n)` as a cut by UTF-16 code units: a prefix of the text, at most `n` units long, that stops only where the next character would pass `n`, and the whole text when it fits. |
| Text.TakeUnitsInBmp | app/src/main/java/com/pinrysaver/data/PinryRepository.kt:64 | For text inside the Basic Multilingual Plane, the cut keeps exactly the first `n` characters. |
| Repository.ValidatePinryServer | app/src/main/java/com/pinrysaver/data/PinryRepository.kt:89-125 | Valid exactly when the address is non-empty and the server answers 200 or 401. There is an error message exactly when the result is invalid, with the source's texts for an empty address, another status and an I/O failure. |
| SettingsSheet.NormalizeUrl | app/src/main/java/com/pinrysaver/ui/settings/SettingsBottomSheetDialogFragment.kt:116-123 | The trimmed address loses one trailing slash and gains `https://` when it has no `http://` or `https://` scheme. Every result has a full scheme except those of the two bare schemes. |
| SettingsSheet.WithScheme | app/src/main/java/com/pinrysaver/ui/settings/SettingsBottomSheetDialogFragment.kt:118-122 | On the trimmed address: one with an `http://` or `https://` scheme only loses one trailing slash; any other loses one trailing slash and gains `https://`. The result has a full scheme unless the input is a bare scheme. |
| SettingsSheet.BareSchemeLosesSlash | app/src/main/java/com/pinrysaver/ui/settings/SettingsBottomSheetDialogFragment.kt:116-123 | A bare `http://` loses a slash of its own scheme and comes out as `http:/`. |
| SettingsSheet.ValidationToken | app/src/main/java/com/pinrysaver/ui/settings/SettingsBottomSheetDialogFragment.kt:87 | A blank token is sent as no token, any other as itself. |
| SettingsSheet.FailureStatus | app/src/main/java/com/pinrysaver/ui/settings/SettingsBottomSheetDialogFragment.kt:94-95 | The validation's error message is shown when present, the generic text otherwise. |
| SettingsSheet.CheckFailure | app/src/main/java/com/pinrysaver/ui/settings/SettingsBottomSheetDialogFragment.kt:86-101 | No failure exactly when the validation succeeds. A thrown check shows its message or the generic text. |
| SettingsSheet.NormalizeTrimmed | app/src/main/java/com/pinrysaver/ui/settings/SettingsBottomSheetDialogFragment.kt:70-80 | Normalizing the already trimmed field gives the same address as normalizing the raw field, because normalizing trims first. |
| SettingsSheet.StartSave | app/src/main/java/com/pinrysaver/ui/settings/SettingsBottomSheetDialogFragment.kt:69-80 | Nothing is saved exactly when the address field is blank. Otherwise the normalized address and the trimmed token and board are saved. |
| SettingsSheet.SettingsSheet.constructor | app/src/main/java/com/pinrysaver/ui/settings/SettingsBottomSheetDialogFragment.kt:46-67 | The sheet opens idle: no status, no progress, save enabled, nothing pending. |
| SettingsSheet.SettingsSheet.ToggleLoading | app/src/main/java/com/pinrysaver/ui/settings/SettingsBottomSheetDialogFragment.kt:108-114 | The progress shows exactly while loading. The button and the three fields are enabled exactly when not loading. |
| SettingsSheet.SettingsSheet.Save | app/src/main/java/com/pinrysaver/ui/settings/SettingsBottomSheetDialogFragment.kt:69-87 | A blank address shows "URL required" and starts nothing. Otherwise the check starts for the normalized values. |
| SettingsSheet.SettingsSheet.BeginCheck | app/src/main/java/com/pinrysaver/ui/settings/SettingsBottomSheetDialogFragment.kt:80-87 | It hides the status, shows the progress, disables saving and records one validation call. |
| SettingsSheet.SettingsSheet.CompleteValidation | app/src/main/java/com/pinrysaver/ui/settings/SettingsBottomSheetDialogFragment.kt:88-104 | On success it stores the settings, notifies the listener once and dismisses. On failure it shows the failure's text and stores nothing. In both cases loading ends. |
| SettingsSheet.SettingsSheet.FinishCheck | app/src/main/java/com/pinrysaver/ui/settings/SettingsBottomSheetDialogFragment.kt:88-104 | Without a failure it saves the pending values, notifies the listener once and dismisses, leaving the status alone. With a failure it shows it and stores nothing. Either way the pending save is dropped and loading ends. |
| MainScreen.FormatUrl | app/src/main/java/com/pinrysaver/MainActivity.kt:89-93 | The result starts with `http`: the address is kept if it does, otherwise it is prefixed with `https://`. |
| MainScreen.FormatUrlIdempotent | app/src/main/java/com/pinrysaver/MainActivity.kt:89-93 | Formatting twice is formatting once. |
| MainScreen.HttpLikeHostKept | app/src/main/java/com/pinrysaver/MainActivity.kt:89-93 | A host that merely begins with "http" (`httpbin.org`) is left without a scheme. |
| MainScreen.MainActivity.constructor | app/src/main/java/com/pinrysaver/MainActivity.kt:31-40 | The screen starts over the settings store with no toast shown. |
| MainScreen.MainActivity.SaveSettings | app/src/main/java/com/pinrysaver/MainActivity.kt:79-103 | Any blank field shows "please fill all fields" and stores nothing. Otherwise it stores the trimmed token and board and the formatted address, and confirms. |
| Adapter.OrientationToggle | app/src/main/java/com/pinrysaver/ui/gallery/PinAdapter.kt:55-62 | The placeholder is turned by ±45 degrees, chosen from the parity of row plus column (45 without columns). |
| Adapter.RowNeighboursAlternate | app/src/main/java/com/pinrysaver/ui/gallery/PinAdapter.kt:55-62 | Neighbours in a row have opposite orientations. |
| Adapter.ColumnNeighboursAlternate | app/src/main/java/com/pinrysaver/ui/gallery/PinAdapter.kt:55-62 | Neighbours in a column have opposite orientations. |
| Adapter.AspectSource | app/src/main/java/com/pinrysaver/ui/gallery/PinAdapter.kt:99-101 | Each dimension comes from the thumbnail when the thumbnail exists and has that dimension; otherwise (no thumbnail, or a thumbnail missing that dimension) it comes from the image. |
| Adapter.MeasuredWidth | app/src/main/java/com/pinrysaver/ui/gallery/PinAdapter.kt:104-106 | The first positive value, in this order: the view's width, then its measured width, then the item view's width. Each branch's value is stated. None exactly when all three are non-positive. |
| Adapter.ItemHeight | app/src/main/java/com/pinrysaver/ui/gallery/PinAdapter.kt:109-115 | The width-scaled height with Kotlin's 32-bit product, never below the minimum height. |
| Adapter.PostedHeight | app/src/main/java/com/pinrysaver/ui/gallery/PinAdapter.kt:99-117 | A posted height is `ItemHeight` of the measured width and the aspect source, it is at least the minimum height, and it differs from the current height. When the aspect source has a positive width and height and a width was measured, a height is posted exactly when the computed height differs from the current one. |
| Adapter.AreContentsTheSame | app/src/main/java/com/pinrysaver/ui/gallery/PinAdapter.kt:144-146 | Pins with the same contents are always the same item, judged by id. |
| Adapter.AreItemsTheSame | app/src/main/java/com/pinrysaver/ui/gallery/PinAdapter.kt:144 | Pins are the same item when their ids agree, so a pin is always the same item as itself. |
| Adapter.PinViewHolder.constructor | app/src/main/java/com/pinrysaver/ui/gallery/PinAdapter.kt:35-52 | A fresh holder shows no spinner and has none scheduled. |
| Adapter.PinViewHolder.StopSpinner | app/src/main/java/com/pinrysaver/ui/gallery/PinAdapter.kt:132-137 | It cancels the scheduled spinner and hides it. |
| Adapter.PinViewHolder.PrepareSpinner | app/src/main/java/com/pinrysaver/ui/gallery/PinAdapter.kt:121-130 | It hides the spinner and schedules it after the delay. |
| Adapter.PinViewHolder.Bind | app/src/main/java/com/pinrysaver/ui/gallery/PinAdapter.kt:54-97 | Without an image: the rotated placeholder is shown and no spinner. With an image: the placeholder and the spinner are hidden and nothing is scheduled. The crossfade is used only without an image. |
| Adapter.PinViewHolder.SpinnerDelayElapsed | app/src/main/java/com/pinrysaver/ui/gallery/PinAdapter.kt:121-130 | The scheduled spinner becomes visible. |
| Adapter.PinViewHolder.LoadSucceeded | app/src/main/java/com/pinrysaver/ui/gallery/PinAdapter.kt:80-96 | A loaded image stops the spinner and hides the placeholder. |
| Adapter.PinViewHolder.LoadFailed | app/src/main/java/com/pinrysaver/ui/gallery/PinAdapter.kt:80-96 | A failed load stops the spinner and shows the placeholder. |
| Spacing.Offsets | app/src/main/java/com/pinrysaver/ui/gallery/PinSpacingItemDecoration.kt:30-44 | Outer columns get the full horizontal spacing, inner sides half (truncated). The first row gets the full top spacing, later rows half. The bottom is always full. |
| Spacing.SingleColumnFullSides | app/src/main/java/com/pinrysaver/ui/gallery/PinSpacingItemDecoration.kt:33-41 | A single column gets the full spacing on both sides. |
| Spacing.InnerGapsEqual | app/src/main/java/com/pinrysaver/ui/gallery/PinSpacingItemDecoration.kt:30-41 | Adjacent columns leave equal halves between them, adding up to the spacing when it is even. |
| Spacing.Rect.constructor | app/src/main/java/com/pinrysaver/ui/gallery/PinSpacingItemDecoration.kt:14-19 | A rectangle holds the four given offsets. |
| Spacing.PinSpacingItemDecoration.constructor | app/src/main/java/com/pinrysaver/ui/gallery/PinSpacingItemDecoration.kt:8-12 | A decoration keeps its span count and spacings. |
| Spacing.PinSpacingItemDecoration.GetItemOffsets | app/src/main/java/com/pinrysaver/ui/gallery/PinSpacingItemDecoration.kt:14-45 | No position, or no staggered layout parameters, leaves the rectangle unchanged. Otherwise it holds the offsets for the item's span index. |
| Gallery.InitialState | app/src/main/java/com/pinrysaver/ui/gallery/GalleryViewModel.kt:18-31 | No pins, more to load, nothing loading, no error, no job. |
| Gallery.LoadInitialStep | app/src/main/java/com/pinrysaver/ui/gallery/GalleryViewModel.kt:35-49 | Without force, a list or a running job makes it a no-op. Otherwise it starts a replacing fetch of the first 20 pins and marks loading. |
| Gallery.RefreshStep | app/src/main/java/com/pinrysaver/ui/gallery/GalleryViewModel.kt:51-62 | A running refresh makes it a no-op. Otherwise it fetches at least a page, and at least the shown count, from offset 0, replacing the list. It leaves the paging job alone. |
| Gallery.ShouldLoadMore | app/src/main/java/com/pinrysaver/ui/gallery/GalleryViewModel.kt:65-71 | No load when paging has stopped, a page job runs, the list is empty or the position is more than 5 before the end. A load otherwise. |
| Gallery.LoadMoreStep | app/src/main/java/com/pinrysaver/ui/gallery/GalleryViewModel.kt:64-74 | Only when idle, with more to load and within 5 of the end, it appends a page fetched from the current count. |
| Gallery.ApplyResult | app/src/main/java/com/pinrysaver/ui/gallery/GalleryViewModel.kt:76-89 | Success replaces or appends the pins, sets has-more and clears the error. Failure sets the error and stops paging; it empties the pins when the result was to replace them and keeps them otherwise. |
| Gallery.CompletePageJobStep | app/src/main/java/com/pinrysaver/ui/gallery/GalleryViewModel.kt:44-48 | A finished page job applies its result, clears the job, and ends the initial loading flag if it was the initial load. |
| Gallery.CompleteRefreshStep | app/src/main/java/com/pinrysaver/ui/gallery/GalleryViewModel.kt:56-61 | A finished refresh replaces the list and clears the refreshing flag. |
| Gallery.Step | app/src/main/java/com/pinrysaver/ui/gallery/GalleryViewModel.kt:35-89 | Every event keeps the state's invariant. Only the three calls issue fetches. |
| Gallery.Run | app/src/main/java/com/pinrysaver/ui/gallery/GalleryViewModel.kt:35-89 | A run of events issues at most one fetch per event, and the empty run changes nothing. |
| Gallery.RunPreservesValid | app/src/main/java/com/pinrysaver/ui/gallery/GalleryViewModel.kt:35-89 | Any sequence of events keeps the invariant. |
| Gallery.ExhaustedStaysExhausted | app/src/main/java/com/pinrysaver/ui/gallery/GalleryViewModel.kt:64-89 | Once there is nothing more to load, only replacing fetches are issued until a success restores paging. |
| Gallery.FailureStopsPaging | app/src/main/java/com/pinrysaver/ui/gallery/GalleryViewModel.kt:82-88 | After a failed page, scrolling loads nothing. |
| Gallery.RefreshDoesNotBlockPaging | app/src/main/java/com/pinrysaver/ui/gallery/GalleryViewModel.kt:51-74 | Starting a refresh does not change whether scrolling loads a page. |
| Gallery.SecondLoadInitialIsNoOp | app/src/main/java/com/pinrysaver/ui/gallery/GalleryViewModel.kt:36-38 | A second unforced initial load right after the first leaves the state and the fetches as the first left them, so the pair issues at most one fetch. |
| Gallery.AppendKeepsDistinctIds | app/src/main/java/com/pinrysaver/ui/gallery/GalleryViewModel.kt:77-81 | Appending a page of new ids keeps the ids distinct. |
| Gallery.ThreePageScenario | app/src/main/java/com/pinrysaver/ui/gallery/GalleryViewModel.kt:35-93 | Pages of 20, 20 and 5 pins fetch offsets 0, 20 and 40. They end with 45 pins and nothing more to load. |
| Gallery.RunStep | app/src/main/java/com/pinrysaver/ui/gallery/GalleryViewModel.kt:35-89 | A run is its first step followed by the rest. |
| Gallery.GalleryViewModel.constructor | app/src/main/java/com/pinrysaver/ui/gallery/GalleryViewModel.kt:18-31 | The view model starts in the initial state with no fetch issued. |
| Gallery.GalleryViewModel.LoadInitial | app/src/main/java/com/pinrysaver/ui/gallery/GalleryViewModel.kt:35-49 | The new state and the issued fetches are those of the initial-load step. |
| Gallery.GalleryViewModel.Refresh | app/src/main/java/com/pinrysaver/ui/gallery/GalleryViewModel.kt:51-62 | The new state and the issued fetches are those of the refresh step. |
| Gallery.GalleryViewModel.LoadMoreIfNeeded | app/src/main/java/com/pinrysaver/ui/gallery/GalleryViewModel.kt:64-74 | The new state and the issued fetches are those of the load-more step. |
| Gallery.GalleryViewModel.HandleResult | app/src/main/java/com/pinrysaver/ui/gallery/GalleryViewModel.kt:76-89 | The new state is the result applied. |
| Gallery.GalleryViewModel.CompletePageJob | app/src/main/java/com/pinrysaver/ui/gallery/GalleryViewModel.kt:44-48 | The new state is the page job completed. |
| Gallery.GalleryViewModel.CompleteRefresh | app/src/main/java/com/pinrysaver/ui/gallery/GalleryViewModel.kt:56-61 | The new state is the refresh completed. |
| Uploader.JsonEscaped | app/src/main/java/com/pinrysaver/PinryUploader.kt:262-271 | The one-pass escape of each character by its two-character JSON escape. It leaves no raw newline, carriage return, tab, backspace or form feed, and leaves text without the seven escaped characters unchanged. |
| Uploader.EscapeJsonString | app/src/main/java/com/pinrysaver/PinryUploader.kt:262-271 | The seven replacements in the source's order. Text without the seven escaped characters comes back unchanged; `EscapeIsOnePass` ties the chain to the one-pass escape. |
| Uploader.EscapeIsOnePass | app/src/main/java/com/pinrysaver/PinryUploader.kt:262-271 | The source's chain of seven replacements, backslash first, equals one pass escaping each character on its own. |
| Uploader.NoRawShortControls | app/src/main/java/com/pinrysaver/PinryUploader.kt:262-271 | The escaped text contains no raw newline, carriage return, tab, backspace or form feed. |
| Uploader.PlainTextUnchanged | app/src/main/java/com/pinrysaver/PinryUploader.kt:262-271 | Text without backslash, quote, newline, carriage return, tab, backspace or form feed is unchanged. |
| Uploader.EscapeRoundTrip | app/src/main/java/com/pinrysaver/PinryUploader.kt:262-271 | A strict JSON string reader recovers the input exactly when its only control characters are the five with a two-character escape. Otherwise it rejects the escaped text. |
| Uploader.RoundTripOnePass | app/src/main/java/com/pinrysaver/PinryUploader.kt:262-271 | The same round trip, for the one-pass escaper. |
| Uploader.ControlCharacterLeftRaw | app/src/main/java/com/pinrysaver/PinryUploader.kt:262-271 | U+0001 is left raw, so the payload's string is not valid JSON. |
| Uploader.RunEnd | app/src/main/java/com/pinrysaver/PinryUploader.kt:118-132 | The end of the longest run of a character class, as a greedy `\s*`, `\d+` or `[^"]+` consumes it. |
| Uploader.RunEndUnique | app/src/main/java/com/pinrysaver/PinryUploader.kt:118-132 | The longest run is unique. |
| Uploader.AfterKey | app/src/main/java/com/pinrysaver/PinryUploader.kt:118-132 | Where `"key"\s*:\s*` read from a position ends: the quoted key lies there, and the value starts at a non-space. |
| Uploader.MatchAt | app/src/main/java/com/pinrysaver/PinryUploader.kt:108-132 | A pattern tried at one position captures a non-empty slice of the text. |
| Uploader.FirstMatch | app/src/main/java/com/pinrysaver/PinryUploader.kt:108-132 | The leftmost position at which the pattern matches, as `Regex.find` scans. |
| Uploader.Find | app/src/main/java/com/pinrysaver/PinryUploader.kt:108-132 | The capture of the leftmost match, and none exactly when no position matches. |
| Uploader.IdMatchAt | app/src/main/java/com/pinrysaver/PinryUploader.kt:119-120 | `"id"\s*:\s*(\d+)` matches at a position exactly as the quoted key, spaces, colon, spaces and digits lie there. |
| Uploader.ImageMatchAt | app/src/main/java/com/pinrysaver/PinryUploader.kt:127-128 | `"image"\s*:\s*"([^"]+)"` matches exactly as that shape lies there. |
| Uploader.MediaMatchAt | app/src/main/java/com/pinrysaver/PinryUploader.kt:110-111 | `/media/[^/]+/([^/]+)/` matches exactly as that shape lies there. |
| Uploader.FoundCapture | app/src/main/java/com/pinrysaver/PinryUploader.kt:108-132 | A found capture has its group's shape: digits, or quote-free, or slash-free non-empty text. |
| Uploader.ExtractImageId | app/src/main/java/com/pinrysaver/PinryUploader.kt:118-124 | No body gives no id. A found id is non-empty digits. |
| Uploader.ExtractImageUrl | app/src/main/java/com/pinrysaver/PinryUploader.kt:126-132 | No body gives no address. A found address is non-empty and has no quote. |
| Uploader.ExtractImageIdFromUrl | app/src/main/java/com/pinrysaver/PinryUploader.kt:108-116 | A found segment is non-empty and has no slash. |
| Uploader.FirstIdMatchIsExtracted | app/src/main/java/com/pinrysaver/PinryUploader.kt:118-124 | The digits of the first `"id": …` occurrence are the extracted id. |
| Uploader.ExtractIdExample | app/src/main/java/com/pinrysaver/PinryUploader.kt:118-124 | `{"id": 42}` yields `42`. |
| Uploader.CreatePinPayload | app/src/main/java/com/pinrysaver/PinryUploader.kt:138-147 | The `createPin` text equals `RenderObject(PinMembers(imageId, boardId))`: the JSON object whose members, in source order, are `image_by_id` the id digits unquoted, `board` the escaped board id, `url` and `description` empty, `private` false and `referer` empty. |
| Uploader.CreatePinFromUrlPayload | app/src/main/java/com/pinrysaver/PinryUploader.kt:198-206 | The `createPinFromUrl` text equals `RenderObject(UrlPinMembers(imageUrl, boardId, domain))`: the JSON object whose members, in source order, are `url` the escaped address, `board` the escaped board id, `description` the escaped domain, `private` false and `referer` empty. |
| Uploader.Domain | app/src/main/java/com/pinrysaver/PinryUploader.kt:246-260 | The parsed host, or empty when the address does not parse. |
| Uploader.StringMembersReadBack | app/src/main/java/com/pinrysaver/PinryUploader.kt:138-147 | Each string member of a payload reads back as its original text. |
| Uploader.BuildImageRequest | app/src/main/java/com/pinrysaver/PinryUploader.kt:43-59 | The builder's steps yield a POST of the image form to `/api/v2/images/` with the token header. |
| Uploader.BuildPinRequest | app/src/main/java/com/pinrysaver/PinryUploader.kt:151-161 | The builder's steps yield a POST of the payload to `/api/v2/pins/` with the token and a JSON content type. |
| Uploader.ImageRequest | app/src/main/java/com/pinrysaver/PinryUploader.kt:43-59 | A POST to `/api/v2/images/` with only the token header and a multipart form whose `image` part is `image.jpg` of type `image/jpeg`. |
| Uploader.PinRequest | app/src/main/java/com/pinrysaver/PinryUploader.kt:151-161 | A POST to `/api/v2/pins/` of the JSON payload, with exactly the token and JSON content-type headers. |
| Uploader.Report | app/src/main/java/com/pinrysaver/PinryUploader.kt:62-105 | Reporting an outcome appends it once and finishes the call. |
| Uploader.StartUpload | app/src/main/java/com/pinrysaver/PinryUploader.kt:27-59 | A prepared upload sends the image request and awaits it. A failed preparation reports "Error preparing upload: …" and sends nothing. |
| Uploader.ImageReplied | app/src/main/java/com/pinrysaver/PinryUploader.kt:62-99 | The temporary file is always deleted. The pin request is sent exactly when a 2xx reply yields an id. Otherwise exactly one failure is reported, with the source's text: "Network error: " and the message for an I/O failure, "Failed to get image ID from response" for a 2xx reply without an id, and "Image upload failed: " with the code, reason and body for any other status. |
| Uploader.ImageResponse | app/src/main/java/com/pinrysaver/PinryUploader.kt:68-99 | A response deletes the temporary file. A 2xx reply with an id sends the pin request for that id. A 2xx reply without one reports "Failed to get image ID from response". Any other reply reports "Image upload failed: " with the code, the reason and the body. |
| Uploader.StartPinFromUrl | app/src/main/java/com/pinrysaver/PinryUploader.kt:186-220 | It appends the address pin request, built for the address's domain, to the sent requests and then awaits the pin reply. Nothing is reported and the temporary file is untouched. |
| Uploader.PinReplied | app/src/main/java/com/pinrysaver/PinryUploader.kt:164-182 | Exactly one outcome is reported, a success exactly on a 2xx reply. An I/O failure reports "Network error creating pin: " (or "Network error creating pin from URL: ") with the message. Any other status reports "Pin creation failed: " (or "Pin creation from URL failed: ") with the code, reason and body. |
| Uploader.UploadRun | app/src/main/java/com/pinrysaver/PinryUploader.kt:27-184 | A whole upload reports once, and succeeds exactly when both replies are 2xx and an id is found. It sends the pin request exactly for a found id. A temporary file is left only after a failed preparation. |
| Uploader.UrlPinRun | app/src/main/java/com/pinrysaver/PinryUploader.kt:186-243 | A whole address pin sends one request, reports once, and succeeds exactly on a 2xx reply. |
| Uploader.UploadCall.constructor | app/src/main/java/com/pinrysaver/PinryUploader.kt:27-33 | A call starts idle, with nothing sent or reported. |
| Uploader.UploadCall.Upload | app/src/main/java/com/pinrysaver/PinryUploader.kt:27-106 | The new state is the upload's start. |
| Uploader.UploadCall.EnqueuePin | app/src/main/java/com/pinrysaver/PinryUploader.kt:156-162 | It sends the pin request and awaits its reply. |
| Uploader.UploadCall.OnImageReply | app/src/main/java/com/pinrysaver/PinryUploader.kt:62-99 | The new state is the image reply applied. |
| Uploader.UploadCall.CreatePinFromUrl | app/src/main/java/com/pinrysaver/PinryUploader.kt:186-221 | The new state is the address pin's start. |
| Uploader.UploadCall.OnPinReply | app/src/main/java/com/pinrysaver/PinryUploader.kt:164-182 | The new state is the pin reply applied. |
| Sampling.NoPowerOfTwoBetween | app/src/main/java/com/pinrysaver/ShareReceiverActivity.kt:210-212 | No power of two lies strictly between one power of two and its double. |
| Sampling.InSampleSize | app/src/main/java/com/pinrysaver/ShareReceiverActivity.kt:199-217 | The sample size is a power of two within `Int` range, and 1 when the image fits. Otherwise it is the least power of two at which a halved dimension drops below the bound, every smaller power passing. The copies in GalleryFragment.kt:292-319 and FullscreenPinDialogFragment.kt:415-442 are the same loop. |
| ShareReceiver.ShareGate | app/src/main/java/com/pinrysaver/ShareReceiverActivity.kt:80-103 | It closes exactly when the share is not an image `SEND`. It reports a missing image exactly when there is no image address. It reports missing settings exactly when the token or the address is empty. It proceeds otherwise. |
| ShareReceiver.IsImageShare | app/src/main/java/com/pinrysaver/ShareReceiverActivity.kt:83 | An image share is a `SEND` action with a MIME type starting with `image/`; no type is never one. |
| ShareReceiver.NormalizeTags | app/src/main/java/com/pinrysaver/ShareReceiverActivity.kt:137 | Normalizing never lengthens the list of tags. |
| ShareReceiver.KeptTag | app/src/main/java/com/pinrysaver/ShareReceiverActivity.kt:137 | A tag contributes its trimmed text when that is non-empty, and nothing otherwise. |
| ShareReceiver.NormalizeTagsAppend | app/src/main/java/com/pinrysaver/ShareReceiverActivity.kt:137 | Normalization works tag by tag, so it distributes over concatenation. |
| ShareReceiver.NormalizeTagsMembers | app/src/main/java/com/pinrysaver/ShareReceiverActivity.kt:137 | A tag is kept exactly when it is the non-empty trimming of some input tag. |
| ShareReceiver.NormalizeTagsClean | app/src/main/java/com/pinrysaver/ShareReceiverActivity.kt:137 | Every kept tag is non-empty and already trimmed. |
| ShareReceiver.NormalizeTagsKeepsDuplicates | app/src/main/java/com/pinrysaver/ShareReceiverActivity.kt:137 | Duplicates are not removed. |
| ShareReceiver.TagsLineFor | app/src/main/java/com/pinrysaver/ShareReceiverActivity.kt:246-259 | No tags line exactly when no tag survives. Otherwise the surviving tags, joined with ", ". |
| ShareReceiver.InsertByConfidence | app/src/main/java/com/pinrysaver/ShareReceiverActivity.kt:179 | Inserting keeps the list sorted by descending confidence and adds exactly the one label. |
| ShareReceiver.SortIsStable | app/src/main/java/com/pinrysaver/ShareReceiverActivity.kt:179 | For every confidence and every label list, the sorted list holds the labels of that confidence in their original order, as the stable `sortedByDescending` keeps them. |
| ShareReceiver.InsertKeepsTies | app/src/main/java/com/pinrysaver/ShareReceiverActivity.kt:179 | Inserting a label into a sorted list puts it in front of the labels as confident as it is, and keeps their order. |
| ShareReceiver.SortByConfidence | app/src/main/java/com/pinrysaver/ShareReceiverActivity.kt:179 | The result is sorted by descending confidence and is a permutation of the labels. |
| ShareReceiver.Distinct | app/src/main/java/com/pinrysaver/ShareReceiverActivity.kt:181 | No duplicates, and the same members as the input. |
| ShareReceiver.FirstIndex | app/src/main/java/com/pinrysaver/ShareReceiverActivity.kt:181 | The first position holding the value. |
| ShareReceiver.FirstIndexPrefix | app/src/main/java/com/pinrysaver/ShareReceiverActivity.kt:181 | Appending does not move a first occurrence. |
| ShareReceiver.DistinctInFirstOccurrenceOrder | app/src/main/java/com/pinrysaver/ShareReceiverActivity.kt:181 | `distinct` keeps values in the order of their first occurrences. |
| ShareReceiver.LabelNames | app/src/main/java/com/pinrysaver/ShareReceiverActivity.kt:180 | Each label's lowercased text, position by position. |
| ShareReceiver.PostProcessLabels | app/src/main/java/com/pinrysaver/ShareReceiverActivity.kt:178-182 | At most six distinct names, each the lowercased text of a label. An earlier name has a label at least as confident as any label of a later name. A label whose name is missing means six names were kept, each backed by a label at least as confident as it. The count is the number of distinct names, capped at six. |
| ShareReceiver.NameComesFromLabel | app/src/main/java/com/pinrysaver/ShareReceiverActivity.kt:178-181 | Every name after sorting and lowercasing comes from some label. |
| ShareReceiver.FirstOccurrenceOutranks | app/src/main/java/com/pinrysaver/ShareReceiverActivity.kt:178-181 | A name that first occurs earlier has a label at least as confident as every label of the later name. |
| ShareReceiver.PostProcessFacts | app/src/main/java/com/pinrysaver/ShareReceiverActivity.kt:178-182 | Taking six after `distinct` keeps both facts. |
| ShareReceiver.ClassifyImage | app/src/main/java/com/pinrysaver/ShareReceiverActivity.kt:173-186 | No bitmap, or a failed labeler, gives no tags. Otherwise the post-processed labels. |
| ShareReceiver.ProcessShare | app/src/main/java/com/pinrysaver/ShareReceiverActivity.kt:80-125 | It closes exactly for a non-image share. It starts an upload exactly when the gate proceeds and the image is read. The upload gets the stored settings, the shared text and the classified tags. The error screens follow the gate and the read failure's message. |
| ShareReceiver.EmptyBoardStillUploads | app/src/main/java/com/pinrysaver/ShareReceiverActivity.kt:96-103 | The board id is not checked: an empty board still uploads. |
| ShareReceiver.ShownDetail | app/src/main/java/com/pinrysaver/ShareReceiverActivity.kt:222-227 | A blank detail text is hidden; any other detail is shown as is. |
| ShareReceiver.ShareReceiverActivity.constructor | app/src/main/java/com/pinrysaver/ShareReceiverActivity.kt:50-62 | The screen opens in the starting status, with no upload and no finish scheduled. |
| ShareReceiver.ShareReceiverActivity.ShowError | app/src/main/java/com/pinrysaver/ShareReceiverActivity.kt:271-274 | The failure status with the shown detail and the close button. |
| ShareReceiver.ShareReceiverActivity.ProcessShareIntent | app/src/main/java/com/pinrysaver/ShareReceiverActivity.kt:80-171 | The screen ends as the share's outcome says: finished, showing an error, or uploading with no detail line, its tags line and its upload arguments. |
| ShareReceiver.ShareReceiverActivity.ScheduleFinish | app/src/main/java/com/pinrysaver/ShareReceiverActivity.kt:276-283 | The finish timer is launched at most once, however often this is called. |
| ShareReceiver.ShareReceiverActivity.OnUploadSuccess | app/src/main/java/com/pinrysaver/ShareReceiverActivity.kt:157-162 | The success status without detail or close button, and the finish is scheduled (a timer only if none was). Finished, the tags line and the upload keep their values. |
| ShareReceiver.ShareReceiverActivity.OnUploadFailure | app/src/main/java/com/pinrysaver/ShareReceiverActivity.kt:164-168 | The failure status with the error as detail and the close button. No finish is scheduled, and finished, the tags line, the upload and the timer keep their values. |
| ShareReceiver.ShareReceiverActivity.OnCloseClicked | app/src/main/java/com/pinrysaver/ShareReceiverActivity.kt:77 | The close button finishes the screen. Status, detail, close button, tags line, upload and timer keep their values. |
| ShareReceiver.ShareReceiverActivity.FinishTimerFired | app/src/main/java/com/pinrysaver/ShareReceiverActivity.kt:276-283 | The pending timer fires and finishes the screen. Status, detail, close button, tags line, upload and the schedule keep their values. |
| ImageShare.HeaderExtension | app/src/main/java/com/pinrysaver/ui/gallery/GalleryFragment.kt:260-265 | The Content-Type chooses png, gif or webp in that order, case-sensitively, and names no format exactly when it contains none of the three. |
| ImageShare.UrlExtension | app/src/main/java/com/pinrysaver/ui/gallery/GalleryFragment.kt:265-269 | Ignoring case: png exactly when the address contains `.png`; gif exactly when it contains `.gif` but not `.png`; webp exactly when it contains `.webp` but neither of those; jpg exactly when it contains none of the three. |
| ImageShare.ChooseExtension | app/src/main/java/com/pinrysaver/ui/gallery/GalleryFragment.kt:258-269 | The header decides when it names a format, otherwise the address. A missing header counts as `image/jpeg`. FullscreenPinDialogFragment.kt:382-392 makes the same choice. |
| ImageShare.MissingHeaderUsesUrl | app/src/main/java/com/pinrysaver/ui/gallery/GalleryFragment.kt:258-269 | Without a Content-Type the address decides. |
| ImageShare.NamesNoFormat | app/src/main/java/com/pinrysaver/ui/gallery/GalleryFragment.kt:260-265 | A Content-Type lacking the letters n, f and w names no format. |
| ImageShare.GifHeader | app/src/main/java/com/pinrysaver/ui/gallery/GalleryFragment.kt:261-262 | A Content-Type that contains `gif` and no letter n, as `image/gif`, names gif. |
| ImageShare.HeaderWinsOverUrl | app/src/main/java/com/pinrysaver/ui/gallery/GalleryFragment.kt:258-269 | An `image/gif` header beats a `.png` address. |
| ImageShare.ShareUrl | app/src/main/java/com/pinrysaver/ui/gallery/GalleryFragment.kt:210 | The full image, else the best preview. None exactly when there is neither. |
| ImageShare.PinShareAction | app/src/main/java/com/pinrysaver/ui/gallery/GalleryFragment.kt:209-215 | It downloads exactly when the address exists and is not blank, and shows "Unable to share pin" otherwise. FullscreenPinDialogFragment.kt:332-338 does the same. |
| ImageShare.CacheFileName | app/src/main/java/com/pinrysaver/ui/gallery/GalleryFragment.kt:275 | The cache file is named `shared_image_…` and ends with the dot and the extension. |
| ImageShare.DownloadedFile | app/src/main/java/com/pinrysaver/ui/gallery/GalleryFragment.kt:246-290 | A file exists exactly after a saved 2xx reply with a body. It is named after the chosen extension. |
| ImageShare.FinishShare | app/src/main/java/com/pinrysaver/ui/gallery/GalleryFragment.kt:221-241 | No file shows "Failed to download image". A chooser failure shows "Error sharing image: " and its message. Otherwise the chooser opens on the file. FullscreenPinDialogFragment.kt:344-364 does the same. |
| ImageShare.ShareOutcome | app/src/main/java/com/pinrysaver/ui/gallery/GalleryFragment.kt:205-290 | An ignored request shows nothing. The chooser opens only after a saved 2xx download with a body and no chooser failure, on the file named for the chosen extension. |
| ImageShare.WebpAddress | app/src/main/java/com/pinrysaver/ui/gallery/GalleryFragment.kt:265-269 | An address that contains `.webp` in any case, and no letter n or g in either case, is taken for webp. |
| ImageShare.WebpDownloadExample | app/src/main/java/com/pinrysaver/ui/gallery/GalleryFragment.kt:246-277 | An example: a headerless 2xx download of `x.WEBP` is saved as a `.webp` file. |
| GalleryScreen.SpanCount | app/src/main/java/com/pinrysaver/ui/gallery/GalleryFragment.kt:85 | Three columns exactly in landscape, two otherwise. |
| GalleryScreen.SharePinAction | app/src/main/java/com/pinrysaver/ui/gallery/GalleryFragment.kt:205-215 | It does nothing exactly without a list or for a position outside it. Otherwise it shares the pin at that position. |
| GalleryScreen.OutOfRangeShowsNothing | app/src/main/java/com/pinrysaver/ui/gallery/GalleryFragment.kt:205-207 | A long press outside the list shows nothing, whatever the download would have done. |
| Fullscreen.PinTags | app/src/main/java/com/pinrysaver/ui/gallery/FullscreenPinDialogFragment.kt:148 | A pin's tags, an absent list being empty. |
| Fullscreen.TagsForCurrentPin | app/src/main/java/com/pinrysaver/ui/gallery/FullscreenPinDialogFragment.kt:143-172 | The tag button is enabled exactly when the current pin has tags. A pin with tags fills the list and shows it when tags are toggled on. A pin without tags hides the list. Past the end, nothing changes. |
| Fullscreen.TagsAfterToggle | app/src/main/java/com/pinrysaver/ui/gallery/FullscreenPinDialogFragment.kt:183-211 | For a current pin with tags, the list follows the toggle; otherwise nothing changes. |
| Fullscreen.TagsForCurrentPinAgrees | app/src/main/java/com/pinrysaver/ui/gallery/FullscreenPinDialogFragment.kt:143-172 | After an update the controls agree with the current pin. |
| Fullscreen.TagsAfterToggleAgrees | app/src/main/java/com/pinrysaver/ui/gallery/FullscreenPinDialogFragment.kt:174-211 | A toggle keeps that agreement. |
| Fullscreen.JumpTarget | app/src/main/java/com/pinrysaver/ui/gallery/FullscreenPinDialogFragment.kt:121-123 | The pager lands on the initial index, a negative one clamped to 0. |
| Fullscreen.FullscreenPinDialog.constructor | app/src/main/java/com/pinrysaver/ui/gallery/FullscreenPinDialogFragment.kt:86-141 | The dialog opens with an empty pager, the controls shown, tags off and the hide timer running. |
| Fullscreen.FullscreenPinDialog.ShowUi | app/src/main/java/com/pinrysaver/ui/gallery/FullscreenPinDialogFragment.kt:281-303 | The controls are shown; nothing else changes. |
| Fullscreen.FullscreenPinDialog.HideUi | app/src/main/java/com/pinrysaver/ui/gallery/FullscreenPinDialogFragment.kt:305-321 | The controls stay visible exactly when they were visible and tags are shown. |
| Fullscreen.FullscreenPinDialog.ResetHideUiTimer | app/src/main/java/com/pinrysaver/ui/gallery/FullscreenPinDialogFragment.kt:271-279 | The controls are shown and a new hide timer is pending. |
| Fullscreen.FullscreenPinDialog.HideTimerFired | app/src/main/java/com/pinrysaver/ui/gallery/FullscreenPinDialogFragment.kt:271-279 | When the timer fires, the controls stay exactly when tags are shown. |
| Fullscreen.FullscreenPinDialog.OnPause | app/src/main/java/com/pinrysaver/ui/gallery/FullscreenPinDialogFragment.kt:266-269 | Pausing cancels the hide timer. |
| Fullscreen.FullscreenPinDialog.OnPinsObserved | app/src/main/java/com/pinrysaver/ui/gallery/FullscreenPinDialogFragment.kt:114-125 | The pager takes exactly the new list. It jumps to the initial index only when it was empty and the index is within the list. The tags follow the current pin. |
| Fullscreen.FullscreenPinDialog.OnPageSelected | app/src/main/java/com/pinrysaver/ui/gallery/FullscreenPinDialogFragment.kt:128-133 | The page becomes current, the tags follow it and the hide timer restarts. |
| Fullscreen.FullscreenPinDialog.ToggleTags | app/src/main/java/com/pinrysaver/ui/gallery/FullscreenPinDialogFragment.kt:174-181 | The toggle flips and the list follows it. Turning it on shows the controls and restarts the timer. |
| Fullscreen.FullscreenPinDialog.ShareCurrentPin | app/src/main/java/com/pinrysaver/ui/gallery/FullscreenPinDialogFragment.kt:323-330 | The timer restarts. It ignores the request exactly when there is no current pin; otherwise it shares that pin. |
| Fullscreen.FullscreenPinDialog.DismissDragged | app/src/main/java/com/pinrysaver/ui/gallery/FullscreenPinDialogFragment.kt:213-228 | A drag shows hidden controls and cancels the timer. |
| Fullscreen.FullscreenPinDialog.DismissReleased | app/src/main/java/com/pinrysaver/ui/gallery/FullscreenPinDialogFragment.kt:230-252 | Past the threshold the dialog is dismissed. Otherwise it snaps back with the controls shown and the timer restarted. |
| Fullscreen.FullscreenPinDialog.CloseClicked | app/src/main/java/com/pinrysaver/ui/gallery/FullscreenPinDialogFragment.kt:107 | The close button dismisses the dialog. |

## Left out

### Outside libraries

- These become parameters of the model: OkHttp's transport, Gson's parsing, ML Kit's labelling, `BitmapFactory`'s decoding and `java.net.URL`'s host parsing. Their own behaviour is not modelled.
- Regular expressions are modelled only for the three patterns the uploader uses. The general regex engine is not.

### Runtime and UI

- Coroutines, `Dispatchers`, OkHttp's `enqueue` threading and `LiveData` delivery are not modelled. Each asynchronous completion is a separate event or method call, in the order given.
- Views, animations, icons, toasts, logs, haptics and Coil image loading are not modelled, except for the state these screens keep.

### Screens and members

- `ZoomableImageView` and `TagsAdapter` are not part of this model. They are display-only.
- GalleryFragment's observers, scroll listener, `onResume` and `openFullscreen` are not modelled. Nor is the full-screen pager's link back to `loadMoreIfNeeded`. All of these only forward calls to the modelled view model.
- The settings store's encryption (`EncryptedSharedPreferences` with its master key) is left out. The store is a plain map.
- The thumbnail in the share data is left out. It is decoded, but the chooser never uses it.

### Floating point

- The dismiss gesture's distances and the 400-pixel threshold are floats. `DismissReleased` takes whether the threshold was passed.
- ML Kit's confidences and its 0.6 confidence threshold are floats. `Label` carries the confidence as an integer rank.

### Weaker or simplified contracts

- `Adapter.ItemHeight`: the source divides the wrapped `Int` product by `width.toFloat()` and truncates the quotient with `toInt()`. The model divides with Kotlin's truncating integer division instead. The two agree except where `Float` rounding changes the quotient (values beyond 2^24) and for `toInt()`'s saturation.
- `Uploader.EscapeRoundTrip`: the JSON string reader knows the two-character escapes only, not `\uXXXX`. Any other control character is therefore a failed round trip, as it is invalid JSON.
- `Uploader.CreatePinPayload`: the payload is written as the text `trimIndent` produces for these literals. `trimIndent` itself is not modelled.

### Uploader simplifications

- `Uploader.ImageReplied`: the "Error parsing image response" branch, where reading the body throws, is left out. A body that cannot be read is modelled as an absent body.
- `Repository.FetchPins`: two exceptions that escape the function are not modelled. `Request.Builder().url` throws `IllegalArgumentException` for an address OkHttp rejects, such as one without an `http`/`https` scheme (PinryRepository.kt:47-48, outside the `try`). A body that Gson parses to `null`, such as the text `null`, makes reading `results` throw `NullPointerException` (PinryRepository.kt:73-76). Neither is caught at PinryRepository.kt:82-85, so each escapes into the view model's coroutine. The model treats every address as accepted, and a parse as either a page or a syntax error.
- `Repository.FetchPins`: a Dafny string holds whole Unicode characters, so the error body is cut by `Text.TakeUnits` only between characters. When a character outside the Basic Multilingual Plane straddles the 200th UTF-16 code unit, Kotlin's `take(200)` keeps its lone high surrogate (PinryRepository.kt:64); the model drops the whole character instead.
- `Repository.FetchPins`: a page whose `results` is absent or `null` is read as the empty pin list. The field is nullable (data/model/PinryModels.kt:12), and the source passes it on unchecked as the pins (PinryRepository.kt:76).
- `Uploader.StartPinFromUrl`: the `Request.Builder` exception on a malformed address is not modelled. The address is taken as well formed.
- `ShareReceiver.ProcessShare`: ShareReceiverActivity calls `PinryUploader.upload` with `originalUrl`, `tags` and an `onStatus` callback, which the uploader's `upload` does not take. The call is therefore recorded as its `UploadArgs` only, and its `onStatus` callback is left out.

### Other simplifications

- `ShareReceiver.LabelNames`: `lowercase(Locale.getDefault())` is modelled as ASCII lowercasing, without locale rules.
- `Fullscreen.TagsAfterToggle`: the fade-out's end is taken as immediate.
- `Fullscreen.FullscreenPinDialog.DismissReleased`: below the threshold, the source shows the controls and restarts the hide timer in the end action of a 200 ms snap-back animation (FullscreenPinDialogFragment.kt:237-248). The model does this at once.
- `Fullscreen.JumpTarget`: ViewPager2's clamping is modelled only for a negative index.
- `Gallery.Run`: a completion event that arrives with no job outstanding is taken as a no-op.
