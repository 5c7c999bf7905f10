# NASA Space Explorer: a Dafny model of the gallery controller

The page lets a user pick a date range and fetches NASA's Astronomy Picture
of the Day (APOD) records for that range. It renders the image records as a
gallery of tiles and shows one record in a modal when a tile is clicked. All
of its logic lives in `js/script.js`. This project models that logic as
one controller class, `Explorer.Controller`. Its fields stand for the DOM
state: the two date inputs' values, the gallery container, the modal's
inline `display`, the body's inline `overflow` and the modal's text and image.
The pure parts of the page are functions in their own modules:

- `Media`: an APOD record. `Images` is the `media_type === 'image'` filter that
  `displayGallery` applies. `MakeTile`/`RenderTiles` play the part of
  `createGalleryItem`.
- `Dates`: the input values (`YYYY-MM-DD`, or `""` before a date is picked) and
  `new Date(start) > new Date(end)`. Dates are compared as (year, month, day)
  triples. A value that does not parse is an invalid Date, so every comparison
  with it is false.
- `Request`: the request URL template. It comes with a small query-string
  reader (`Params`, `Lookup`) that serves as an independent reference for what
  the URL carries.
- `Gallery`: the four gallery views (loading, error, "no images", tiles). It
  also holds the JSON body and network outcome as input values, and the views
  `displayGallery` and `fetchSpaceImages` leave, as functions.
- `Modal`: the modal as a value, the effect of each listener (`Step`) and of
  a run of events (`Run`).
- `Explorer`: the button's range check and the controller class. Each page
  function (`showLoading`, `showError`, `displayGallery`, `fetchSpaceImages`,
  `openModal`, `closeModal`) is a method of the class, and so is each
  listener (button, page load, tile click, close button, modal click,
  Escape). Each method's `ensures` ties the new state to the functions above.

Behaviour of the code that the model keeps, and that a reader might not
expect:

- Only records whose `media_type` is exactly `image` become tiles. Some
  descriptions of the page say video records get tiles too. The code drops
  them, and the model follows the code.
- A non-empty response with no image record leaves an empty gallery, not
  the "no images" placeholder (`Gallery.DisplayedNoImageRecords`).
- `response.ok` means a status in 200-299. A bad status, a network failure,
  a body that is not JSON, and a truthy non-array body whose `length` is not
  0 all end in the same error placeholder. In the last case the gallery has
  already been cleared and `forEach` throws. A truthy non-array body whose
  `length` is 0 shows the "no images" placeholder instead.
- The page-load listener fetches whenever both inputs are non-empty. It does
  not check their order (`Explorer.Controller.OnPageLoaded`).
- Closing the modal hides it but leaves its title, text and image in place.
- The URL does not encode its values. The round trip through the query
  reader holds only for values without `&`, which ISO dates and the key
  never contain.

## Model

| member | source | states |
|---|---|---|
| `Media.Images` | js/script.js:91-97 | every record kept is an image record taken from the response, and no more records are kept than were received |
| `Media.ImagePositions` | js/script.js:91-97 | the positions of the kept records lie inside the response |
| `Media.ImagePositionsSelect` | js/script.js:91-97 | there is one position per kept record, and the record at each position is the kept one |
| `Media.ImagePositionsIncrease` | js/script.js:91-97 | the positions strictly increase, so tiles keep response order |
| `Media.ImagePositionsComplete` | js/script.js:91-97 | a position is listed exactly when the record there is an image; no image is skipped and no other type gets in |
| `Media.ImagesMembership` | js/script.js:93 | a record is kept if and only if it is in the response and its media type is `image` |
| `Media.ImagesAppend` | js/script.js:91-97 | filtering a concatenation is concatenating the filtered parts (the `forEach` order) |
| `Media.ImagesIdentity` | js/script.js:91-97 | the filter changes nothing exactly when all records are images, and filtering twice is filtering once |
| `Media.ImagesNone` | js/script.js:91-97 | a response without an image record keeps nothing |
| `Media.IsImage` | js/script.js:93 | the definition of the tile test `media_type === 'image'`; its properties are stated by `Media.ImagesMembership` and `Media.ImagePositionsComplete` |
| `Media.MakeTile` | js/script.js:101-131 | the definition of the tile createGalleryItem builds: the url as source, the title as alt text and caption, the formatted date, the explanation, and the record its click listener opens; used by `Media.RenderTiles` and `Gallery.DisplayedTiles` |
| `Media.RenderTiles` | js/script.js:101-131 | one tile per record, in the same order, each the tile `createGalleryItem` makes for that record |
| `Media.RenderNext` | js/script.js:91-97 | handling one more record appends its tile exactly when it is an image |
| `Dates.DigitsOrder` | js/script.js:179 | on digit strings of one length, numeric order is string order, and equal values are equal strings |
| `Dates.LexLessConcat` | js/script.js:179 | string order over aligned pieces is decided by the first piece unless it ties |
| `Dates.StartAfterEndIsStringOrder` | js/script.js:179 | on two well-formed input values, "start is after end" holds exactly when the end value sorts before the start value |
| `Dates.StartAfterEnd` | js/script.js:179 | the definition of `new Date(start) > new Date(end)`: false unless both values parse; its order is characterised by `Dates.StartAfterEndIsStringOrder` and `Explorer.CheckRangeOrder` |
| `Request.RequestUrl` | js/script.js:31 | the definition of the request URL template; what it carries is stated by `Request.RequestParams` and `Request.RequestCarriesRange` |
| `Request.RequestParams` | js/script.js:31 | the URL starts with the APOD endpoint, and its query is exactly `start_date=<start>`, `end_date=<end>`, `api_key=<key>`, in that order with the values verbatim |
| `Request.RequestCarriesRange` | js/script.js:31 | reading `start_date`, `end_date` and `api_key` back from the URL gives the two dates and the key unchanged |
| `Gallery.FetchTrace` | js/script.js:25-52 | fetchSpaceImages first shows the loading placeholder and never ends on it |
| `Gallery.Displayed` | js/script.js:75-98 | the definition of the gallery displayGallery leaves; stated by `Gallery.DisplayedEmpty`, `Gallery.DisplayedTiles`, `Gallery.DisplayedNoImageRecords` and `Gallery.DisplayedIsNotError`, and proved equal to the loop by `Explorer.Controller.DisplayGallery` |
| `Gallery.FetchOutcome` | js/script.js:25-52 | the definition of the gallery fetchSpaceImages leaves, the last view of `Gallery.FetchTrace`; stated by `Gallery.FetchSettles` |
| `Gallery.DisplayedEmpty` | js/script.js:77-88 | an absent or empty response leaves exactly the "no images" placeholder and no tile |
| `Gallery.DisplayedTiles` | js/script.js:91-97 | a non-empty list leaves exactly one tile per image record, in order, each showing its record; no tile shows a video |
| `Gallery.DisplayedNoImageRecords` | js/script.js:80-97 | a non-empty response without image records leaves an empty gallery, not the placeholder |
| `Gallery.FetchSettles` | js/script.js:37-50 | after a fetch the gallery is never loading; it shows the error placeholder if and only if the network failed, the status was not ok, the body was unreadable or displayGallery threw; otherwise it shows what displayGallery made of the body |
| `Gallery.DisplayedIsNotError` | js/script.js:75-98 | displayGallery itself never leaves the loading or the error placeholder |
| `Modal.Opened` | js/script.js:135-156 | the definition of the modal after openModal; stated by `Modal.OpenShowsItem` |
| `Modal.Closed` | js/script.js:159-164 | the definition of the modal after closeModal; stated by `Modal.CloseIdempotent` |
| `Modal.Step` | js/script.js:200-214 | the definition of each listener's effect on the modal, the tile click of js/script.js:127-129 included; stated by `Modal.EscapeOnlyWhenOpen`, `Modal.InsideClickIgnored`, `Modal.StepConsistent` and `Modal.RunConsistent` |
| `Modal.OpenShowsItem` | js/script.js:135-156 | openModal leaves the modal open and scrolling locked, with the title, explanation, image source, alt text and formatted date taken from the record |
| `Modal.CloseIdempotent` | js/script.js:159-164 | closeModal leaves the modal closed with scroll `auto`, and closing twice equals closing once |
| `Modal.EscapeOnlyWhenOpen` | js/script.js:210-214 | Escape closes an open modal; any key on a closed modal, and any other key, changes nothing |
| `Modal.InsideClickIgnored` | js/script.js:203-207 | a click whose target is not the modal element changes nothing |
| `Modal.StepConsistent` | js/script.js:135-214 | every listener keeps "scrolling is locked exactly while the modal is open" |
| `Modal.RunConsistent` | js/script.js:135-214 | over any sequence of events the invariant holds, so a closed modal never leaves the background locked |
| `Modal.ReopenShowsLatest` | js/script.js:135-164 | open, close, open again shows only the second record, and the close in between restores scrolling |
| `Explorer.CheckRange` | js/script.js:173-182 | an empty value is rejected as a missing date; an accepted range has both values |
| `Explorer.CheckRangeOrder` | js/script.js:178-182 | on two picked dates the range is accepted exactly when start is not after end in calendar order, which is string order on the values |
| `Explorer.CheckRangeUnparsable` | js/script.js:179 | two non-empty values that are not both dates pass the order check |
| `Explorer.Controller.constructor` | js/script.js:1-17 | the controller starts with the inputs' values, the page's gallery markup and no inline modal or body style, in a valid state |
| `Explorer.Controller.ChooseDates` | js/script.js:169-170 | the values later read by the handlers are the ones the user picked |
| `Explorer.Controller.ShowLoading` | js/script.js:55-62 | the gallery becomes the loading placeholder |
| `Explorer.Controller.ShowError` | js/script.js:65-72 | the gallery becomes the error placeholder with the given message |
| `Explorer.Controller.DisplayGallery` | js/script.js:75-98 | the loop leaves the gallery `Gallery.Displayed` describes, and reports a throw exactly for a truthy non-array body whose `length` is not 0 |
| `Explorer.Controller.FetchSpaceImages` | js/script.js:25-52 | issues exactly one request, for the template URL, and shows exactly the views of `Gallery.FetchTrace`, ending on `Gallery.FetchOutcome` |
| `Explorer.Controller.OnGetImagesClick` | js/script.js:167-186 | a missing date or an inverted range raises its alert and issues no fetch; otherwise exactly one fetch with the two values unchanged and no alert |
| `Explorer.Controller.OnPageLoaded` | js/script.js:189-197 | fetches the input values exactly when both are non-empty |
| `Explorer.Controller.OpenModal` | js/script.js:135-156 | the modal becomes `Modal.Opened` for the record |
| `Explorer.Controller.CloseModal` | js/script.js:159-164 | the modal becomes `Modal.Closed`, its contents kept |
| `Explorer.Controller.OnTileClick` | js/script.js:127-129 | clicking a tile opens the modal on the record that tile was made from |
| `Explorer.Controller.OnCloseButtonClick` | js/script.js:200 | the close button closes the modal |
| `Explorer.Controller.OnModalClick` | js/script.js:203-207 | a click closes the modal only when its target is the modal element itself |
| `Explorer.Controller.OnKeyDown` | js/script.js:210-214 | a key closes the modal only when it is Escape and the modal's display is `block` |

## Left out

- `fetch`, `response.json()` and async/await are network I/O. The network's
  answer is an input value (`Gallery.Response`, `Gallery.Json`), and a fetch
  runs to completion within one call.
- Overlapping fetches, where a later response overwrites an earlier one, are
  concurrency and are not modelled.
- HTML templates, `innerHTML`, `createElement`, `appendChild` and the
  `addEventListener` wiring are DOM library calls. Tiles and placeholders are
  abstract records, and each listener is a method.
- `toLocaleDateString('en-US', ...)` is locale formatting. It is an injected
  function `formatDate` of the record's date.
- Date parsing by `new Date(...)`: a non-ISO string that the browser's parser
  would still accept is treated as invalid. For ISO values, the model checks
  only that the month is in 1-12 and the day in 1-31. A value such as
  `2024-02-30` therefore passes and is ordered by its fields, which no engine
  does: V8 rolls it over to March 1, and engines that reject it compare NaN.
  The date inputs never produce such values; they yield well-formed dates or `""`.
- `alert` is recorded as a message appended to `alerts`. `console.error` is a
  log line and is not modelled.
- `setupDateInputs` (dateRange.js) is not part of this model. The constructor
  takes the values it leaves in the inputs.
- The gallery's markup before the first render comes from the page's HTML,
  which is not part of this model. The constructor takes it as a parameter.
- A `null` entry inside the response array (which makes `item.media_type`
  throw) and records with missing fields are not modelled. Every entry is a
  full record.
- YouTube video embedding and the random space fact belong to a later version
  of the page. They are not in this code.
