# Instant Polaroid: a Dafny model

Instant Polaroid is a small Next.js application. The user uploads or captures
a photo, picks a caption and two colours, and gets back a polaroid-framed
rendition produced by the Orshot rendering service. This project models its
logic in Dafny and proves properties of that model:

- `render_proxy.dfy` (module `RenderProxy`) models the server route
  `POST /api/polaroid`. It is a pure decision function. The inputs are the
  client's JSON body, the deployment's configuration (API key and template id)
  and the answer the provider would give. The output is the response to the
  client and the request sent to the provider, if one is sent. The checks run
  in the source's order: body, image, API key, template id. Then the route
  builds the `modifications` object, truncates the caption to 60 characters,
  normalises the provider's errors and falls through to the catch-all 500.
- `home_page.dfy` (module `HomePage`) models the `Home` page as a class. Its
  fields are the page's React state and its methods are the handlers. The
  asynchronous `generatePolaroid` is split at its `await`: `StartGeneration`
  runs before the route replies and `CompleteGeneration` runs after.
- `polaroid_grid.dfy` (module `PolaroidGrid`) models the grid and its
  lightbox. The lightbox is a cursor over the photos, moved by `GoNext`,
  `GoPrev`, `Close` and the key handler. Button visibility, the counter and
  the file names are pure functions, and the zip download is a loop that adds
  one entry per photo.
- `polaroid_card.dfy` (module `PolaroidCard`) models a card's integer and
  string formulas: the tilt, the serial label, the download name and the tape.
- `js_text.dfy` (module `JsText`) models the few JavaScript behaviours the rest
  relies on. These are null/undefined, string truthiness, `String(n)`,
  `padStart` and `slice(0, n)`. It also proves that decimal text reads back as
  the number it came from.

Points where the code does something other than its comments or a quick reading suggest; the model follows the code:

- The comment at `app/api/polaroid/route.js:45` calls `canvasBackgroundColor`
  a top-level parameter of the provider payload. The code at lines 46-48
  writes it into `modifications`. The model does the same, and
  `RenderProxy.BackgroundColorInsideModifications` states it.
- The route has no rate limiting and no answer with status 429, so none is
  modelled.
- The route has no separate answer for a malformed provider success body. A
  success body that is not JSON, is `null` or has no `data` ends in the same
  catch-all `500 {error: "Internal server error"}` as any other fault.
- A provider error status is relayed only when `NextResponse.json` can build a
  response with that status and a JSON body. A 304 or a status outside
  200..599 makes the `Response` constructor throw, and the catch answers 500.

The environment variables are parameters (`RenderProxy.Config`) rather than
values read when the module loads. `Date.now()` ids are a method parameter.
Browser downloads are values that describe the link that would be clicked.

## Model

| member | source | states |
|---|---|---|
| `RenderProxy.Post` | app/api/polaroid/route.js:8-89 | A provider request is sent iff every check passes. With no request the answer is the early return. With one, it is the normalised provider answer. A 2xx status comes back iff the body carries an image, and every error text is non-empty. |
| `RenderProxy.Prepare` | app/api/polaroid/route.js:9-35 | An unparsable body gives 500 Internal, a missing or empty `imageUrl` gives 400, and then a missing or placeholder API key and a missing or placeholder template id each give 500. Checks run in that order. Dispatch happens iff all pass, with exactly the outbound request built from the inputs. |
| `RenderProxy.MissingImageRefusedFirst` | app/api/polaroid/route.js:13-18 | Without a truthy image the route answers 400 "Image URL or base64 data is required" and sends nothing, whatever the configuration and the provider. |
| `RenderProxy.MisconfigurationDoesNotVaryByRequest` | app/api/polaroid/route.js:20-35 | Once the image is present, a configuration error gives the same 500 answer for every request and provider answer, with no provider call. |
| `RenderProxy.ApiKeyConfigured` | app/api/polaroid/route.js:20 | The API key check passes iff the key is set, non-empty and not `your_orshot_api_key_here`. |
| `RenderProxy.TemplateConfigured` | app/api/polaroid/route.js:27-30 | The template check passes iff the effective template id is non-empty and not the placeholder. |
| `RenderProxy.TemplateId` | app/api/polaroid/route.js:5-6 | The effective template id is the variable when it is truthy and the placeholder otherwise. It is never empty. |
| `RenderProxy.TemplateConfiguredIff` | app/api/polaroid/route.js:27-30 | The template check passes iff the variable is set, non-empty, and not the placeholder. |
| `RenderProxy.SanitizedCaption` | app/api/polaroid/route.js:37 | A caption exists iff the input caption is truthy. It is then a non-empty prefix of length 60 or the caption's length, whichever is smaller. |
| `RenderProxy.CaptionTruncated` | app/api/polaroid/route.js:37-41 | `modifications.caption` exists iff the client's caption is non-empty. Its value is exactly the first 60 or the caption's length, whichever is smaller characters. |
| `RenderProxy.Modifications` | app/api/polaroid/route.js:39-48 | `photo` is always the image. `caption`, `caption.color` and `canvasBackgroundColor` are each present iff their input is truthy, with the input's value. No other key exists. |
| `RenderProxy.BackgroundColorInsideModifications` | app/api/polaroid/route.js:45-48 | A truthy background colour ends up inside `modifications`. The payload has no other place for it. |
| `RenderProxy.Outbound` | app/api/polaroid/route.js:50-65 | The request goes to the Orshot render URL. It uses method `POST` and has exactly the headers `Content-Type: application/json` and `Authorization: Bearer <key>`, the configured template id, the modifications, and `response = {type: "url", format: "png", scale: 3}`. |
| `RenderProxy.ProviderErrorMessage` | app/api/polaroid/route.js:67-71 | The error text is the provider's truthy `message`, else "Failed to generate polaroid". An unparsable error body counts as `{}`. For a `null` body there is no text, because reading `message` throws. |
| `RenderProxy.IsOk` | app/api/polaroid/route.js:67 | `response.ok`: the status is in 200..299. |
| `RenderProxy.NotModifiedBecomesInternalError` | app/api/polaroid/route.js:67-73 | A provider 304 is never relayed: whatever its body, the route answers 500 Internal. |
| `RenderProxy.NullErrorBodyBecomesInternalError` | app/api/polaroid/route.js:68-71 | A provider error whose body is JSON `null` is not relayed: reading its `message` throws and the route answers 500 Internal. |
| `RenderProxy.Normalise` | app/api/polaroid/route.js:67-88 | A non-ok status is relayed with the provider's message when the response constructor accepts it with a JSON body (200..599 and not 304). An ok answer with a body that has `data` gives 200 `{image, format}`. These give 500 Internal: a failed fetch, a `null` error body, any other non-ok status (304, or outside 200..599), an ok null-body status (204 or 205), and an ok body without `data` or not JSON. A 2xx comes back iff there is an image. Every answer has a status the constructor accepts. |
| `HomePage.Home.constructor` | app/page.jsx:13-20 | The state starts with no photos, no processing, no error, an empty caption, background `#f5f5f4`, caption colour `#1a1a1a` and no preview. |
| `HomePage.Home.ShowTwoColumns` | app/page.jsx:89 | The grid column is shown iff there are photos or a generation is running. |
| `HomePage.Home.StartGeneration` | app/page.jsx:31-46 | Processing starts and the error is cleared. The route is sent the image with the current caption and colours, unchanged. |
| `HomePage.Home.CompleteGeneration` | app/page.jsx:48-60 | An ok reply puts `{id, image}` in front of the current photos, in their order. A non-ok reply or a failure sets the error and leaves the photos as they are. Processing is off afterwards on every path. |
| `HomePage.ReplyError` | app/page.jsx:50-51 | The error shown is the reply's non-empty `error`, else "Failed to generate polaroid". |
| `HomePage.ReplyImage` | app/page.jsx:54 | The new photo's image is present iff the reply carried one. |
| `HomePage.RouteReplyAddsImage` | app/page.jsx:48-54 | Every ok reply the route produces carries an image, so the page never stores a photo without one. |
| `HomePage.Home.HandleGenerate` | app/page.jsx:79-83 | With no truthy preview nothing happens and nothing is sent. Otherwise a generation of the preview starts. |
| `HomePage.Home.SelectFile` | app/page.jsx:65-73 | A read file becomes the preview. A failed read sets "Failed to read file" and keeps the preview. |
| `HomePage.Home.CaptureFromCamera` | app/page.jsx:75-77 | The captured frame becomes the preview. |
| `HomePage.Home.ClearPreview` | app/page.jsx:128 | The preview is cleared. |
| `HomePage.Home.SetStyle` | app/page.jsx:121-126 | The caption and colours take the form's values. |
| `HomePage.WithoutIndex` | app/page.jsx:86 | Filtering out one index shortens the list by one when the index is in range and keeps its length otherwise. |
| `HomePage.WithoutIndexDeletes` | app/page.jsx:85-87 | Filtering out index `i` gives `s[..i] + s[i+1..]` when `i` is in range and `s` unchanged otherwise. |
| `HomePage.Home.RemovePhoto` | app/page.jsx:85-87 | `handleRemovePhoto(i)` deletes exactly the element at `i` and keeps the others in order. An out-of-range `i` changes nothing. |
| `PolaroidGrid.ColumnShownIffGridRenders` | app/page.jsx:89 | `showTwoColumns` holds iff the grid's `totalItems` is positive, so the column is shown exactly when the grid renders something. |
| `PolaroidGrid.IsOpenAt` | components/polaroid-grid.jsx:18-21 | The lightbox is open iff the cursor is set and lies in 0..`photos.length`-1. |
| `PolaroidGrid.Grid.IsOpen` | components/polaroid-grid.jsx:18-21 | `isOpen` of the grid's current cursor and photos. |
| `PolaroidGrid.Grid.LightboxImage` | components/polaroid-grid.jsx:18-22 | The lightbox image is the pointed-at photo's image when the cursor is in range. It is null otherwise, including when the photos shrank below the cursor. |
| `PolaroidGrid.NextIndex` | components/polaroid-grid.jsx:24-26 | `goNext` increments only below the last photo's index and otherwise keeps the index. A null index stays null. An in-range cursor stays in range. |
| `PolaroidGrid.PrevIndex` | components/polaroid-grid.jsx:28-30 | `goPrev` decrements only above 0, so it never goes below 0. A null index stays null. An in-range cursor stays in range. |
| `PolaroidGrid.Grid.GoNext` | components/polaroid-grid.jsx:24-26 | The cursor moves as `NextIndex` says, and an open lightbox stays open. |
| `PolaroidGrid.Grid.GoPrev` | components/polaroid-grid.jsx:28-30 | The cursor moves as `PrevIndex` says, and an open lightbox stays open. |
| `PolaroidGrid.Grid.Close` | components/polaroid-grid.jsx:32-34 | The cursor becomes null and the lightbox is closed. |
| `PolaroidGrid.Grid.HandleKey` | components/polaroid-grid.jsx:36-42 | While open, Escape closes, ArrowRight goes next and ArrowLeft goes previous. Other keys, and any key while closed, change nothing. |
| `PolaroidGrid.Grid.View` | components/polaroid-grid.jsx:181 | Clicking a card points the cursor at it, which opens the lightbox. |
| `PolaroidGrid.ShowPrevAt` | components/polaroid-grid.jsx:202 | The Prev button is shown iff pressing it would move the cursor. |
| `PolaroidGrid.ShowNextAt` | components/polaroid-grid.jsx:217 | The Next button is shown iff pressing it would move the cursor. |
| `PolaroidGrid.CounterText` | components/polaroid-grid.jsx:236-238 | The counter is the decimal 1-based position, then " / ", then the decimal photo count. |
| `PolaroidGrid.Grid.Download` | components/polaroid-grid.jsx:51-59 | Without a truthy lightbox image nothing is downloaded. Otherwise the image is linked under the name `polaroid-{index+1}.png`. |
| `PolaroidGrid.PhotoFileNamesDistinct` | components/polaroid-grid.jsx:55 | Different positions get different `polaroid-{i+1}.png` names. |
| `PolaroidGrid.PhotoFileName` | components/polaroid-grid.jsx:55 | Photo `i` is named `polaroid-{i+1}.png`, in a single download and in the zip. |
| `PolaroidGrid.FileNames` | components/polaroid-grid.jsx:70-74 | The zip's name set holds the name of each of the first `n` photos. |
| `PolaroidGrid.FileNamesMembers` | components/polaroid-grid.jsx:70-74 | Photo `i`'s name is among the first `n` names iff `i < n`. |
| `PolaroidGrid.FileNamesOnly` | components/polaroid-grid.jsx:70-74 | Every name among the first `n` belongs to one of the first `n` photos. |
| `PolaroidGrid.ZipAfterKeys` | components/polaroid-grid.jsx:70-74 | After `n` photos the zip's names are exactly the first `n` photo names. |
| `PolaroidGrid.ZipAfterSize` | components/polaroid-grid.jsx:70-74 | After `n` photos the zip has `n` entries, so no `zip.file` call overwrote an earlier one. |
| `PolaroidGrid.ZipAfterEntry` | components/polaroid-grid.jsx:70-74 | After `n` photos the entry named for photo `i < n` holds photo `i`'s image. |
| `PolaroidGrid.ZipEntries` | components/polaroid-grid.jsx:69-75 | The zip has exactly one entry per photo. Entry `polaroid-{i+1}.png` holds photo `i`'s image, and no two photos share a name. |
| `PolaroidGrid.Grid.DownloadAll` | components/polaroid-grid.jsx:63-90 | With no photos nothing happens. Otherwise the archive has one distinct entry per photo, and zipping is off at the end. |
| `PolaroidGrid.TotalItems` | components/polaroid-grid.jsx:92-94 | The total is 0, so the grid renders nothing, iff there are no photos and no generation is running. Otherwise it is the photo count plus at most one. |
| `PolaroidGrid.ShowDownloadAll` | components/polaroid-grid.jsx:116 | The "Download All" button is offered iff there are at least two photos. |
| `PolaroidGrid.DownloadAllOfferedOnlyForSeveral` | components/polaroid-grid.jsx:63-64 | Whenever the button is offered, the grid and its header render, `handleDownloadAll`'s early return does not fire, and the archive gets at least two entries. |
| `PolaroidGrid.Grid.constructor` | components/polaroid-grid.jsx:16-17 | The grid starts with the given props, the lightbox closed and no zipping. |
| `PolaroidGrid.Grid.SetProps` | components/polaroid-grid.jsx:16 | New props replace the old ones and the cursor is kept. |
| `PolaroidCard.Rotation` | components/polaroid-card.jsx:11-12 | The tilt lies in [-5, 5] for every non-negative index, as the comment claims. |
| `PolaroidCard.RotationPeriodic` | components/polaroid-card.jsx:12 | The tilt repeats with period 11. |
| `PolaroidCard.RotationDistinctInPeriod` | components/polaroid-card.jsx:12 | Within 11 consecutive cards no two tilts are equal. |
| `PolaroidCard.SerialLabel` | components/polaroid-card.jsx:107 | The label is `#` followed by `index+1` in decimal, left-padded with `0` to at least 3 digits. The number is never truncated. |
| `PolaroidCard.SerialLabelReadsAsPosition` | components/polaroid-card.jsx:107 | After the `#` the label is all digits and reads as `index+1`. |
| `PolaroidCard.Download` | components/polaroid-card.jsx:14-37 | Both the blob path and the fallback path name the file `instant-polaroid-{index+1}.png`. The fallback links the image itself in a new tab. |
| `PolaroidCard.DownloadFileNameIdentifiesCard` | components/polaroid-card.jsx:21-31 | Two downloads get the same file name iff they come from the same card, whichever path each took. |
| `PolaroidCard.DownloadFileName` | components/polaroid-card.jsx:21 | The card's download is named `instant-polaroid-{index+1}.png`. The fallback at line 31 uses the same name. |
| `PolaroidCard.HasTape` | components/polaroid-card.jsx:113 | A card carries tape iff its index is a multiple of 3. |
| `PolaroidCard.RemoveButtonDropsOwnPhoto` | components/polaroid-card.jsx:93-96 | The remove button passes the card's own index to `handleRemovePhoto`. So that card's photo, and only it, is removed. Earlier cards keep their index and later cards move up by one. |
| `JsText.DecimalRoundTrip` | components/polaroid-card.jsx:107 | The decimal text of `n` reads back as `n`. This is what makes the labels and file names identify positions. |
| `JsText.Decimal` | components/polaroid-card.jsx:107 | `String(n)` of a non-negative integer is non-empty, all decimal digits, and starts with `0` only for 0. |
| `JsText.Truthy` | app/api/polaroid/route.js:13 | A string value is truthy iff it is present and non-empty. |
| `JsText.PadStart` | components/polaroid-card.jsx:107 | `padStart` with a one-character fill keeps the string as its suffix, fills the front only with the fill character, and reaches the target length. |
| `JsText.SliceTo` | app/api/polaroid/route.js:37 | `slice(0, n)` is a prefix of length `n` or the length of `s`, whichever is smaller. |

## Left out

- Rate limiting: `app/api/polaroid/route.js` has none, so none is modelled.
- Network and JSON I/O (`fetch`, `request.json()`, `response.json()`, `NextResponse`) are replaced by abstract inputs and outputs: `InboundBody`, `ProviderOutcome`, `HomePage.Reply` and the `Exchange` record.
- Values of other JSON types are not modelled. A request field is treated as a string or absent, so `String(caption)` of a number or an object is not covered. The provider's `message` is treated the same way.
- A provider success `data` object that lacks `content` or `format` is not modelled. In the source those fields become `undefined` and drop out of the JSON.
- `Number(ORSHOT_TEMPLATE_ID)` is not modelled: the payload carries the template id text.
- JSON key order in `modifications` is not modelled, because a map has no order.
- `console.log` and `console.error` are left out because they have no effect on results.
- `Date.now()` is not modelled: the photo id is a parameter of `CompleteGeneration`.
- React scheduling is simplified. Each state update is applied when its handler runs. Closures that see an older render's `photos.length` are not modelled.
- The camera dialog (`isCameraOpen`, `components/camera-capture.jsx`), `fileToBase64`, and the upload form's UI-level guards (image MIME check, `maxLength={60}`) are browser I/O and markup.
- The DOM side effects of downloads are not modelled: the link element, `click`, `URL.createObjectURL`/`revokeObjectURL`, and `document.body.style.overflow`. Only the names and targets are modelled.
- PolaroidGrid.Grid.DownloadAll: a failing fetch of one photo is not modelled. In the source that path reaches the `catch`, produces no archive and still ends with zipping off. The dynamic `jszip` import and `Promise.all` are left out too.
- Animation parameters (framer-motion) and the hover state of a card are cosmetic.
- JavaScript strings count UTF-16 code units. Characters stand for code units here, and surrogate pairs get no special handling.
- PolaroidCard.Rotation: only non-negative indices are covered, since a card's index comes from `photos.map`. For a negative index, JavaScript's truncating `%` would differ from Dafny's.
- The presentational components are markup and class names: `components/photo-upload.jsx`, `components/header.jsx`, `components/decorative-polaroids.jsx`, `components/ui/*`, `app/layout.jsx` and `app/error.jsx`.
