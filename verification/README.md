# Image elevation: a Dafny model of the rendering logic

The application takes an uploaded image and lets the user add padding, a drop
shadow, rounded corners and a display size with four sliders. It shows a
preview, and exports the result as a PNG, either downloaded or copied to the
clipboard. This project models the logic behind that:

- **Page** (`app/page.tsx`): the slider table, the default settings, the
  update a slider makes to the settings, the dimensions stored for an
  uploaded image (non-PNG images are redrawn at most 400 pixels wide and
  stored with the same aspect ratio), and the name of the downloaded file (`photo.jpg`
  becomes `photo-elevation.png`).
- **ImageGenerator** (`app/ImageGenerator.jsx`): the component as a value.
  With no image it is a warning. With an image it is a container holding one
  image. The image is shown at its native width clamped to `maxWidth`
  (800 by default) and scaled by `size` percent.
- **RenderPng** (`app/render-png.js`): `renderPNG` rescales padding, shadow
  and radius from the 400-unit logical canvas to the image's native width.
  It lays the scene out on a document as wide as the image and posts it to
  the rasterising worker. The worker client keeps a table of pending
  requests keyed by a per-request id. A reply resolves the promise
  registered under its id and removes that entry. A reply with an unknown id
  is ignored.

Modules: `Types` (types.dfy) holds the shared values. `JsString`
(js_string.dfy) models the JavaScript string operations the page calls.
`ImageGenerator` (image_generator.dfy), `RenderPng` (render_png.dfy) and
`Page` (page.dfy) follow the three source files. JavaScript numbers are
modelled as exact reals.

The pending-request table is a class, `RenderPng.PngConverter`. Its
`pending` map is updated in place. Its `posted` field logs the messages sent
to the worker. Its `resolved` field logs the promises resolved and the reply
each received. Promise number k is the one created for the k-th posted
request. `Valid()` states the routing invariant: every resolved promise got
a reply carrying its own request's id, at most once. The pure function
`Deliver` specifies what a sequence of worker replies does to the table, and
the lemmas about it state the routing properties.

Notes on the source:
- satori is given only the image's width (`app/render-png.js:51-53`), no
  height.
- The displayed image width is computed inside `ImageGenerator` with the
  `maxWidth` the page passes (400). It is not rescaled to the native width.
  For an 800-pixel image the export's document is 800 wide, the image gets
  style width 400, and the container gets style width 440, padding 20 and
  style maxWidth 400 (`RenderPng.Render800Wide`, `Page.ExportVersusPreview`).
- The settings are JavaScript numbers. Once rescaled they need not be
  integers (a 401-wide image gives padding 10 * 401/400 = 10.025).

## Model

| member | source | states |
|---|---|---|
| `JsString.ToLowerCase` | app/page.tsx:65 | the lower-cased name keeps its length and holds no upper-case letter |
| `JsString.IndexOf` | app/page.tsx:66-69 | finds a match exactly when the pattern occurs, and the index found is the first occurrence |
| `JsString.Includes` | app/page.tsx:66 | true exactly when the pattern occurs somewhere in the string |
| `JsString.Replace` | app/page.tsx:67-69 | only the first occurrence is replaced; a string without the pattern is returned unchanged |
| `JsString.ReplaceKeepsNoUpper` | app/page.tsx:67-69 | replacing with lower-case text keeps a lower-case string lower-case |
| `JsString.LowerIdempotent` | app/page.tsx:65 | lower-casing a string without capitals changes nothing |
| `ImageGenerator.Coef` | app/ImageGenerator.jsx:28-30 | `coef` times the native width is the width clamped to `maxWidth`, taken at `size` percent |
| `ImageGenerator.ImageWidth` | app/ImageGenerator.jsx:28-31 | the displayed width is min(native width, maxWidth) * size / 100; for 0 <= size <= 100 it lies between 0 and min(native width, maxWidth) |
| `ImageGenerator.Scene` | app/ImageGenerator.jsx:6-56 | the warning exactly when there is no image or its `src` is empty; otherwise a container with padding `padding`, CSS max width 400 and width imageWidth + 2*padding, holding an image with the same `src`, the clamped width, the shadow and the radius |
| `ImageGenerator.WarningIgnoresSettings` | app/ImageGenerator.jsx:7-26 | without an image or `src`, every settings object and every `maxWidth` give the same warning |
| `ImageGenerator.MaxWidthDefaultsTo800` | app/ImageGenerator.jsx:4-6 | omitting `maxWidth` is the same as passing 800 |
| `ImageGenerator.UnclampedWidth` | app/ImageGenerator.jsx:28-31 | an image no wider than `maxWidth` is shown at width * size / 100 |
| `ImageGenerator.ClampedWidthIgnoresNative` | app/ImageGenerator.jsx:28-31 | two images wider than `maxWidth` are both shown at maxWidth * size / 100, whatever their native widths |
| `ImageGenerator.ContainerBound` | app/ImageGenerator.jsx:28-40 | with size at most 100 and non-negative padding, the image fits the clamp and the container is at most the clamp plus twice the padding |
| `RenderPng.ScaleSettings` | app/render-png.js:37-47 | padding, shadow and radius keep their share of the canvas width (value * 400 == scaled * width); size is unchanged; at width 400 nothing changes |
| `RenderPng.ScaleInverse` | app/render-png.js:40-47 | scaling to a width and then by 400*400/width gives back the original settings |
| `RenderPng.Render` | app/render-png.js:39-54 | the document is as wide as the native image; its scene is a container exactly when `src` is set; padding, shadow and radius are scaled by width/400, and the image width is the clamped display width, unscaled |
| `RenderPng.Render800Wide` | app/render-png.js:39-54 | an 800x600 image with padding 10, shadow 15, radius 5, size 100 and clamp 400 gives style values padding 20, shadow 30, radius 10, image width 400, container width 440 and container maxWidth 400, on an 800-wide document |
| `RenderPng.Render300WideHalfSize` | app/render-png.js:39-54 | a 300x200 image at size 50 with the rest zero is shown 150 wide on a 300-wide document |
| `RenderPng.Deliver` | app/render-png.js:13-20 | replies arriving in sequence only remove table entries, resolve at most one promise each, and each resolution goes to the promise registered under the reply's id |
| `RenderPng.DeliverResolvesWithArrivals` | app/render-png.js:13-18 | every promise resolved is resolved with one of the replies that arrived |
| `RenderPng.DeliverUnknown` | app/render-png.js:14-16 | replies whose ids are not pending leave the table unchanged and resolve nothing |
| `RenderPng.DeliverDistinct` | app/render-png.js:13-19 | replies to distinct pending ids, in any order, remove exactly their ids and resolve, in arrival order, each id's own promise with its own reply |
| `RenderPng.DeliverAnswersAll` | app/render-png.js:11-33 | when the replies answer every pending id once, the table ends empty and every pending promise receives the reply carrying its id |
| `RenderPng.PngConverter.constructor` | app/render-png.js:11 | the table starts empty, with nothing posted and nothing resolved |
| `RenderPng.PngConverter.Dispatch` | app/render-png.js:22-33 | posts the request, creates the next promise and registers it under the id; with a fresh id exactly that id is added; other entries and resolutions are unchanged; the routing invariant is kept |
| `RenderPng.PngConverter.OnMessage` | app/render-png.js:13-20 | a pending id resolves its promise with the whole reply and removes only that entry; an unknown id changes nothing; the routing invariant is kept |
| `RenderPng.PngConverter.DeliverAll` | app/render-png.js:13-20 | handling replies one by one leaves the table and the resolutions that `Deliver` describes |
| `RenderPng.RenderPNG` | app/render-png.js:39-62 | posts the rendered document with the native width, so both the document and the message are `image.width` wide, and registers the new promise under the id |
| `RenderPng.ReversedReplies` | app/render-png.js:11-33 | two requests answered in reverse order, with a stray reply in between: each promise gets its own reply and nothing stays pending |
| `Page.SliderOf` | app/page.tsx:10-22 | the slider table (padding, shadow and radius 0-99 in steps of 5, size 10-100 in steps of 2); the contract records only that each range is non-empty and each step positive |
| `Page.DefaultSettings` | app/page.tsx:111-116 | the initial settings are padding 10, radius 5, shadow 15, size 100, each a value its slider can produce |
| `Page.WithField` | app/page.tsx:196-201 | a slider change sets the named field to the new value and leaves the other three unchanged |
| `Page.SliderKeepsAllowed` | app/page.tsx:193-201 | a slider change with a value the slider can produce keeps every field within its slider's range and step |
| `Page.AllowedSettingsStayInClamp` | app/page.tsx:82 | with settings the sliders produce, the previewed image is never wider than min(native width, 400) |
| `Page.Downscaled` | app/page.tsx:141-143 | the redrawn width is min(width, 400), never above 400; the height is positive and the aspect ratio is kept; images at most 400 wide keep their dimensions |
| `Page.UploadedImage` | app/page.tsx:119-162 | no file stores nothing; a PNG keeps its data URL and native dimensions; a non-PNG is stored only when a blob was made, under its blob URL, at most 400 wide and with its aspect ratio |
| `Page.FirstDotInLower` | app/page.tsx:65-69 | a name with a '.' has a first '.' once lower-cased |
| `Page.NoDotInLower` | app/page.tsx:65-69 | a name without a '.' holds neither '.' nor ".jpg" once lower-cased |
| `Page.JpgStepKeepsFirstDot` | app/page.tsx:66-69 | the first ".jpg" is never before the first '.', and turning it into ".png" leaves the first '.' where it was |
| `Page.ElevationNameLength` | app/page.tsx:69 | a name with a '.' grows by exactly 10 characters; a name without one keeps its length |
| `Page.ElevationNameWithoutDot` | app/page.tsx:69 | a name without a '.' comes out as its lower-case form |
| `Page.ElevatedIsLowerCase` | app/page.tsx:65-69 | splicing keeps a lower-case name lower-case |
| `Page.ElevationNameIsLowerCase` | app/page.tsx:65 | the download name holds no upper-case letter |
| `Page.ElevationNameAtFirstDot` | app/page.tsx:66-69 | only the first '.' becomes "-elevation."; what follows is the rest of the lower-cased name, with its first ".jpg" made ".png" if it has one |
| `Page.ElevationNameExamples` | app/page.tsx:65-69 | "photo.jpg" and "Photo.JPG" give "photo-elevation.png", "art.png" gives "art-elevation.png", "README" gives "readme" |
| `Page.ReplacesBuildElevated` | app/page.tsx:66-69 | the two `replace` steps, the first taken only when ".jpg" occurs, build the single splice at the first '.' |
| `Page.DownloadName` | app/page.tsx:65-69 | the name built step by step is the download name that the lemmas above describe |
| `Page.ExportVersusPreview` | app/page.tsx:48-82 | the export shows the image as wide as the preview does, but with padding, shadow and radius scaled by native width / 400; at a native width of 400 the two scenes are equal |

## Left out

- The React rendering, the JSX markup, CSS class names, the `loading`
  button state and the slider's displayed value (`param[field.name] ??
  field.defaultValue ?? "0"`): presentation only.
- satori's SVG serialisation and the worker's resvg rasterisation: foreign
  libraries behind an execution-context boundary. A document is the scene
  plus its width, and a reply carries the worker's PNG bytes as an opaque
  sequence. resvg-worker.js is not part of this model.
- How satori lays the scene out: the model keeps the style values (widths,
  padding, the container's fixed `maxWidth: 400`), not the laid-out boxes.
  Where a container's style width exceeds its maxWidth, as on the export
  of any image wider than 400 with padding, the width actually drawn is
  decided by satori's layout and is not stated here.
- Downloading before any upload: the page's initial image is `{}`, with no
  `name`, `src`, `width` or `height`. The model gives every image a name
  and dimensions and represents only the missing `src` (as the empty
  string). On that path the source computes `image.width / 400` on
  `undefined` and, if the export resolves, `image.name.toLowerCase()`
  throws; neither failure is modelled.
- The `$&`, `$$`, `` $` `` and `$'` patterns of JavaScript's `replace`: the
  replacement is spliced literally, which is exact for the page's two
  replacements (".png" and "-elevation."), neither of which holds a '$'.
- The box-shadow string `rgba(0,0,0,.${shadow})`: formatting a float as
  text. The scene keeps the shadow value only.
- FileReader, `Image` decoding, canvas `drawImage` and `toBlob`,
  `URL.createObjectURL`, the clipboard write and the anchor click: browser
  I/O. Their results (data URL, decoded dimensions, blob URL or none) are
  parameters. The canvas's `width` and `height` are integer attributes
  (`app/page.tsx:145-146`), so the redrawn bitmap's height is `newHeight`
  truncated; the aspect ratio is exact only for the stored `width` and
  `height`, which keep the untruncated `newHeight`.
- The copy branch of `handleDownload` (a clipboard write of the blob): I/O
  with no computation.
- `Math.random()` ids: supplied by the caller. A repeated id is modelled as
  `Map.set` behaves: it replaces the earlier entry, whose promise then never
  resolves.
- The Promise suspension itself: resolving is recorded as an entry in the
  `resolved` log. A worker that never replies leaves its entry pending
  forever, as in the source.
- `convertSVGToPNG` being undefined outside a browser (`typeof window ===
  "undefined"`): server-side rendering is not modelled.
- `Number(e.target.value ?? 0)`: parsing the slider's string is not
  modelled. The slider change takes the number.
- Optional `Params` fields: the settings always carry all four values, as
  the defaults guarantee.
- IEEE floating-point rounding, NaN and infinities: exact real arithmetic.
  So `Page.UploadedImage` and `Page.Downscaled` state the aspect ratio
  exactly. The decoded dimensions are required to be positive, as a loaded
  image's are.
- JsString.ToLowerCase: maps only the ASCII letters A-Z. JavaScript's full
  Unicode case mapping, which can change a string's length, is not modelled.
- `Page.ElevationNameLength` relies on that ASCII lower-casing: a name whose
  Unicode lower-case form has a different length would grow by 10 relative
  to that form.
