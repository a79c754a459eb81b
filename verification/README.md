# full-screen-youtube, verified core

`FullScreenYouTube` (index.js) embeds a YouTube player that autoplays muted, loops, and is resized to
cover its container or the whole window at a fixed 16:9 ratio. Almost all of the class is glue around the
YouTube IFrame API and the DOM. This project models its two pieces of pure logic in Dafny:

- **Construction and argument checking** (`js_values.dfy`, `banner.dfy`). JavaScript values are a
  datatype `JsValue` with `Truthy` (the `!x` tests) and `TypeOf` (the `typeof` operator). `Construct`
  applies the parameter defaults (`selector = 'video'`, `container = false`, each only for an
  `undefined` argument), fixes the ratio at 16/9 and runs `CheckElementExists`. That check either
  passes, which means the banner goes on to load the video, or fails with one of the two errors the
  JavaScript throws, each with its exact message.
- **Cover-fit geometry** (`cover_fit.dfy`). `ResizeElement` is the inner `resizeElement` of
  `resizeVideoToContainer`, written over exact `real` arithmetic with the formulas of index.js unchanged.
  That includes the offset formulas, which are not geometrically centred. `Banner.ResizeVideoToContainer`
  runs it once in the initial layout and again for each later resize or orientation-change layout.

An argument that the caller omits is passed to `Construct` as `Undefined`. The window and container
sizes that `resizeElement` reads become the parameter `Layout`.

The code's own comments and JSDoc say more than the code enforces. The model follows the code:

- The comment at index.js:22 reads "Error out if YouTube ID is not a string". The guard under it
  (index.js:23) tests whether the url is truthy and whether the *selector* is a string. It never tests
  the url's type. So a selector that is not a string gives the "No valid video URL" message, even when
  the url is valid. A truthy url that is not a string, such as a number, is accepted.
- The JSDoc (index.js:4-6) marks only `container` as optional, yet `selector` has the default `'video'`
  (index.js:9). That default applies only to an `undefined` argument, as every JavaScript parameter
  default does. An explicit `null` selector is kept, and the first guard rejects it with the URL message.

`CoverFit.ResizeOffsetsAgainstCentring` makes the offset formulas precise. The centred offset on an
axis is half of (box side − element side), a value at most 0. The literal top offset is `aspect` times
the centred one, and the literal left offset is the centred one divided by `aspect`. Both offsets are
still never positive. For any ratio other than 1, including 16/9, an offset matches centring only when
it is zero. The offsets are off-centre, but `CoverFit.ResizeFarEdgesCover` shows that for ratios between
1/2 and 2 the element still reaches the box's far edges, so 16/9 covers the box edge to edge.
`CoverFit.ResizeFarEdgeMissesAtRatioThree` shows the bound matters.

The branch test `outerWidth / outerHeight > aspect` divides by the box height. For a zero height,
JavaScript gives `Infinity` (a positive width) or `NaN` (a zero width). `CoverFit.WiderThanRatio` writes
those two outcomes out, so a box with a zero side is modelled too and still gets finite numbers.

## Model

| member | source | states |
|---|---|---|
| JsValues.Truthy | index.js:23 | a value is truthy exactly when it is not one of JavaScript's falsy values: undefined, null, false, 0, NaN or "" |
| JsValues.TypeOf | index.js:23 | `typeof` yields "string" exactly for strings, "undefined" exactly for undefined, "object" exactly for null and objects, "function" exactly for functions, "number" exactly for numbers and NaN |
| JsValues.WithDefault | index.js:9 | a defaulted parameter keeps every argument except `undefined`, which it replaces by the default, so the parameter is never `undefined` when the default is not |
| Banner.CheckElementExists | index.js:21-34 | the check passes (and loading goes on) iff the url is truthy and the selector is a non-empty string; the URL error is thrown iff the url is falsy or the selector is not a string; the element-id error is thrown iff the url is truthy and the selector is the empty string |
| Banner.Construct | index.js:9-18 | construction succeeds iff the url is truthy and the selector is omitted or a non-empty string; it fails with each error under the stated conditions; on success the banner keeps the url, takes "video" for an omitted selector and `false` for an omitted container, has ratio 16/9, and is in the loading state |
| Banner.NonStringSelectorGivesUrlError | index.js:23-25 | any selector that is not a string gives the "No valid video URL" error, whatever the url |
| Banner.UrlErrorTakesPrecedence | index.js:23-30 | a falsy url gives the URL error even when the selector is also bad |
| Banner.UrlTypeIgnored | index.js:23 | any two truthy urls get the same verdict, so a number url with a good selector passes |
| Banner.NullSelectorIsNotDefaulted | index.js:9-25 | an explicit null selector is kept and rejected with the URL error; an omitted selector with a truthy url succeeds |
| Banner.OuterBox | index.js:89-90 | the box measured is the window's inner size for any falsy container (the default `false` among them), and the container's offset size for a truthy one |
| Banner.ResizeVideoToContainer | index.js:82-105 | after the initial sizing and any sequence of resize events, the placement is the cover fit of the last layout only, has ratio 16/9, and covers edge to edge (offsets at most 0, left + width and top + height reaching the far sides) that layout's window when the container is falsy and the container's box otherwise |
| CoverFit.WiderThanRatio | index.js:93 | the branch test, with JavaScript's division by a zero height, holds exactly when the box width exceeds its height times the ratio |
| CoverFit.ResizeElement | index.js:87-100 | when the box is strictly wider than the ratio, the element's width equals the box width and its left offset is 0; otherwise its height equals the box height and its top offset is 0 |
| CoverFit.ResizeKeepsAspectRatio | index.js:96-97 | the element's width is the ratio times its height, in both branches |
| CoverFit.ResizeCoversBox | index.js:93-97 | the element is at least as wide and at least as tall as the box, for every box with no negative side |
| CoverFit.ResizeIsSmallestCover | index.js:93-97 | every size with the same ratio that covers the box is at least as large on both axes as the element |
| CoverFit.ResizeOffsetsNonPositive | index.js:98-99 | both offsets are at most 0 |
| CoverFit.ResizeOffsetsAgainstCentring | index.js:98-99 | the top offset is the ratio times half of (box height − element height); the left offset is half of (box width − element width) divided by the ratio; for a ratio other than 1 an offset equals the centred one only when it is 0 |
| CoverFit.ResizeAtExactRatio | index.js:93-99 | a box of exactly the ratio does not take the wide branch and is filled exactly, with both offsets 0 |
| CoverFit.ResizeDegenerateBoxes | index.js:93-99 | a zero-width box gives width H times the ratio, height H, left -H/2, top 0; a zero-height box of width W gives width W, height W over the ratio, left 0, top -W/2 |
| CoverFit.ResizeFarEdgesCover | index.js:96-99 | for a ratio between 1/2 and 2 (16/9 among them), left + width reaches the box width and top + height reaches the box height, so with the literal offsets the element still covers the box edge to edge |
| CoverFit.ResizeFarEdgeMissesAtRatioThree | index.js:96-99 | the ratio bound is needed: at ratio 3 a 10x1 box gets top + height below 1, leaving its bottom edge uncovered |
| CoverFit.ResizeScales | index.js:93-99 | scaling the box by k > 0 scales width, height and both offsets by k |
| CoverFit.ResizeExamples | index.js:93-99 | at ratio 16/9: 1600x900 gives 1600x900 at (0,0); 1920x1200 gives 6400/3x1200 with left -60; 2560x900 gives 2560x1440 with top -480 |

## Left out

- Script-tag injection (index.js:40-45): document I/O. A passing check is modelled as the banner
  entering the loading state, not as a DOM change.
- `YT.Player` construction with its `playerVars`, `playVideo`, and the `ENDED` state check
  (index.js:48-79): calls into the YouTube library, which is not part of this model.
- The global `window.onYouTubeIframeAPIReady`, `onPlayerReady` and `onPlayerStateChange` hooks, and the
  last-writer-wins race between banners: shared mutable browser state.
- Reading `window.innerWidth`/`offsetWidth`, `getElementById`, the `'px'` string writes and the
  `resize`/`orientationchange` listener registration (index.js:84, 89-90, 96-99, 104-105): DOM plumbing.
  Only the numbers are modelled, and the sizes come in as `Layout` values.
- IEEE-754 rounding of `16 / 9` and of the divisions: arithmetic is exact over `real`.
- A negative box side is excluded by a precondition, because a browser never reports one. The ratio is
  required to be positive, which 16/9 is.
- A truthy container that is not an element, whose `offsetWidth` is `undefined`: the container's box
  always comes from the `Layout` parameter.
- JavaScript `Infinity`, BigInt, Symbol and `document.all` are not among the modelled values.
