# html-to-image utilities in Dafny

This project models the synchronous core of html-to-image's `src/util.ts`. That core has five parts:

- the rasterizer's sizing: `checkCanvasDimensions`, which clamps a canvas to 16384 device pixels per axis, and `imageToCanvas`, which sizes, styles, fills and draws a fresh canvas;
- size resolution: `getImageSize`, `getNodeWidth`, `getNodeHeight`, and the process-wide device pixel ratio `getPixelRatio`;
- the locator helpers: `getExtension`, `getMimeType`, the prefix branches of `resolveUrl`, and the data-URL helpers `isDataUrl`, `makeDataUrl` and `parseDataUrlContent` (section 3 of RFC 2397);
- the small loops: `toArray`, and the byte copy in `canvasToBlob`'s fallback together with its `type`/`quality` defaults;
- the snapshot serializer's strings: the SVG wrapper that `nodeToDataURL` builds, and the `data:image/svg+xml;charset=utf-8,` prefix of `svgToDataURL`.

Modules follow the components:

| module | contents |
|---|---|
| `Wrappers` | `Option`: `None` stands for `undefined` |
| `Js` | truthiness and `||`, `parseInt(_, 10)` (ECMA-262 section 19.2.5), integer text, `split` on one character, ASCII `toLowerCase` |
| `Options` | the conversion options record |
| `Mime` | `getExtension`, `getMimeType` as written, and the corrected `getMimeType` |
| `Urls` | `resolveUrl` classification, data URLs |
| `Geometry` | node and image size, `getPixelRatio` |
| `Canvas` | the canvas class, the clamp, `imageToCanvas` |
| `Blob` | `canvasToBlob` encode request and fallback copy loop |
| `Svg` | `setAttribute`, the SVG wrapper, `svgToDataURL` |
| `ArrayLike` | `toArray` |

How JavaScript is modelled:

- **Numbers** are exact `real`s standing in for doubles. A number option is truthy when it is present and non-zero, so `0` and absent behave the same, as `||` makes them.
- **Canvas `width`/`height`** are `nat` fields. An assignment stores the number as Web IDL converts it to `unsigned long` (integer part, modulo 2^32). Then HTML's rule for reflected `unsigned long` attributes applies: a value above 2147483647 is replaced by the default, 300 wide and 150 high.
- **The clamp** computes the scaled axis as `floor(other * 16384 / dominant)` in integer arithmetic. This stands in for the double product `other * (16384 / dominant)`, truncated when stored.
- **Drawing** is recorded as a log of `Fill(color, 0, 0, w, h)` and `Draw(image, 0, 0, w, h)` operations on the canvas object. No pixels are produced.

Two details of the code shape the model:

- `px` returns `parseFloat`'s NaN for an unparsable border width, so the whole node width is NaN. Border widths are inputs here (see Left out).
- A non-numeric environment value gives 1, which then wins over any window ratio in `ratio || window.devicePixelRatio || 1`. An environment value that parses to 0 falls through to `window.devicePixelRatio || 1`.

## Model

| member | source | states |
|---|---|---|
| `Canvas.ClampDimensions` | src/util.ts:223-247 | both axes end at most 16384 and never grow; the size is unchanged exactly when both axes are already within 16384 |
| `Canvas.ClampKeepsAspect` | src/util.ts:228-245 | the dominant axis (the larger one when both exceed, a tie going to the height) becomes exactly 16384, and the other axis keeps the aspect ratio up to truncation: `new * old_dominant <= old * 16384 < (new + 1) * old_dominant` |
| `Canvas.ClampIdempotent` | src/util.ts:223-247 | clamping an already clamped size changes nothing |
| `Canvas.ClampExample` | src/util.ts:228-245 | 20000x10000 becomes 16384x8192, 10000x20000 becomes 8192x16384, 20000x20000 becomes 16384x16384 |
| `Canvas.CheckCanvasDimensions` | src/util.ts:223-247 | updates the canvas's width and height in place to `ClampDimensions` of the old ones; style and drawing log untouched; attributes stay in range |
| `Canvas.StoreDimension` | src/util.ts:262-263 | what `canvas.width = x` stores never exceeds 2147483647; for `0 <= x < 2^31` it is `floor(x)`; for `2^31 <= x < 2^32`, and for `-2^31 <= x <= -1`, which wraps into that range, it is the attribute's default |
| `Canvas.LogicalSize` | src/util.ts:257-260 | the CSS width is a truthy `options.canvasWidth`, otherwise `getImageSize`'s width; likewise for the height |
| `Canvas.DeviceSize` | src/util.ts:262-263 | both stored device dimensions are at most 2147483647, and each is the floor of the logical size times the ratio when that product is in `[0, 2^31)` |
| `Canvas.CanvasRatio` | src/util.ts:256 | the ratio is a truthy `options.pixelRatio` verbatim, otherwise `getPixelRatio()`'s choice; never 0 |
| `Canvas.Rasterize` | src/util.ts:254-278 | the returned canvas is within 16384 unless `skipAutoScale`; its CSS size is always the unscaled logical size (`canvasWidth || width`), even after clamping; its log is one full-canvas fill in the background color exactly when that color is truthy, followed by exactly one draw covering `(0, 0, width, height)` of the final, post-clamp size |
| `Canvas.RasterizeDeviceSize` | src/util.ts:259-267 | the device size is the logical size times the ratio as the attributes store it; with `skipAutoScale` it is left unclamped, and otherwise it is clamped, which changes nothing when it is within the limit |
| `Canvas.RasterizeExample` | src/util.ts:254-276 | a 100x50 node at `pixelRatio: 2` gives device size 200x100, CSS size 100x50 and exactly one draw of 200x100 |
| `Canvas.RasterizeNegativeRatio` | src/util.ts:130-140 | an environment ratio of `"-2"` is used as -2, the negative device size wraps out of the attribute's range, and the canvas keeps its 300x150 default |
| `Canvas.ImageToCanvas` | src/util.ts:249-279 | returns a fresh canvas whose state is `Rasterize` of the inputs, reached by the source's assignments and calls in order |
| `Canvas.Canvas.constructor` | src/util.ts:254 | a new canvas is 300x150 with no style size and nothing drawn |
| `Canvas.Canvas.FillRect` | src/util.ts:272-273 | appends one fill to the log and changes nothing else; the attributes stay in range |
| `Canvas.Canvas.DrawImage` | src/util.ts:276 | appends one draw to the log and changes nothing else; the attributes stay in range |
| `Geometry.NodeWidth` | src/util.ts:108-112 | the node width is the client width plus the left and right borders, and is at least the client width when the borders are non-negative |
| `Geometry.NodeHeight` | src/util.ts:114-118 | the same for the height, with the top and bottom borders |
| `Geometry.ImageSize` | src/util.ts:181-186 | a truthy `options.width` is returned verbatim, and an absent or zero one is measured as `clientWidth + leftBorder + rightBorder`; likewise for the height |
| `Geometry.ImageSizeExplicit` | src/util.ts:181-186 | with both sizes given, the node's measurements are ignored entirely: any two nodes give the same size |
| `Geometry.PixelRatio` | src/util.ts:120-141 | the process-wide ratio chosen from the environment string and the window ratio is never 0 |
| `Geometry.PixelRatioFromEnv` | src/util.ts:130-140 | an environment value that is the decimal text of a non-zero integer gives that integer, whatever the window says |
| `Geometry.PixelRatioNonNumericEnv` | src/util.ts:134-139 | a non-empty environment value that `parseInt` maps to NaN gives 1, whatever the window says |
| `Geometry.PixelRatioLetterEnv` | src/util.ts:134-139 | an environment value starting with a letter, after any blanks, gives 1 |
| `Geometry.PixelRatioFromWindow` | src/util.ts:130-140 | an absent, empty or zero environment value falls through to `window.devicePixelRatio \|\| 1` |
| `Geometry.GetPixelRatio` | src/util.ts:120-141 | the branch-by-branch computation with a local `ratio`, starting as undefined, returns exactly the chosen ratio |
| `Js.ParseIntOfIntegerText` | src/util.ts:135 | `parseInt(_, 10)` reads back the decimal text of any integer, after any leading white space and before any trailing non-digit text |
| `Js.ParseIntNaN` | src/util.ts:135-138 | `parseInt` is NaN when the first non-blank character is neither a sign nor a digit |
| `Js.ParseInt10` | src/util.ts:135 | `parseInt(_, 10)` is a number exactly when, after leading white space and at most one sign, a decimal digit follows; a negative result needs a leading `-` |
| `Js.LowerCase` | src/util.ts:24 | the result has no upper-case ASCII letter and equals the input up to ASCII letter case, which pins it down; text without upper case is unchanged |
| `Js.LowerCaseIgnoresCase` | src/util.ts:24 | two texts lower to the same text exactly when they differ only in ASCII letter case |
| `Js.Split` | src/util.ts:69 | `split` on one character gives at least one piece, no piece contains the separator, and the pieces joined with it give back the input |
| `Js.SplitAtFirst` | src/util.ts:69 | splitting at the first separator peels off exactly the text before it |
| `Mime.GetExtension` | src/util.ts:18-21 | the result is the capture group of the match of `\.([^./]*?)$`: the text after the dot where that match starts, or `''` when nothing matches; it never contains `.` or `/` |
| `Mime.ExtensionOfName` | src/util.ts:18-21 | the extension of `stem.ext` is `ext` whenever `ext` contains no `.` and no `/` |
| `Mime.GetMimeType` | src/util.ts:23-26 | the type is non-empty exactly when the lower-cased extension is an own key of the table, and is then that key's entry |
| `Mime.MimeTypeOfJpeg` | src/util.ts:3-26 | an extension equal to `jpg` or `jpeg` up to letter case gives `image/jpeg` |
| `Mime.MimeTypeOfWoff` | src/util.ts:3-26 | an extension equal to `woff` or `woff2` up to letter case gives `application/font-woff` |
| `Mime.MimeTypeOfUnknown` | src/util.ts:23-26 | an extension outside the table gives `''` |
| `Mime.MimeTypeAsWrittenLeaks` | src/util.ts:5-26 | as written, the lookup returns a non-string exactly for the extensions that lower-case to `constructor` or `__proto__` |
| `Mime.MimeTypeAsWrittenExample` | src/util.ts:23-26 | as written, any `name.constructor` gives the inherited `constructor` member instead of a string |
| `Mime.GetMimeTypeAsWritten` | src/util.ts:5-26 | as written, wherever the lookup returns a string it is the corrected lookup's string, and otherwise it returns an inherited Object.prototype member where the corrected lookup gives `''` |
| `Urls.ResolveUrl` | src/util.ts:28-42 | an input of ASCII letters followed by `:` is returned unchanged, with or without `//`; otherwise an input starting with `//` becomes `protocol + url`; anything else goes to the host's document |
| `Urls.ResolveUrlKeepsScheme` | src/util.ts:28-42 | `scheme:rest` is returned unchanged for any non-empty run of letters as the scheme |
| `Urls.ResolveUrlIdempotent` | src/util.ts:28-42 | with a protocol of the form `letters:`, resolving a resolved locator again changes nothing |
| `Urls.ParseDataUrlContent` | src/util.ts:68-70 | the content is undefined exactly when there is no comma, and otherwise contains no comma |
| `Urls.ParseAfterFirstComma` | src/util.ts:68-70 | the content is the text after the first comma, up to the next comma |
| `Urls.IsDataUrl` | src/util.ts:60-62 | true exactly when the first five characters are `data:` in lower case |
| `Urls.IsDataUrlAnchored` | src/util.ts:60-62 | `data:…` passes, while `DATA:…`, `Data:…`, ` data:…` and `url(data:…` fail: the test is case-sensitive and anchored at the start |
| `Urls.MakeDataUrl` | src/util.ts:64-66 | the result is a data URL whose media type field is the MIME type, followed by `;base64,` and then exactly the content |
| `Urls.DataUrlContentPrefix` | src/util.ts:64-70 | with a comma-free MIME type, parsing a built data URL gives its content up to the content's first comma |
| `Urls.DataUrlRoundTrip` | src/util.ts:64-70 | with a comma-free content and MIME type, `parseDataUrlContent(makeDataUrl(c, m)) == c` |
| `Blob.BlobType` | src/util.ts:175 | the blob's type is a truthy `options.type`, otherwise `image/png`; never empty |
| `Blob.EncodeRequest` | src/util.ts:147-164 | the native `toBlob` is used exactly when the canvas has one |
| `Blob.EncodeDefaults` | src/util.ts:147-176 | the native call defaults the type to `image/png` and the quality to 1; the fallback passes a truthy type and quality through to `toDataURL` and both as undefined when falsy; the type the native call requests is the type the fallback labels its blob with |
| `Blob.FallbackPayload` | src/util.ts:158-165 | `.split(',')[1]` of a base64 data URL is its whole payload |
| `Blob.BinaryStringRoundTrip` | src/util.ts:166-171 | copying the binary string of any bytes gives back those bytes |
| `Blob.BytesRoundTrip` | src/util.ts:166-171 | a string of codes below 256, like `atob`'s output, is recovered from its bytes |
| `Blob.FallbackBlob` | src/util.ts:166-177 | the copy loop fills a `Uint8Array` of the string's length with each character code in order, and the blob holds exactly those bytes under the blob type |
| `ArrayLike.ToArray` | src/util.ts:93-101 | the pushed-into array holds exactly the indexable's elements, in order |
| `Svg.SetAttribute` | src/util.ts:297-305 | after `setAttribute(name, value)` the attribute reads `value`, every other attribute reads as before, and a new name is appended at the end, so the list grows by one exactly then |
| `Svg.Wrap` | src/util.ts:293-308 | the tree is an SVG-namespace `<svg>` whose attribute list is exactly `width`, `height`, `viewBox="0 0 width height"`, in that order. Its only child is a `<foreignObject>` whose list is exactly `width="100%"`, `height="100%"`, `x="0"`, `y="0"`, `externalResourcesRequired="true"`, in that order. Its only child is the clone |
| `Svg.ViewBoxMatchesSize` | src/util.ts:297-299 | read back as space-separated fields, the viewBox is `0`, `0`, width, height |
| `Svg.WrapExample` | src/util.ts:297-299 | a 100x50 node gives `width="100"`, `height="50"` and `viewBox="0 0 100 50"` |
| `Svg.SvgToDataUrl` | src/util.ts:281-286 | the result starts with `data:image/svg+xml;charset=utf-8,` followed by the encoded text, is a data URL, and gives the encoded text back as its content when that text has no comma, as `encodeURIComponent` output has none |

## Left out

- `resolveUrl`'s fallback (src/util.ts:44-57): it resolves a relative locator through a throwaway document's `<base>` and `<a>`, which is the host's URL parser. `Urls.ResolveUrl` returns `None` for that case.
- `createImage` (src/util.ts:188-219): asynchronous image loading, joined over host load and error events.
- `delay` and `uuid` (src/util.ts:72-91): timers and `Math.random`.
- `px` (src/util.ts:103-106): it reads the computed style and calls `parseFloat`. Border widths are inputs instead, and the NaN it gives for an unparsable value is not modelled.
- Pixel results of `fillRect` and `drawImage`: the log records the calls only.
- The fill color: the host ignores an invalid `fillStyle`, but `Fill` records the string given.
- A failing `getContext('2d')`: it is not modelled.
- `canvas.toDataURL` and `canvas.toBlob` encoding, and a `toBlob` that resolves `null`.
- `Blob.EncodeDefaults`: it does not model the type of the blob on the native path. There the host labels the blob with the type it actually encoded, which is `image/png` when the requested type is unsupported. The fallback labels its blob `options.type` whatever `toDataURL` produced. The lemma proves only that the type the native call requests equals the fallback's label. The two requests themselves differ when the type is falsy: the native call asks for `image/png` and the fallback passes `undefined`.
- `window.atob` (base64 decoding): `Blob.FallbackBlob` starts from the decoded binary string.
- `XMLSerializer` and `encodeURIComponent`: `Svg.SvgToDataUrl` takes their output as an opaque string.
- JavaScript's number-to-string conversion in template literals: the SVG attributes take the width and height texts as given, and `Js.IntegerText` covers integral values.
- The canvas's CSS size: it is recorded as the number, not as the string `${canvasWidth}`. How the host parses that unitless value is not modelled.
- Promises and asynchrony: `canvasToBlob` and `svgToDataURL` return promises, and the model keeps only the values they resolve to.
- NaN and infinities: they are not modelled. Every JavaScript number is an exact real.
- `Canvas.ClampDimensions`: it does not model IEEE-754 rounding of `other * (16384 / dominant)`. In doubles the product can land just below an integer and be truncated one lower than the exact floor used here.
- `Geometry.PixelRatio`: it does not model `parseInt` returning Infinity for an env value with more than about 309 digits. Such a value is an unbounded integer here.
- `Js.LowerCase`: it folds only A-Z. The table keys and the two lower-case inherited names are ASCII. The only non-ASCII character whose lower case is entirely ASCII is U+212A, which becomes `k`. None of those keys contains `k`, so lookups are unaffected.
- `ArrayLike.ToArray`: it returns the new array's contents as a value, so freshness and aliasing of the JavaScript array are not modelled.
- Strings are sequences of Unicode scalar values, not UTF-16 code units. The binary strings `atob` produces have only codes below 256, where the two agree.
- src/index.ts and es/index.js: asynchronous pipelines over collaborators that are not part of this model (cloning, font and image embedding, style application). es/index.js is the compiled copy of src/index.ts.
- src/options.ts is not part of this model. The options record holds the fields that src/util.ts reads.

## Findings

| source | as written | input that shows it | evidently intended | confidence | as-written member | corrected member |
|---|---|---|---|---|---|---|
| src/util.ts:23-26 | `mimes[extension] \|\| ''` looks the key up on an object literal, so Object.prototype's members are found too | `getMimeType("font.constructor")` returns the function `Object`; `"a.__proto__"` returns `Object.prototype` | `''` for every extension that is not an own key of the table | not executed; follows from ECMAScript property lookup on ordinary objects | `Mime.MimeTypeAsWrittenExample` | `Mime.GetMimeType` |
