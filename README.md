# llamaload capture engine, in Dafny

This project models the capture engine of llamaload's `server.js`. The engine
renders a web page as a PNG screenshot for a `POST /api/screenshot` request.
The model covers four pieces:

- **URL normalisation** (`Url`): `normalizeUrl` turns the raw `url` field into
  the address to capture. A falsy input gives nothing. Any other input is
  trimmed with JavaScript's `trim` (`Text`), and `https://` is put in front
  unless it already starts with `http://` or `https://`, ignoring case.
- **Network policy** (`Policy`): the `request` listener put on every page.
  Fonts and media are aborted. Any other request is aborted when its full URL
  contains one of eight tracker fragments, ignoring case. Everything else
  continues.
- **Browser memoisation** (`Pool`): `getBrowser` and the module-level
  `browserPromise`, as a class with one field and a ghost launch counter.
- **Request lifecycle** (`Capture`, with `Http` for the Express response
  object): `handleScreenshot` as a sequential method. Each browser and page
  call is a foreign step that returns or throws; how each one turns out is an
  input (`Outcomes`). The method records the calls it makes, writes the
  response, and is proved to agree with reference functions. Those functions
  describe a request by its first failing step (`ExpectedCalls`,
  `ExpectedReply`, `PageLeftOpen`). Lemmas about them state the promises:
  an input error touches nothing, a page that exists is closed exactly once,
  nothing is retried, the filter is in place before navigation, and the 500
  error is written only while the headers are not yet out.

`handleScreenshot` is split into `HandleScreenshot` (the address check) and
`CaptureTarget` (`try`, `catch` and `finally`). The `try` block is `TryCapture`,
which calls `PreparePage` (setup and navigation) and `CaptureAndSend`
(screenshot and image response). Each of these is verified separately.
Together they make the same calls in the same order as the source.
`HandleScreenshot` also returns the error that would escape the handler. It is
always none: `catch` takes every error of the `try` block, and the inner
`catch` of `finally` takes a failed close.

## Model

| member | source | states |
|---|---|---|
| `Text.IsTrimmable` | server.js:32 | the code points `trim` removes: the ECMAScript WhiteSpace and LineTerminator classes |
| `Text.SkipLeading` | server.js:32 | the index where the leading run of trimmable code points ends: everything before it is trimmable, the code point at it is not |
| `Text.SkipTrailing` | server.js:32 | the index where the trailing run of trimmable code points starts: everything from it on is trimmable, the code point before it is not |
| `Text.Trim` | server.js:32 | the trimmed string is no longer than the input and neither starts nor ends with a trimmable code point |
| `Text.TrimDropsOnlyTrimmable` | server.js:32 | `trim` keeps one contiguous piece of the input; everything before and after it is trimmable |
| `Text.TrimEmptyIff` | server.js:32 | `trim` gives the empty string exactly when every code point is trimmable |
| `Text.TrimFixed` | server.js:32 | a string with non-trimmable ends is left unchanged by `trim` |
| `Text.TrimIdempotent` | server.js:32 | trimming twice is trimming once |
| `Url.Falsy` | server.js:31 | JavaScript falsiness of the `url` field: absent, `null` or the empty string; every other string is truthy |
| `Url.HasScheme` | server.js:33 | the test `/^https?:\/\//i`: the string starts with `http://` or `https://`, ignoring ASCII case |
| `Url.NormalizeUrl` | server.js:30-37 | null exactly for a falsy input (absent or empty); a non-null result is truthy, has an http(s) scheme and has no surrounding whitespace |
| `Url.NormalizeKeepsTrimmedInput` | server.js:32-36 | a non-null result is the trimmed input, with `https://` added in front exactly when the trimmed input has no http(s) scheme |
| `Url.NormalizeIdempotent` | server.js:30-37 | normalising a non-null result again changes nothing |
| `Url.NormalizeTrimmed` | server.js:31-36 | a non-empty string with no whitespace at either end is returned as it is when it has a scheme, and with `https://` in front otherwise |
| `Url.BlankInputYieldsBarePrefix` | server.js:31-35 | a whitespace-only string is truthy and yields `"https://"` |
| `Url.NormalizeBareHost` | server.js:33-35 | `example.com` becomes `https://example.com` |
| `Url.NormalizeUpperCaseScheme` | server.js:33 | the scheme test ignores case: `HTTP://Example.com` is kept as written |
| `Url.NormalizeOtherScheme` | server.js:33-35 | any scheme other than http(s) is not recognised: `ftp://example.com` becomes `https://ftp://example.com` |
| `Policy.IsBlockedType` | server.js:84 | the exact resource types `font` and `media` |
| `Policy.ContainsIgnoringCase` | server.js:90 | the unanchored case-insensitive search for one fragment, position by position |
| `Policy.MatchesAny` | server.js:90 | the alternation of the regular expression, as one search per fragment |
| `Policy.IsTracker` | server.js:90 | reference form of the tracker test: some fragment of the eight occurs at some position, ignoring case |
| `Policy.ContainsIgnoringCaseIff` | server.js:90 | the scanning search finds a fragment exactly when it occurs at some position of the URL, ignoring case |
| `Policy.MatchesAnyIff` | server.js:90 | the alternation matches exactly when one of its fragments occurs in the URL |
| `Policy.Decide` | server.js:79-98 | `font` and `media` always abort; any other type aborts when some tracker fragment occurs anywhere in the URL, ignoring case; the request continues exactly when neither rule fires |
| `Policy.DecideIgnoresCase` | server.js:90 | two URLs that differ only in ASCII case get the same decision |
| `Policy.TrackerAnywhereAborts` | server.js:89-95 | the tracker rule is not tied to the host name: a fragment anywhere in the URL, with any text before and after it, aborts the request |
| `Pool.Acquire` | server.js:44-53 | what one `getBrowser` call hands back: the stored promise, or the new launch when nothing is stored |
| `Pool.Replay` | server.js:43-54 | over any run of `getBrowser` calls, every call gets the promise the first call got |
| `Pool.LaunchesIn` | server.js:43-54 | a run of `getBrowser` calls launches at most once, and exactly once when nothing was stored and there is at least one call |
| `Pool.CallRepeatedly` | server.js:43-54 | a run of `getBrowser` calls on one pool hands out exactly the promises `Replay` describes and launches exactly `LaunchesIn` times |
| `Pool.BrowserPool.constructor` | server.js:41 | the process starts with no promise stored and no launch made |
| `Pool.BrowserPool.GetBrowser` | server.js:43-54 | launches only when nothing is stored, stores that promise (a rejected one too) and returns the stored promise; a stored promise is never replaced, and there is never more than one launch |
| `Pool.SharedAcrossRequests` | server.js:41-54 | in a fresh process, two calls both get the first launch's promise, whatever a second launch would give |
| `Http.Response.constructor` | server.js:58 | a response starts with status 200, no headers and nothing sent |
| `Http.Response.Status` | server.js:63 | `res.status` changes only the status code |
| `Http.Response.SetHeader` | server.js:120-124 | `res.setHeader` adds one header while the headers are not out yet |
| `Http.Response.Json` | server.js:130-132 | `res.json` sends the headers and the `{ error }` body; it may only be called while the headers are not out |
| `Http.Response.Send` | server.js:125 | `res.send` either delivers the image and sends the headers, or throws with its message, having sent the headers or not |
| `Capture.StepCall` | server.js:70-115 | call `i` of the `try` block with its arguments: the timeouts, interception on, the listener, the 1920x1080 viewport at scale 3, navigation with `domcontentloaded`, the 600 ms wait and the viewport PNG |
| `Capture.Made` | server.js:69-118 | the first `n` calls of the `try` block: `n` calls, call `i` being `StepCall(i)` |
| `Capture.PageFailure` | server.js:78-118 | the first page step that throws: every earlier page step returned, and that one threw |
| `Capture.FirstFailure` | server.js:69-118 | the first step of the `try` block that throws: every earlier step returned, and that one threw |
| `Capture.ExpectedCalls` | server.js:58-143 | reference for the calls of one request: none for an input error; otherwise the `try` block up to and including the first call that throws, then one close when a page exists |
| `Capture.ExpectedReply` | server.js:58-133 | reference for the response: 400 for an input error, 500 with the message of the first step that throws, otherwise what the send produced (image, headers only, or 500 before the headers) |
| `Capture.PageLeftOpen` | server.js:134-141 | the page stays open exactly when a page was created and closing it threw |
| `Capture.FilterRespected` | server.js:79-110 | the listener also sees the document request `goto` sends; when it aborts that request, navigation fails |
| `Capture.PreparePage` | server.js:74-113 | sets the two default timeouts, turns interception on, installs the listener, sets the viewport to 1920x1080 at scale 3, navigates with `domcontentloaded` and a 15000 ms timeout, and waits 600 ms; it stops at the first step that throws and returns that error |
| `Capture.CaptureAndSend` | server.js:115-125 | takes a viewport PNG; on success sets the two image headers and sends the buffer; returns the screenshot's or the send's error |
| `Capture.TryCapture` | server.js:69-125 | the calls made are the `try` block up to and including the first one that throws; a page exists exactly when the browser resolved and `newPage` returned; the pool ends up holding the promise |
| `Capture.CaptureTarget` | server.js:66-143 | for a usable address: the calls, the response and the open page are those of the reference functions, the pool holds the promise, and no error escapes |
| `Capture.HandleScreenshot` | server.js:58-144 | the calls, the response and whether the page is left open are those of the reference functions; no error escapes the handler, not even a failed close; an input error leaves the pool alone; otherwise the stored browser promise stays stored |
| `Capture.InputErrorTouchesNothing` | server.js:60-64 | with no usable URL, no browser or page call is made and the answer is 400 `No URL provided.` |
| `Capture.CloseExactlyOnce` | server.js:134-143 | close is attempted exactly when a page was created, exactly once, and last; a failure before or at page creation leaves nothing to close |
| `Capture.NoCallRepeated` | server.js:69-143 | no call is made twice, so nothing is retried and the browser is asked for only once |
| `Capture.FilterBeforeNavigation` | server.js:78-110 | navigation goes to the normalised address and waits for `domcontentloaded`, and only after interception is on and the listener is installed |
| `Capture.ScreenshotOnlyAfterSuccess` | server.js:69-118 | the screenshot is taken exactly when every earlier step returned |
| `Capture.BlockedTargetFails` | server.js:79-110 | when the filter aborts the target's own document request, the request is answered 500 with an error body and no screenshot is taken |
| `Capture.ReplyCases` | server.js:58-144 | every request is answered with 200, 400 or 500. 400 exactly for an input error. The image exactly when every step returned and the send delivered. A failing step gives 500 with `Error taking screenshot: ` and its message. Once the headers are out, no error body follows |
| `Capture.CloseFailureIsSwallowed` | server.js:134-141 | the same request with a close that returns and with one that throws: the same calls and the same response, no error escapes the handler, and only the page is left open |
| `Capture.CloseOutcomeIgnored` | server.js:134-141 | the calls made and the response do not depend on how the close turns out |
| `Capture.TwoRequests` | server.js:43-54 | a second request uses the promise the first request stored; after a rejected first launch, the second request with a usable URL gets 500 with that launch's message |

## Left out

- Express setup, middleware, static files, routing and `app.listen` (server.js:1-6, 25-28, 146-152): these are I/O plumbing.
- The Puppeteer calls themselves (launch with its arguments, `newPage`, `setRequestInterception`, `setViewport`, `goto`, `waitForTimeout`, `screenshot`, `close`). They are foreign calls. Each one is a recorded `Call` whose result is an input.
- Timeouts and the settle delay are wall-clock behaviour. Their constants appear only as call arguments.
- `console.error` logging (server.js:127-128, 139): output only.
- Concurrent requests: the handler is modelled as sequential. For the pool, the at-most-once launch of interleaved first requests becomes the at-most-once launch of sequential calls.
- Retry after a failed launch: server.js:44-53 keeps a rejected promise stored, so the pool never launches again. The model follows the code (`Capture.TwoRequests`) and does not reset the pool.
- Non-string `url` values: the input of `NormalizeUrl` is an absent value or a string. A number, array or object from the request body is not modelled. A truthy one would make `trim` throw outside the `try` block.
- Express's own handling inside `res.json` and `res.send` (the JSON content type, the encoding) is not modelled. `Reply.headers` holds only the headers the handler sets itself.
- `res.send` throwing is an input (`SendOutcome`). In ordinary operation it delivers. It is the only step after which the headers can already be out when `catch` runs.
- The document request: the URL the listener sees for the navigation is taken to be the target as normalised, not as the browser canonicalises it. How navigation turns out is an input. `Capture.FilterRespected` ties it to the filter, and `Capture.BlockedTargetFails` states the consequence. The other lemmas also cover outcomes that break this tie.
- Strings are sequences of Unicode code points, while JavaScript strings are UTF-16 code units. A lone surrogate in `url` cannot be represented. `trim` and the ASCII case folding give the same results on well-formed strings.
- Error values are modelled by their message string. A thrown non-`Error` value has no `message`, and that case is not modelled.
- PNG pixel dimensions depend on the library. The model uses the constant scale 3 of server.js:19. The comments at server.js:11 and :100 say 2.
- The mobile/vertical profile, the brand-snapshot endpoint and the metadata extractor are not in server.js, so they are not part of this model.
- `puppeteer.config.cjs` holds a static cache-directory setting and no logic.
- `Text.IsTrimmable` follows JavaScript's `trim`: the ECMAScript WhiteSpace and LineTerminator code points, not only ASCII whitespace.
- The case folding is ASCII only. This is exact for the scheme test and the tracker pattern: their letters are all ASCII, and a non-Unicode `/i` match never folds a non-ASCII character to an ASCII one.
