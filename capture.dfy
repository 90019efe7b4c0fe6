/**
 * `handleScreenshot`: one capture request from the raw `url` field to the
 * response, with the page opened for it and the cleanup that follows.
 *
 * The browser and page calls are foreign: each is recorded as a `Call` and
 * its outcome is given in `Outcomes`. The reference functions `ExpectedCalls`,
 * `ExpectedReply` and `PageLeftOpen` describe the outcome of a request by
 * the first step that fails; `HandleScreenshot` is proved to agree with them.
 */
module Capture {
  import opened Wrappers
  import opened Url
  import opened Pool
  import opened Http
  import opened Policy

  // The desktop capture profile and the timing constants.
  const VIEWPORT_WIDTH := 1920
  const VIEWPORT_HEIGHT := 1080
  const DEVICE_SCALE := 3
  const NAVIGATION_TIMEOUT := 15000
  const EXTRA_LAYOUT_WAIT := 600

  const NO_URL := "No URL provided."
  const ERROR_PREFIX := "Error taking screenshot: "
  const PNG_HEADERS: map<string, string> := map[
    "Content-Type" := "image/png",
    "Content-Disposition" := "inline; filename=\"llamaload-mockup.png\""
  ]

  /** A call the handler makes on the browser pool, the browser or the page. */
  datatype Call =
    | GetBrowser
    | NewPage
    | SetDefaultNavigationTimeout(ms: int)
    | SetDefaultTimeout(ms: int)
    | SetRequestInterception(enabled: bool)
    | OnRequest                     // installs the listener `Policy.Decide` models
    | SetViewport(width: int, height: int, deviceScaleFactor: int)
    | Goto(url: string, waitUntil: string, timeout: int)
    | WaitForTimeout(ms: int)
    | Screenshot(fullPage: bool, format: string)
    | ClosePage

  /**
   * How each foreign call of one request turns out. `launch` is what a browser
   * launch would produce; it is used only when the pool has nothing stored.
   */
  datatype Outcomes = Outcomes(
    launch: BrowserPromise,
    newPage: Outcome,
    interception: Outcome,
    viewport: Outcome,
    navigation: Outcome,
    settle: Outcome,
    screenshot: Result<Bytes>,
    send: SendOutcome,
    close: Outcome)

  /** The number of calls in the `try` block before the response is written. */
  const STEPS := 10

  /** Call `i` of the `try` block: the order in which the handler makes its calls when none of them throws. */
  function StepCall(url: string, i: nat): Call {
    if i == 0 then GetBrowser
    else if i == 1 then NewPage
    else if i == 2 then SetDefaultNavigationTimeout(NAVIGATION_TIMEOUT)
    else if i == 3 then SetDefaultTimeout(NAVIGATION_TIMEOUT)
    else if i == 4 then SetRequestInterception(true)
    else if i == 5 then OnRequest
    else if i == 6 then SetViewport(VIEWPORT_WIDTH, VIEWPORT_HEIGHT, DEVICE_SCALE)
    else if i == 7 then Goto(url, "domcontentloaded", NAVIGATION_TIMEOUT)
    else if i == 8 then WaitForTimeout(EXTRA_LAYOUT_WAIT)
    else Screenshot(false, "png")
  }

  /** The first `n` calls of the `try` block. */
  function Made(url: string, n: nat): (s: seq<Call>)
    ensures |s| == n
    ensures forall i :: 0 <= i < n ==> s[i] == StepCall(url, i)
  {
    if n == 0 then [] else Made(url, n - 1) + [StepCall(url, n - 1)]
  }

  /** How many calls of the `try` block are made when call `k` is the first to throw (`STEPS`: none throws). */
  function Reached(k: nat): nat {
    if k < STEPS then k + 1 else STEPS
  }

  /**
   * How call `i` of the `try` block turns out once a page exists (`i >= 2`).
   * Setting the default timeouts and installing the listener do not throw.
   */
  function PageStepOutcome(o: Outcomes, i: nat): Outcome {
    if i == 4 then o.interception
    else if i == 6 then o.viewport
    else if i == 7 then o.navigation
    else if i == 8 then o.settle
    else if i == 9 then (if o.screenshot.Failure? then Fail(o.screenshot.error) else Pass)
    else Pass
  }

  /** How call `i` of the `try` block turns out, given the promise the pool hands back. */
  function StepOutcome(browser: BrowserPromise, o: Outcomes, i: nat): Outcome {
    if i == 0 then (if browser.Rejected? then Fail(browser.reason) else Pass)
    else if i == 1 then o.newPage
    else PageStepOutcome(o, i)
  }

  /** The index of the first call on the page that throws, or `STEPS` when none does. */
  function PageFailure(o: Outcomes): (k: nat)
    ensures 2 <= k <= STEPS
    ensures forall i :: 2 <= i < k ==> PageStepOutcome(o, i).Pass?
    ensures k < STEPS ==> PageStepOutcome(o, k).Fail?
  {
    if o.interception.Fail? then 4
    else if o.viewport.Fail? then 6
    else if o.navigation.Fail? then 7
    else if o.settle.Fail? then 8
    else if o.screenshot.Failure? then 9
    else STEPS
  }

  /** The index of the first call of the `try` block that throws, or `STEPS` when none does. */
  function FirstFailure(browser: BrowserPromise, o: Outcomes): (k: nat)
    ensures k <= STEPS
    ensures forall i :: 0 <= i < k ==> StepOutcome(browser, o, i).Pass?
    ensures k < STEPS ==> StepOutcome(browser, o, k).Fail?
  {
    if browser.Rejected? then 0
    else if o.newPage.Fail? then 1
    else PageFailure(o)
  }

  /** `page` holds a page: the browser was obtained and `newPage` returned. */
  predicate PageCreated(browser: BrowserPromise, o: Outcomes) {
    browser.Resolved? && o.newPage.Pass?
  }

  /**
   * Reference for the calls of one request: none for an input error; otherwise
   * the `try` block up to and including the first call that throws, then one
   * close when a page exists.
   */
  function ExpectedCalls(target: Option<string>, browser: BrowserPromise, o: Outcomes): seq<Call> {
    if Falsy(target) then []
    else Made(target.value, Reached(FirstFailure(browser, o))) + if PageCreated(browser, o) then [ClosePage] else []
  }

  /**
   * Reference for the response of one request, case by case: an input error,
   * a step that throws, and the three ways the final send can go.
   */
  function ExpectedReply(target: Option<string>, browser: BrowserPromise, o: Outcomes): Reply {
    if Falsy(target) then
      Reply(400, map[], true, Some(ErrorJson(NO_URL)))
    else
      var k := FirstFailure(browser, o);
      if k < STEPS then
        Reply(500, map[], true, Some(ErrorJson(ERROR_PREFIX + StepOutcome(browser, o, k).message)))
      else
        match o.send
        case Delivered => Reply(200, PNG_HEADERS, true, Some(Image(o.screenshot.value)))
        case Threw(message, written) =>
          if written then Reply(200, PNG_HEADERS, true, None)
          else Reply(500, PNG_HEADERS, true, Some(ErrorJson(ERROR_PREFIX + message)))
  }

  /**
   * The listener also sees the page's own document request that `goto` sends
   * for `url`: when the filter aborts it, navigation cannot succeed.
   */
  predicate FilterRespected(url: string, o: Outcomes) {
    Decide("document", url) == Abort ==> o.navigation.Fail?
  }

  /** The page stays open after the request only when a page was created and closing it threw. */
  predicate PageLeftOpen(target: Option<string>, browser: BrowserPromise, o: Outcomes) {
    !Falsy(target) && PageCreated(browser, o) && o.close.Fail?
  }

  /** What the response holds after the screenshot succeeded and `send` was tried. */
  function AfterSend(buffer: Bytes, send: SendOutcome): Reply {
    match send
    case Delivered => Reply(200, PNG_HEADERS, true, Some(Image(buffer)))
    case Threw(_, written) => Reply(200, PNG_HEADERS, written, None)
  }

  /**
   * The page setup and navigation of the `try` block (timeouts, interception,
   * listener, viewport, navigation, settle delay), on a page just created.
   */
  method PreparePage(url: string, o: Outcomes, before: seq<Call>) returns (calls: seq<Call>, failure: Option<string>)
    requires before == Made(url, 2)
    ensures PageFailure(o) < STEPS - 1 ==>
      calls == Made(url, PageFailure(o) + 1) && failure == Some(PageStepOutcome(o, PageFailure(o)).message)
    ensures PageFailure(o) >= STEPS - 1 ==> calls == Made(url, STEPS - 1) && failure == None
  {
    calls, failure := before, None;
    calls := calls + [SetDefaultNavigationTimeout(NAVIGATION_TIMEOUT)];
    assert calls == Made(url, 3);
    calls := calls + [SetDefaultTimeout(NAVIGATION_TIMEOUT)];
    assert calls == Made(url, 4);
    calls := calls + [SetRequestInterception(true)];
    assert calls == Made(url, 5);
    if o.interception.Fail? {
      failure := Some(o.interception.message);
      return;
    }
    calls := calls + [OnRequest];
    assert calls == Made(url, 6);
    calls := calls + [SetViewport(VIEWPORT_WIDTH, VIEWPORT_HEIGHT, DEVICE_SCALE)];
    assert calls == Made(url, 7);
    if o.viewport.Fail? {
      failure := Some(o.viewport.message);
      return;
    }
    calls := calls + [Goto(url, "domcontentloaded", NAVIGATION_TIMEOUT)];
    assert calls == Made(url, 8);
    if o.navigation.Fail? {
      failure := Some(o.navigation.message);
      return;
    }
    calls := calls + [WaitForTimeout(EXTRA_LAYOUT_WAIT)];
    assert calls == Made(url, 9);
    if o.settle.Fail? {
      failure := Some(o.settle.message);
    }
  }

  /** The capture and the image response of the `try` block. */
  method CaptureAndSend(res: Response, url: string, o: Outcomes, before: seq<Call>)
    returns (calls: seq<Call>, failure: Option<string>)
    requires before == Made(url, STEPS - 1) && res.State() == UNTOUCHED
    modifies res
    ensures calls == Made(url, STEPS)
    ensures o.screenshot.Failure? ==> failure == Some(o.screenshot.error) && res.State() == UNTOUCHED
    ensures o.screenshot.Success? ==>
      && failure == (if o.send.Threw? then Some(o.send.message) else None)
      && res.State() == AfterSend(o.screenshot.value, o.send)
  {
    calls := before + [Screenshot(false, "png")];
    match o.screenshot
    case Failure(error) =>
      failure := Some(error);
    case Success(buffer) =>
      res.SetHeader("Content-Type", "image/png");
      res.SetHeader("Content-Disposition", "inline; filename=\"llamaload-mockup.png\"");
      assert res.headers == PNG_HEADERS;
      failure := res.Send(buffer, o.send);
  }

  /** The `try` block: obtain the browser, open a page, then set it up and capture. */
  method TryCapture(pool: BrowserPool, res: Response, url: string, o: Outcomes)
    returns (calls: seq<Call>, failure: Option<string>, page: bool)
    requires pool.Valid() && res.State() == UNTOUCHED
    modifies pool, res
    ensures pool.Valid() && pool.browserPromise == Some(Acquire(old(pool.browserPromise), o.launch))
    ensures var browser := Acquire(old(pool.browserPromise), o.launch);
      var k := FirstFailure(browser, o);
      && calls == Made(url, Reached(k))
      && page == PageCreated(browser, o)
      && (k < STEPS ==> failure == Some(StepOutcome(browser, o, k).message) && res.State() == UNTOUCHED)
      && (k == STEPS ==>
            && failure == (if o.send.Threw? then Some(o.send.message) else None)
            && res.State() == AfterSend(o.screenshot.value, o.send))
  {
    page := false;
    var browser := pool.GetBrowser(o.launch);
    calls := [GetBrowser];
    if browser.Rejected? {
      failure := Some(browser.reason);
      return;
    }
    calls := calls + [NewPage];
    assert calls == Made(url, 2);
    if o.newPage.Fail? {
      failure := Some(o.newPage.message);
      return;
    }
    page := true;
    assert FirstFailure(browser, o) == PageFailure(o);
    calls, failure := PreparePage(url, o, calls);
    if failure.None? {
      calls, failure := CaptureAndSend(res, url, o, calls);
    }
  }

  /**
   * The part of `handleScreenshot` after the address check: the `try` block;
   * `catch` answers 500 unless the headers are already out; `finally` closes
   * the page if there is one, swallows a failed close and leaves the browser open.
   */
  method CaptureTarget(pool: BrowserPool, res: Response, url: string, o: Outcomes)
    returns (calls: seq<Call>, pageOpen: bool, escaped: Option<string>)
    requires url != "" && pool.Valid() && res.State() == UNTOUCHED
    modifies pool, res
    ensures pool.Valid() && pool.browserPromise == Some(Acquire(old(pool.browserPromise), o.launch))
    ensures calls == ExpectedCalls(Some(url), Acquire(old(pool.browserPromise), o.launch), o)
    ensures res.State() == ExpectedReply(Some(url), Acquire(old(pool.browserPromise), o.launch), o)
    ensures pageOpen == PageLeftOpen(Some(url), Acquire(old(pool.browserPromise), o.launch), o)
    ensures escaped == None
  {
    pageOpen, escaped := false, None;
    var failure, page;
    calls, failure, page := TryCapture(pool, res, url, o);

    // catch
    if failure.Some? && !res.headersSent {
      res.Status(500);
      res.Json(ERROR_PREFIX + failure.value);
    }

    // finally: an error thrown here would become the handler's own failure
    if page {
      calls := calls + [ClosePage];
      match o.close
      case Pass =>
      case Fail(_) =>
        // the inner catch logs the error and drops it; the page stays open
        pageOpen := true;
    }
  }

  /**
   * `handleScreenshot`: normalise the address, answer 400 without touching the
   * browser when there is none, and capture it otherwise.
   */
  method HandleScreenshot(pool: BrowserPool, res: Response, rawUrl: Option<string>, o: Outcomes)
    returns (calls: seq<Call>, pageOpen: bool, escaped: Option<string>)
    requires pool.Valid() && res.State() == UNTOUCHED
    modifies pool, res
    ensures pool.Valid()
    ensures calls == ExpectedCalls(NormalizeUrl(rawUrl), Acquire(old(pool.browserPromise), o.launch), o)
    ensures res.State() == ExpectedReply(NormalizeUrl(rawUrl), Acquire(old(pool.browserPromise), o.launch), o)
    ensures pageOpen == PageLeftOpen(NormalizeUrl(rawUrl), Acquire(old(pool.browserPromise), o.launch), o)
    // Every error is caught: the handler itself never fails, not even when closing the page throws.
    ensures escaped == None
    // An input error leaves the pool alone; otherwise the browser is obtained and stays stored.
    ensures Falsy(NormalizeUrl(rawUrl)) ==>
      pool.browserPromise == old(pool.browserPromise) && pool.launchCount == old(pool.launchCount)
    ensures !Falsy(NormalizeUrl(rawUrl)) ==>
      pool.browserPromise == Some(Acquire(old(pool.browserPromise), o.launch))
  {
    var targetUrl := NormalizeUrl(rawUrl);
    if Falsy(targetUrl) {
      calls, pageOpen, escaped := [], false, None;
      res.Status(400);
      res.Json(NO_URL);
      return;
    }
    calls, pageOpen, escaped := CaptureTarget(pool, res, targetUrl.value, o);
  }

  /** An input error touches neither the browser nor a page, and is answered 400 "No URL provided.". */
  lemma InputErrorTouchesNothing(target: Option<string>, browser: BrowserPromise, o: Outcomes)
    requires Falsy(target)
    ensures ExpectedCalls(target, browser, o) == []
    ensures ExpectedReply(target, browser, o) == Reply(400, map[], true, Some(ErrorJson(NO_URL)))
    ensures !PageLeftOpen(target, browser, o)
  {
  }

  /**
   * Close is attempted exactly when a page was created, exactly once, and as
   * the last call; a failure before or at page creation leaves nothing to close.
   */
  lemma CloseExactlyOnce(target: Option<string>, browser: BrowserPromise, o: Outcomes)
    ensures var calls := ExpectedCalls(target, browser, o);
      && (ClosePage in calls <==> !Falsy(target) && PageCreated(browser, o))
      && (ClosePage in calls ==> calls[|calls| - 1] == ClosePage && ClosePage !in calls[..|calls| - 1])
  {
    if !Falsy(target) {
      var made := Made(target.value, Reached(FirstFailure(browser, o)));
      assert ClosePage !in made;
      var calls := ExpectedCalls(target, browser, o);
      if PageCreated(browser, o) {
        assert calls[..|calls| - 1] == made;
      } else {
        assert calls == made;
      }
    }
  }

  /** No call is made twice: nothing is retried, and the browser is asked for once. */
  lemma NoCallRepeated(target: Option<string>, browser: BrowserPromise, o: Outcomes)
    ensures var calls := ExpectedCalls(target, browser, o);
      forall i, j :: 0 <= i < j < |calls| ==> calls[i] != calls[j]
  {
    if !Falsy(target) {
      var url := target.value;
      var made := Made(url, Reached(FirstFailure(browser, o)));
      var calls := ExpectedCalls(target, browser, o);
      forall i, j | 0 <= i < j < |calls|
        ensures calls[i] != calls[j]
      {
      }
    }
  }

  /**
   * Navigation goes to the normalised address, waiting for DOM content only,
   * and only after interception is on and the listener is installed.
   */
  lemma FilterBeforeNavigation(target: Option<string>, browser: BrowserPromise, o: Outcomes)
    ensures var calls := ExpectedCalls(target, browser, o);
      forall j :: 0 <= j < |calls| && calls[j].Goto? ==>
        && calls[j] == Goto(target.value, "domcontentloaded", NAVIGATION_TIMEOUT)
        && SetRequestInterception(true) in calls[..j] && OnRequest in calls[..j]
  {
    if !Falsy(target) {
      var url := target.value;
      var made := Made(url, Reached(FirstFailure(browser, o)));
      var calls := ExpectedCalls(target, browser, o);
      forall j | 0 <= j < |calls| && calls[j].Goto?
        ensures calls[j] == Goto(url, "domcontentloaded", NAVIGATION_TIMEOUT)
        ensures SetRequestInterception(true) in calls[..j] && OnRequest in calls[..j]
      {
        assert j == 7;
        assert calls[..j][4] == SetRequestInterception(true);
        assert calls[..j][5] == OnRequest;
      }
    }
  }

  /** The screenshot is taken exactly when every earlier step succeeded. */
  lemma ScreenshotOnlyAfterSuccess(target: Option<string>, browser: BrowserPromise, o: Outcomes)
    ensures Screenshot(false, "png") in ExpectedCalls(target, browser, o) <==>
      !Falsy(target) && forall i :: 0 <= i < STEPS - 1 ==> StepOutcome(browser, o, i).Pass?
  {
    if !Falsy(target) {
      var url := target.value;
      var k := FirstFailure(browser, o);
      var made := Made(url, Reached(k));
      var calls := ExpectedCalls(target, browser, o);
      if Screenshot(false, "png") in calls {
        var j :| 0 <= j < |calls| && calls[j] == Screenshot(false, "png");
        assert j == STEPS - 1;
      }
      if k >= STEPS - 1 {
        assert calls[STEPS - 1] == Screenshot(false, "png");
      } else {
        assert StepOutcome(browser, o, k).Fail?;
      }
    }
  }

  /**
   * The response: every request is answered with 200, 400 or 500; the image
   * goes out exactly when every step succeeded and the send delivered; a
   * failing step is a 500 carrying its message; once the headers are out the
   * error response is skipped.
   */
  lemma ReplyCases(target: Option<string>, browser: BrowserPromise, o: Outcomes)
    ensures var r := ExpectedReply(target, browser, o);
      && r.headersSent
      && (r.status == 200 || r.status == 400 || r.status == 500)
      && (r.status == 400 <==> Falsy(target))
      && (r.body.Some? && r.body.value.Image? <==>
            !Falsy(target) && FirstFailure(browser, o) == STEPS && o.send.Delivered?)
      && (r.body.Some? && r.body.value.Image? ==>
            r.status == 200 && r.headers == PNG_HEADERS && o.screenshot == Success(r.body.value.bytes))
      && (!Falsy(target) && FirstFailure(browser, o) < STEPS ==>
            r == Reply(500, map[], true,
                       Some(ErrorJson(ERROR_PREFIX + StepOutcome(browser, o, FirstFailure(browser, o)).message))))
      && (r.body.None? <==>
            !Falsy(target) && FirstFailure(browser, o) == STEPS && o.send.Threw? && o.send.headersWritten)
      && (r.status == 500 <==>
            !Falsy(target) && (FirstFailure(browser, o) < STEPS || (o.send.Threw? && !o.send.headersWritten)))
  {
  }

  /**
   * A target the filter itself blocks is never captured: the document request
   * of the navigation is aborted, so the request ends in a 500 before any
   * screenshot is taken.
   */
  lemma BlockedTargetFails(target: Option<string>, browser: BrowserPromise, o: Outcomes)
    requires !Falsy(target) && FilterRespected(target.value, o) && Decide("document", target.value) == Abort
    ensures ExpectedReply(target, browser, o).status == 500
    ensures ExpectedReply(target, browser, o).body.Some? && ExpectedReply(target, browser, o).body.value.ErrorJson?
    ensures Screenshot(false, "png") !in ExpectedCalls(target, browser, o)
  {
    assert FirstFailure(browser, o) <= 7;
    ScreenshotOnlyAfterSuccess(target, browser, o);
  }

  /** The reference functions do not look at how the close turns out. */
  lemma CloseOutcomeIgnored(target: Option<string>, browser: BrowserPromise, o: Outcomes, close: Outcome)
    ensures ExpectedCalls(target, browser, o.(close := close)) == ExpectedCalls(target, browser, o)
    ensures ExpectedReply(target, browser, o.(close := close)) == ExpectedReply(target, browser, o)
  {
  }

  /**
   * The same request with a close that returns and with a close that throws:
   * the calls made and the response are the same, and neither handler fails;
   * only the page is left open.
   */
  method CloseFailureIsSwallowed(rawUrl: Option<string>, o: Outcomes, message: string)
    returns (callsClosed: seq<Call>, replyClosed: Reply, callsThrew: seq<Call>, replyThrew: Reply,
             escapedThrew: Option<string>, openThrew: bool)
    ensures callsThrew == callsClosed && replyThrew == replyClosed
    ensures escapedThrew == None
    ensures openThrew <==> !Falsy(NormalizeUrl(rawUrl)) && PageCreated(o.launch, o)
  {
    var pool1 := new BrowserPool();
    var res1 := new Response();
    var openClosed, escapedClosed;
    callsClosed, openClosed, escapedClosed := HandleScreenshot(pool1, res1, rawUrl, o.(close := Pass));
    replyClosed := res1.State();
    var pool2 := new BrowserPool();
    var res2 := new Response();
    callsThrew, openThrew, escapedThrew := HandleScreenshot(pool2, res2, rawUrl, o.(close := Fail(message)));
    replyThrew := res2.State();
    CloseOutcomeIgnored(NormalizeUrl(rawUrl), o.launch, o.(close := Pass), Fail(message));
  }

  /**
   * Two requests in a fresh process: the second uses the browser promise the
   * first stored, whatever its own launch would produce, so a rejected first
   * launch makes every later request fail with the same message.
   */
  method TwoRequests(first: Option<string>, second: Option<string>, o1: Outcomes, o2: Outcomes) returns (reply: Reply)
    requires !Falsy(NormalizeUrl(first))
    ensures reply == ExpectedReply(NormalizeUrl(second), o1.launch, o2)
    ensures o1.launch.Rejected? && !Falsy(NormalizeUrl(second)) ==>
      reply == Reply(500, map[], true, Some(ErrorJson(ERROR_PREFIX + o1.launch.reason)))
  {
    var pool := new BrowserPool();
    var res1 := new Response();
    var _, _, _ := HandleScreenshot(pool, res1, first, o1);
    var res2 := new Response();
    var _, _, _ := HandleScreenshot(pool, res2, second, o2);
    reply := res2.State();
  }
}
