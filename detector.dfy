/**
 * The `AntiAdblock` detector over a modelled browser. The browser records
 * what the detector does to it (elements appended to the body, requests
 * issued, timers scheduled, the `readystatechange` handler installed);
 * what the browser reports back (the measured `offsetHeight`, whether the
 * request settled, what `getRandomUrl()` drew) reaches the methods as
 * parameters.
 */
module Detector {
  import opened Wrappers
  import opened Options
  import opened Probe
  import opened Readiness

  /** 'AntiAdblock is not ready': a detection call made before `init` succeeded. */
  datatype DetectError = NotReady

  /** The bait element appended to the body. */
  datatype Element = Element(tagName: string, className: string, innerHtml: string)

  /** `<div class="adsbox"></div>`: empty content, a class name filter lists target. */
  const AdBait: Element := Element("div", "adsbox", "")

  /** The options of the bait request. */
  datatype FetchRequest = FetchRequest(url: Url, httpMethod: string, mode: string, cache: string)

  /** How the promise returned by `fetch` settles. */
  datatype FetchOutcome = Fulfilled | Failed

  /** The bait request for `url`: a body-less, uncached, opaque HEAD request. */
  function BaitRequest(url: Url): FetchRequest
  {
    FetchRequest(url, "HEAD", "no-cors", "no-cache")
  }

  /** The page's window and document, as far as the detector touches them. */
  class Browser {
    var readyState: DocState
    /** `document.onreadystatechange`: one slot, so a later `init` replaces the handler. */
    var onReadyStateChange: InitCall?
    /** The elements the detector appended to `document.body`, in order. */
    var body: seq<Element>
    /** The requests passed to `fetch`, in order. */
    var requests: seq<FetchRequest>
    /** The delays passed to `setTimeout`, in order. */
    var timers: seq<int>

    constructor (state: DocState)
      ensures readyState == state && onReadyStateChange == null
      ensures body == [] && requests == [] && timers == []
    {
      readyState, onReadyStateChange := state, null;
      body, requests, timers := [], [], [];
    }

    /**
     * The host changes `document.readyState` and dispatches `readystatechange`
     * to the installed handler, if any.
     */
    method SetReadyState(state: DocState)
      modifies this, onReadyStateChange
      modifies if onReadyStateChange == null then {} else {onReadyStateChange.detector}
      ensures readyState == state && onReadyStateChange == old(onReadyStateChange)
      ensures body == old(body) && requests == old(requests) && timers == old(timers)
      ensures onReadyStateChange != null ==>
        onReadyStateChange.View() == Step(old(onReadyStateChange.View()), ReadyStateChange(state))
    {
      readyState := state;
      if onReadyStateChange != null {
        onReadyStateChange.OnReadyStateChange(state);
      }
    }
  }

  /**
   * One call of `init`: its promise, the timer it scheduled and the
   * `readystatechange` handler it installed, all closing over the detector.
   */
  class InitCall {
    const detector: AntiAdblock
    var timerArmed: bool
    var outcome: Settlement

    constructor (detector: AntiAdblock, timerArmed: bool, outcome: Settlement)
      ensures this.detector == detector && this.timerArmed == timerArmed && this.outcome == outcome
    {
      this.detector, this.timerArmed, this.outcome := detector, timerArmed, outcome;
    }

    /** This call as the readiness specification sees it. */
    ghost function View(): Gate
      reads this, detector
    {
      Gate(detector.ready, timerArmed, outcome)
    }

    /** The handler: on `complete` it clears the timer, sets `ready` and resolves. */
    method OnReadyStateChange(state: DocState)
      modifies this, detector`ready
      ensures View() == Step(old(View()), ReadyStateChange(state))
    {
      if state == Complete {
        timerArmed := false;
        detector.ready := true;
        outcome := Settle(outcome, Resolved);
      }
    }

    /** The timer callback: rejects with the timeout error and leaves `ready` alone. */
    method OnInitTimeout()
      modifies this
      ensures View() == Step(old(View()), InitTimeoutFired)
    {
      if timerArmed {
        timerArmed := false;
        outcome := Settle(outcome, Rejected(MaxTimeout));
      }
    }
  }

  class AntiAdblock {
    var ready: bool
    const debug: bool
    const config: Option<Settings>

    /** A new detector is not ready; `debug` is off unless explicitly set. */
    constructor (options: AntiAdblockConfig)
      ensures !ready
      ensures debug <==> options.debug == Some(true)
      ensures config == options.config
    {
      ready := false;
      debug := DebugEnabled(options);
      config := options.config;
    }

    /**
     * Starts waiting for the document. `browser` is null when the host has no
     * window or document. The returned call then receives the host's events
     * through `Browser.SetReadyState` and `InitCall.OnInitTimeout`.
     */
    method Init(browser: Browser?) returns (call: InitCall)
      modifies this`ready, browser
      ensures fresh(call) && call.detector == this
      ensures call.View() == Launch(old(ready), if browser == null then None else Some(browser.readyState))
      ensures browser != null ==>
        browser.onReadyStateChange == call && browser.timers == old(browser.timers) + [InitTimeout(config)]
      ensures browser != null ==>
        browser.readyState == old(browser.readyState) && browser.body == old(browser.body)
        && browser.requests == old(browser.requests)
    {
      if browser == null {
        call := new InitCall(this, false, Rejected(NotInBrowser));
        return;
      }
      browser.timers := browser.timers + [InitTimeout(config)];
      call := new InitCall(this, true, Pending);
      browser.onReadyStateChange := call;
      if browser.readyState == Complete {
        call.timerArmed := false;
        ready := true;
        call.outcome := Settle(call.outcome, Resolved);
      }
    }

    /** Every detection call first checks the flag. */
    function CheckReadyState(): (status: Outcome<DetectError>)
      reads this
      ensures status.Fail? <==> !ready
      ensures status.Fail? ==> status.error == NotReady
    {
      if ready then Pass else Fail(NotReady)
    }

    /**
     * The bait-element heuristic: appends the bait, waits the configured
     * delay and reports blocking exactly when the measured height is 0.
     */
    method ClassNameCheck(browser: Browser, offsetHeight: nat) returns (r: Result<bool, DetectError>)
      modifies browser
      ensures !ready ==> r == Failure(NotReady) && unchanged(browser)
      ensures ready ==> r == Success(offsetHeight == 0)
      ensures ready ==>
        browser.body == old(browser.body) + [AdBait]
        && browser.timers == old(browser.timers) + [ClassNameDelay(config)]
        && browser.requests == old(browser.requests)
        && browser.readyState == old(browser.readyState)
        && browser.onReadyStateChange == old(browser.onReadyStateChange)
    {
      var status := CheckReadyState();
      if status.Fail? {
        return Failure(status.error);
      }
      browser.body := browser.body + [AdBait];
      browser.timers := browser.timers + [ClassNameDelay(config)];
      r := Success(offsetHeight == 0);
    }

    /**
     * The bait-request heuristic: sends the probe and reports blocking
     * exactly when the request fails. `randomDraw` is what `getRandomUrl()`
     * returns, `defaultUrl` is `DEFAULT_BLACKLIST_URL`.
     */
    method RequestCheck(browser: Browser, randomDraw: Url, defaultUrl: Url, fetched: FetchOutcome)
      returns (r: Result<bool, DetectError>)
      modifies browser
      ensures !ready ==> r == Failure(NotReady) && unchanged(browser)
      ensures ready ==> r == Success(fetched == Failed)
      ensures ready ==>
        browser.requests == old(browser.requests) + [BaitRequest(ProbeUrl(config, randomDraw, defaultUrl))]
        && browser.body == old(browser.body) && browser.timers == old(browser.timers)
        && browser.readyState == old(browser.readyState)
        && browser.onReadyStateChange == old(browser.onReadyStateChange)
    {
      var status := CheckReadyState();
      if status.Fail? {
        return Failure(status.error);
      }
      browser.requests := browser.requests + [BaitRequest(ProbeUrl(config, randomDraw, defaultUrl))];
      match fetched
      case Fulfilled => r := Success(false);
      case Failed => r := Success(true);
    }

    /**
     * Both heuristics, short-circuited: blocked when the bait element
     * collapsed, and only otherwise when the probe request failed; in the
     * first case no request is sent.
     */
    method Check(browser: Browser, offsetHeight: nat, randomDraw: Url, defaultUrl: Url, fetched: FetchOutcome)
      returns (r: Result<bool, DetectError>)
      modifies browser
      ensures !ready ==> r == Failure(NotReady) && unchanged(browser)
      ensures ready ==> r == Success(offsetHeight == 0 || fetched == Failed)
      ensures ready ==>
        browser.body == old(browser.body) + [AdBait]
        && browser.timers == old(browser.timers) + [ClassNameDelay(config)]
      ensures ready ==>
        browser.requests ==
        if offsetHeight == 0 then old(browser.requests)
        else old(browser.requests) + [BaitRequest(ProbeUrl(config, randomDraw, defaultUrl))]
      ensures browser.readyState == old(browser.readyState)
        && browser.onReadyStateChange == old(browser.onReadyStateChange)
    {
      var status := CheckReadyState();
      if status.Fail? {
        return Failure(status.error);
      }
      var byElement := ClassNameCheck(browser, offsetHeight);
      if byElement == Success(true) {
        return Success(true);
      }
      var byRequest := RequestCheck(browser, randomDraw, defaultUrl, fetched);
      if byRequest == Success(true) {
        return Success(true);
      }
      r := Success(false);
    }
  }
}
