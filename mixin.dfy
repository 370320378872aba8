/** The helpers that the library adds to the browser driver: the cookie
    injection that works around the browser's same-origin rule, the cookie
    check, the element wait dispatch and the robust click.

    The browser engine itself is not modelled: its answer to a navigation,
    to add_cookie and to the user-agent script comes from an Engine value. */
module Mixin {
  import opened Common

  /** The two supported engines (chrome and firefox drivers collapse into one
      class distinguished by this value). */
  datatype BrowserName = Chrome | Firefox

  /** What the browser holds after get(url): its cookies and its current URL
      (None when reading current_url fails). */
  datatype Visit = Visit(cookies: seq<DriverCookie>, url: Option<string>)

  /** The browser engine's behaviour, consumed as opaque functions. */
  datatype Engine = Engine(
    startUrl: Option<string>,
    visit: (seq<DriverCookie>, string) -> Visit,
    store: (seq<DriverCookie>, Cookie, Option<string>) -> seq<DriverCookie>,
    userAgent: (BrowserName, Option<string>) -> string)

  /** The observable state of one browser: its cookies, its current URL, the
      URLs it was sent to and the cookies submitted to add_cookie, in order. */
  datatype BrowserState = BrowserState(
    cookies: seq<DriverCookie>,
    currentUrl: Option<string>,
    visits: seq<string>,
    added: seq<Cookie>)

  function InitialState(e: Engine): BrowserState
  {
    BrowserState([], e.startUrl, [], [])
  }

  // ---------------------------------------------------------------------------
  // is_cookie_in_driver

  /** A held domain matches the wanted one exactly or with one leading dot. */
  predicate DomainMatches(wanted: string, held: string)
  {
    held == wanted || held == "." + wanted
  }

  predicate Matches(held: DriverCookie, c: Cookie)
  {
    held.name == c.name && held.value == c.value && DomainMatches(c.domain, held.domain)
  }

  /** Some cookie held by the browser matches c on name, value and domain. */
  predicate CookieIn(held: seq<DriverCookie>, c: Cookie)
  {
    exists i | 0 <= i < |held| :: Matches(held[i], c)
  }

  // ---------------------------------------------------------------------------
  // ensure_add_cookie, as a function of the browser's state

  /** The cookie after override_domain: replaced only when the override is truthy. */
  function Overridden(c: Cookie, overrideDomain: Option<string>): Cookie
  {
    if Truthy(overrideDomain) then c.(domain := overrideDomain.value) else c
  }

  /** The cookie domain without its one leading dot, if it has one. */
  function StripDot(d: string): (r: string)
    requires d != ""
    ensures d[0] == '.' ==> "." + r == d
    ensures d[0] != '.' ==> r == d
  {
    if d[0] != '.' then d else d[1..]
  }

  /** The fully qualified domain the browser is at, '' when the URL cannot be read. */
  function BrowserDomain(url: Option<string>, tld: DomainParser): string
  {
    if url.Some? then tld.fqdn(url.value) else ""
  }

  predicate NeedsVisit(url: Option<string>, tld: DomainParser, cookieDomain: string)
  {
    !Contains(BrowserDomain(url, tld), cookieDomain)
  }

  function VisitUrl(cookieDomain: string): string
  {
    "http://" + cookieDomain
  }

  function Navigate(s: BrowserState, e: Engine, url: string): BrowserState
  {
    var v := e.visit(s.cookies, url);
    s.(cookies := v.cookies, currentUrl := v.url, visits := s.visits + [url])
  }

  function Submit(s: BrowserState, e: Engine, c: Cookie): BrowserState
  {
    s.(cookies := e.store(s.cookies, c, s.currentUrl), added := s.added + [c])
  }

  /** The state after the navigation step, just before the first add_cookie. */
  function Prepared(s: BrowserState, e: Engine, tld: DomainParser, c: Cookie): BrowserState
    requires c.domain != ""
  {
    var d := StripDot(c.domain);
    if NeedsVisit(s.currentUrl, tld, d) then Navigate(s, e, VisitUrl(d)) else s
  }

  /** The cookie retried with the registrable domain of its (unstripped) domain. */
  function Widened(c: Cookie, tld: DomainParser): Cookie
  {
    c.(domain := tld.registeredDomain(c.domain))
  }

  function AfterFirstAdd(s: BrowserState, e: Engine, tld: DomainParser, c: Cookie): BrowserState
    requires c.domain != ""
  {
    Submit(Prepared(s, e, tld, c), e, c)
  }

  /** ensure_add_cookie: the new browser state, and either the cookie as it
      was finally added or the error raised. */
  function AddCookieSteps(s: BrowserState, e: Engine, tld: DomainParser, cookie: Cookie,
                          overrideDomain: Option<string>): (res: (BrowserState, Result<Cookie, Error>))
    // the override comes first; an empty domain fails before the browser is touched
    ensures var c := Overridden(cookie, overrideDomain);
      (c.domain == "" <==> res.1 == Failure(EmptyDomain(c))) && (c.domain == "" ==> res.0 == s)
    // at most one navigation, exactly when the stripped domain is not in the browser's fqdn
    ensures var c := Overridden(cookie, overrideDomain);
      c.domain != "" ==>
        res.0.visits == s.visits
          + (if NeedsVisit(s.currentUrl, tld, StripDot(c.domain)) then [VisitUrl(StripDot(c.domain))] else [])
    // at most two add_cookie calls, the first with the cookie, the second with the widened one
    ensures var c := Overridden(cookie, overrideDomain);
      c.domain != "" ==>
        res.0.added == s.added + [c] || res.0.added == s.added + [c, Widened(c, tld)]
    // the second call happens exactly when the first verification failed
    ensures var c := Overridden(cookie, overrideDomain);
      c.domain != "" ==>
        (|res.0.added| == |s.added| + 2 <==> !CookieIn(AfterFirstAdd(s, e, tld, c).cookies, c))
    // a normal return means the last verification succeeded
    ensures res.1.Success? ==> CookieIn(res.0.cookies, res.1.value) && res.0.added[|res.0.added| - 1] == res.1.value
    // both verifications failed: the error carries the retried cookie
    ensures var c := Overridden(cookie, overrideDomain);
      res.1.Failure? && c.domain != "" ==>
        && res.1.error == CookieNotAdded(Widened(c, tld))
        && |res.0.added| == |s.added| + 2
        && !CookieIn(res.0.cookies, Widened(c, tld))
    // only the domain of the cookie is ever rewritten
    ensures res.1.Success? ==>
      res.1.value.(domain := cookie.domain) == cookie
  {
    var c := Overridden(cookie, overrideDomain);
    if c.domain == "" then (s, Failure(EmptyDomain(c)))
    else
      var first := AfterFirstAdd(s, e, tld, c);
      if CookieIn(first.cookies, c) then (first, Success(c))
      else
        var w := Widened(c, tld);
        var second := Submit(first, e, w);
        if CookieIn(second.cookies, w) then (second, Success(w))
        else (second, Failure(CookieNotAdded(w)))
  }

  /** The loop of transfer_session_cookies_to_driver: ensure_add_cookie on
      each cookie in order, stopping at the first one that raises. Each cookie
      costs at most one navigation and two add_cookie calls, and earlier
      history is kept. */
  function PushAll(s: BrowserState, e: Engine, tld: DomainParser, cs: seq<Cookie>): (res: (BrowserState, Result<(), Error>))
    ensures s.added <= res.0.added && |res.0.added| <= |s.added| + 2 * |cs|
    ensures s.visits <= res.0.visits && |res.0.visits| <= |s.visits| + |cs|
    ensures cs == [] ==> res == (s, Success(()))
    decreases |cs|
  {
    if cs == [] then (s, Success(()))
    else
      var step := AddCookieSteps(s, e, tld, cs[0], None);
      if step.1.Failure? then (step.0, Failure(step.1.error))
      else PushAll(step.0, e, tld, cs[1..])
  }

  /** One cookie pushed on its own is exactly one ensure_add_cookie. */
  lemma PushAllOne(s: BrowserState, e: Engine, tld: DomainParser, c: Cookie)
    ensures var step := AddCookieSteps(s, e, tld, c, None);
      PushAll(s, e, tld, [c]) == (step.0, if step.1.Failure? then Failure(step.1.error) else Success(()))
  {
  }

  /** Pushing a + b pushes a in order, and goes on with b only when every
      cookie of a was added: the transfer is sequential and stops at the
      first failure. */
  lemma {:induction false} PushAllAppend(s: BrowserState, e: Engine, tld: DomainParser, a: seq<Cookie>, b: seq<Cookie>)
    ensures var mid := PushAll(s, e, tld, a);
      PushAll(s, e, tld, a + b) == if mid.1.Failure? then mid else PushAll(mid.0, e, tld, b)
    decreases |a|
  {
    if a == [] {
      assert a + b == b;
    } else {
      assert (a + b)[0] == a[0];
      assert (a + b)[1..] == a[1..] + b;
      var step := AddCookieSteps(s, e, tld, a[0], None);
      if step.1.Success? {
        PushAllAppend(step.0, e, tld, a[1..], b);
      }
    }
  }

  // ---------------------------------------------------------------------------
  // ensure_element

  /** The locator strategies the browser resolves selectors with. */
  datatype Locator = ById | ByName | ByXPath | ByLinkText | ByPartialLinkText
                   | ByTagName | ByClassName | ByCssSelector

  /** The fixed table from locator names to strategies. */
  const Locators: map<string, Locator> := map[
    "id" := ById, "name" := ByName, "xpath" := ByXPath, "link_text" := ByLinkText,
    "partial_link_text" := ByPartialLinkText, "tag_name" := ByTagName,
    "class_name" := ByClassName, "css_selector" := ByCssSelector]

  /** The expected condition a wait polls for. */
  datatype Condition = VisibilityOf | ToBeClickable | PresenceOf | InvisibilityOf

  /** An element handle; robustClick says whether ensure_click was attached. */
  datatype Element = Element(handle: nat, robustClick: bool)

  /** What a bounded wait yields: the condition's value, or a timeout. */
  datatype WaitOutcome = Satisfied(element: Element) | TimedOut(message: string)

  /** The wait for one condition on one selector within a timeout. */
  type Waiter = (Condition, Locator, string, real) -> WaitOutcome

  /** The condition each accepted state name waits for. */
  function StateCondition(state: string): Option<Condition>
  {
    if state == "visible" then Some(VisibilityOf)
    else if state == "clickable" then Some(ToBeClickable)
    else if state == "present" then Some(PresenceOf)
    else if state == "invisible" then Some(InvisibilityOf)
    else None
  }

  /** A falsy timeout (None or zero) falls back to the driver's default. */
  function EffectiveTimeout(timeout: Option<real>, defaultTimeout: real): (t: real)
    ensures timeout.Some? && timeout.value != 0.0 ==> t == timeout.value
    ensures timeout.None? || timeout.value == 0.0 ==> t == defaultTimeout
  {
    if timeout.None? || timeout.value == 0.0 then defaultTimeout else timeout.value
  }

  /** An element for a present, visible or clickable wait, with ensure_click attached. */
  function Found(w: WaitOutcome): Result<Option<Element>, Error>
  {
    match w
    case TimedOut(m) => Failure(WaitTimeout(m))
    case Satisfied(el) => Success(Some(el.(robustClick := true)))
  }

  // ---------------------------------------------------------------------------
  // _ensure_click

  datatype ClickOutcome = Clicked | Raised(message: string)

  const MaxClickAttempts: nat := 10

  function ClickFailedMessage(lastMessage: string): string
  {
    "Couldn't click item after trying 10 times, got error message: \n" + lastMessage
  }

  /** The browser-visible effects of _ensure_click, in order. */
  datatype ClickStep = ScrollIntoView | ClickAttempt(index: nat) | Pause

  /** The effects of attempt k: the click, then a pause when it raised. */
  function AttemptSteps(k: nat, outcome: ClickOutcome): seq<ClickStep>
  {
    [ClickAttempt(k)] + (if outcome.Raised? then [Pause] else [])
  }

  /** The effects of the first n click attempts, in order. */
  function ClickTrace(click: nat -> ClickOutcome, n: nat): (t: seq<ClickStep>)
    ensures n <= |t| <= 2 * n
  {
    if n == 0 then [] else ClickTrace(click, n - 1) + AttemptSteps(n - 1, click(n - 1))
  }

  /** Recording attempt n extends the trace of the first n attempts. */
  lemma TraceExtends(click: nat -> ClickOutcome, n: nat, trace: seq<ClickStep>)
    requires trace == [ScrollIntoView] + ClickTrace(click, n)
    ensures trace + AttemptSteps(n, click(n)) == [ScrollIntoView] + ClickTrace(click, n + 1)
  {
  }

  /** _ensure_click: one scroll script, then up to ten clicks; attempt k of
      the element answers click(k). Returns the trace of browser effects, the
      number of click attempts, and the outcome. */
  method EnsureClick(click: nat -> ClickOutcome) returns (ghost trace: seq<ClickStep>, attempts: nat, r: Result<(), Error>)
    ensures trace == [ScrollIntoView] + ClickTrace(click, attempts)
    ensures 1 <= attempts <= MaxClickAttempts
    ensures forall k :: 0 <= k < attempts - 1 ==> click(k).Raised?
    ensures r.Success? <==> click(attempts - 1) == Clicked
    ensures r.Failure? ==>
      attempts == MaxClickAttempts && r.error == ClickFailed(ClickFailedMessage(click(MaxClickAttempts - 1).message))
  {
    trace := [ScrollIntoView];
    attempts := 0;
    var last := Raised("");   // the outcome of the latest attempt
    while attempts < MaxClickAttempts && last.Raised?
      invariant 0 <= attempts <= MaxClickAttempts
      invariant trace == [ScrollIntoView] + ClickTrace(click, attempts)
      invariant forall k :: 0 <= k < attempts - 1 ==> click(k).Raised?
      invariant if attempts == 0 then last.Raised? else last == click(attempts - 1)
    {
      last := click(attempts);
      TraceExtends(click, attempts, trace);
      trace := trace + AttemptSteps(attempts, last);   // the pause is time.sleep(0.2)
      attempts := attempts + 1;
    }
    r := if last == Clicked then Success(()) else Failure(ClickFailed(ClickFailedMessage(last.message)));
  }

  // ---------------------------------------------------------------------------
  // The driver

  /** A browser driver with the library's helpers (chrome or firefox). */
  class WebDriver {
    const kind: BrowserName
    const defaultTimeout: real
    const profileUserAgent: Option<string>   // firefox profile override; None for chrome
    const engine: Engine

    var cookies: seq<DriverCookie>
    var currentUrl: Option<string>
    var visits: seq<string>
    var added: seq<Cookie>

    function State(): BrowserState
      reads this
    {
      BrowserState(cookies, currentUrl, visits, added)
    }

    constructor (kind: BrowserName, defaultTimeout: real, profileUserAgent: Option<string>, engine: Engine)
      ensures this.kind == kind && this.defaultTimeout == defaultTimeout
      ensures this.profileUserAgent == profileUserAgent && this.engine == engine
      ensures State() == InitialState(engine)
    {
      this.kind := kind;
      this.defaultTimeout := defaultTimeout;
      this.profileUserAgent := profileUserAgent;
      this.engine := engine;
      cookies := [];
      currentUrl := engine.startUrl;
      visits := [];
      added := [];
    }

    /** get(url): the engine decides the cookies and URL the browser ends at. */
    method Get(url: string)
      modifies this
      ensures State() == Navigate(old(State()), engine, url)
    {
      var v := engine.visit(cookies, url);
      cookies, currentUrl, visits := v.cookies, v.url, visits + [url];
    }

    /** add_cookie(c): the engine decides what it stores, possibly nothing. */
    method AddCookie(c: Cookie)
      modifies this
      ensures State() == Submit(old(State()), engine, c)
    {
      cookies, added := engine.store(cookies, c, currentUrl), added + [c];
    }

    /** is_cookie_in_driver: a search over get_cookies(). */
    method IsCookieInDriver(c: Cookie) returns (found: bool)
      ensures found <==> CookieIn(cookies, c)
    {
      var i := 0;
      while i < |cookies|
        invariant 0 <= i <= |cookies|
        invariant forall j :: 0 <= j < i ==> !Matches(cookies[j], c)
      {
        if Matches(cookies[i], c) {
          return true;
        }
        i := i + 1;
      }
      return false;
    }

    /** ensure_add_cookie; the returned cookie is the caller's dict after the
        method has rewritten its domain. */
    method EnsureAddCookie(tld: DomainParser, cookie: Cookie, overrideDomain: Option<string> := None)
      returns (r: Result<Cookie, Error>)
      modifies this
      ensures (State(), r) == AddCookieSteps(old(State()), engine, tld, cookie, overrideDomain)
    {
      var c := cookie;
      if Truthy(overrideDomain) {
        c := c.(domain := overrideDomain.value);
      }
      if c.domain == "" {
        return Failure(EmptyDomain(c));
      }
      var cookieDomain := if c.domain[0] != '.' then c.domain else c.domain[1..];
      var browserDomain := if currentUrl.Some? then tld.fqdn(currentUrl.value) else "";
      if !Contains(browserDomain, cookieDomain) {
        Get("http://" + cookieDomain);
      }
      AddCookie(c);
      var ok := IsCookieInDriver(c);
      if !ok {
        c := c.(domain := tld.registeredDomain(c.domain));
        AddCookie(c);
        ok := IsCookieInDriver(c);
        if !ok {
          return Failure(CookieNotAdded(c));
        }
      }
      return Success(c);
    }

    /** execute_script("return navigator.userAgent;"). */
    method NavigatorUserAgent() returns (ua: string)
      ensures ua == engine.userAgent(kind, profileUserAgent)
    {
      ua := engine.userAgent(kind, profileUserAgent);
    }

    /** ensure_element: look the locator up, default the timeout, dispatch on
        the state and wait. */
    function EnsureElement(wait: Waiter, locator: string, selector: string,
                           state: string := "present", timeout: Option<real> := None)
      : (r: Result<Option<Element>, Error>)
      // the table lookup comes first
      ensures locator !in Locators ==> r == Failure(UnknownLocator(locator))
      // a state outside the four fails whatever the wait would do
      ensures locator in Locators && StateCondition(state).None? ==> r == Failure(InvalidState(state))
      // otherwise exactly one wait, with the defaulted timeout, decides
      ensures locator in Locators && StateCondition(state).Some? ==>
        var w := wait(StateCondition(state).value, Locators[locator], selector,
                      EffectiveTimeout(timeout, defaultTimeout));
        && (r.Failure? <==> w.TimedOut?)
        && (w.TimedOut? ==> r.error == WaitTimeout(w.message))
        && (r.Success? ==> (r.value.None? <==> state == "invisible"))
        && (r.Success? && state != "invisible" ==> r.value.value.handle == w.element.handle)
      // ensure_click is attached to every element returned, and only they exist
      ensures r.Success? && r.value.Some? ==> r.value.value.robustClick
    {
      if locator !in Locators then Failure(UnknownLocator(locator))
      else
        var strategy := Locators[locator];
        var t := EffectiveTimeout(timeout, defaultTimeout);
        if state == "visible" then Found(wait(VisibilityOf, strategy, selector, t))
        else if state == "clickable" then Found(wait(ToBeClickable, strategy, selector, t))
        else if state == "present" then Found(wait(PresenceOf, strategy, selector, t))
        else if state == "invisible" then
          (match wait(InvisibilityOf, strategy, selector, t)
           case TimedOut(m) => Failure(WaitTimeout(m))
           case Satisfied(_) => Success(None))
        else Failure(InvalidState(state))
    }

    // The eight ensure_element_by_* wrappers fix the locator name; none of
    // them can fail the table lookup.

    function EnsureElementById(wait: Waiter, selector: string, state: string := "present", timeout: Option<real> := None)
      : (r: Result<Option<Element>, Error>)
      ensures r == EnsureElement(wait, "id", selector, state, timeout)
      ensures r.Failure? ==> !r.error.UnknownLocator?
    {
      EnsureElement(wait, "id", selector, state, timeout)
    }

    function EnsureElementByName(wait: Waiter, selector: string, state: string := "present", timeout: Option<real> := None)
      : (r: Result<Option<Element>, Error>)
      ensures r == EnsureElement(wait, "name", selector, state, timeout)
      ensures r.Failure? ==> !r.error.UnknownLocator?
    {
      EnsureElement(wait, "name", selector, state, timeout)
    }

    function EnsureElementByXPath(wait: Waiter, selector: string, state: string := "present", timeout: Option<real> := None)
      : (r: Result<Option<Element>, Error>)
      ensures r == EnsureElement(wait, "xpath", selector, state, timeout)
      ensures r.Failure? ==> !r.error.UnknownLocator?
    {
      EnsureElement(wait, "xpath", selector, state, timeout)
    }

    function EnsureElementByLinkText(wait: Waiter, selector: string, state: string := "present", timeout: Option<real> := None)
      : (r: Result<Option<Element>, Error>)
      ensures r == EnsureElement(wait, "link_text", selector, state, timeout)
      ensures r.Failure? ==> !r.error.UnknownLocator?
    {
      EnsureElement(wait, "link_text", selector, state, timeout)
    }

    function EnsureElementByPartialLinkText(wait: Waiter, selector: string, state: string := "present", timeout: Option<real> := None)
      : (r: Result<Option<Element>, Error>)
      ensures r == EnsureElement(wait, "partial_link_text", selector, state, timeout)
      ensures r.Failure? ==> !r.error.UnknownLocator?
    {
      EnsureElement(wait, "partial_link_text", selector, state, timeout)
    }

    function EnsureElementByTagName(wait: Waiter, selector: string, state: string := "present", timeout: Option<real> := None)
      : (r: Result<Option<Element>, Error>)
      ensures r == EnsureElement(wait, "tag_name", selector, state, timeout)
      ensures r.Failure? ==> !r.error.UnknownLocator?
    {
      EnsureElement(wait, "tag_name", selector, state, timeout)
    }

    function EnsureElementByClassName(wait: Waiter, selector: string, state: string := "present", timeout: Option<real> := None)
      : (r: Result<Option<Element>, Error>)
      ensures r == EnsureElement(wait, "class_name", selector, state, timeout)
      ensures r.Failure? ==> !r.error.UnknownLocator?
    {
      EnsureElement(wait, "class_name", selector, state, timeout)
    }

    function EnsureElementByCssSelector(wait: Waiter, selector: string, state: string := "present", timeout: Option<real> := None)
      : (r: Result<Option<Element>, Error>)
      ensures r == EnsureElement(wait, "css_selector", selector, state, timeout)
      ensures r.Failure? ==> !r.error.UnknownLocator?
    {
      EnsureElement(wait, "css_selector", selector, state, timeout)
    }
  }
}
