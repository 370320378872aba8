# reqselenium core, modelled in Dafny

reqselenium joins a `requests` HTTP session and a Selenium browser driver (chrome or firefox) behind one
`Session`. This project models the part with its own logic:

- the cookie bridge. `ensure_add_cookie` gets past the browser's same-origin rule: it navigates when it
  has to, verifies the add and retries once with the registrable domain. `is_cookie_in_driver` is the
  check it uses. The two session transfers move cookies jar → browser and browser → jar;
- the element wait dispatch (`ensure_element` and its eight `ensure_element_by_*` wrappers) and the
  bounded click retry `_ensure_click`;
- the session's own state: browser-name validation, the lazily started driver, the cached proxy
  capabilities, the last visited URL kept by get/post/put, and the copied user agent;
- the response wrapper, which parses its body once, on first query.

Files: `common.dfy` (module `Common`: results, errors, cookie records, Python's substring test, the
domain parser), `mixin.dfy` (module `Mixin`: the driver class `WebDriver` and its helpers),
`response.dfy` (module `Response`), `reqselenium.dfy` (module `ReqSelenium`: the jar and `Session`).

The external collaborators are values of function type, never reimplemented:
- `DomainParser`: fqdn and registrable domain, standing for tldextract;
- `Engine`: the browser's answer to `get`, `add_cookie`, `current_url` and the user-agent script;
- `Waiter`: a bounded wait, which yields an element or a timeout;
- a click oracle `nat -> ClickOutcome`;
- `transport`: the HTTP library's response to a verb and URL;
- `Parsel`: the query evaluator.

The browser's observable state is the datatype `BrowserState`: its cookies, its current URL, the URLs it
was sent to, and the cookies handed to `add_cookie`. `ensure_add_cookie` is specified on it by the
function `AddCookieSteps`. The method `WebDriver.EnsureAddCookie` is proved to produce exactly that
state and result.

Behaviour of the code that its own messages and comments do not suggest, modelled as the code does it:
- `_last_requests_url` is never set in `Session.__init__` (src/reqselenium.py:16-25). So a cookie
  transfer with no domain before any request raises AttributeError (`NoLastUrl`), not the intended
  "no domain" exception. That exception (`MissingDomain`) is raised only when the last URL is an empty
  string.
- `DriverMixin.__init__` deletes the `desired_capabilities` argument (src/mixin.py:23-26). The proxy
  capabilities are still built and cached when the driver starts, but the argument is discarded before
  the selenium constructor runs. `WebDriver` therefore has no capabilities field. Any effect through the
  shared selenium template that `add_to_capabilities` mutates is not modelled (see "Left out").
- Only the firefox starter puts the session's user agent into the browser (a profile preference). The
  chrome driver starts with its own user agent (`Session.ProfileUserAgent`).
- A cookie whose domain is empty after the override raises IndexError at `cookie['domain'][0]`. This is
  modelled as the error `EmptyDomain`, raised before the browser is touched. An empty `override_domain`
  is falsy, so it does not override.

## Model

| member | source | states |
|---|---|---|
| Common.ContainsIffOccurs | src/mixin.py:55 | Python's `in` on strings, as used in the navigation test and the transfer filter, holds iff the needle occurs at some index of the haystack |
| Common.EmptyInEverything | src/reqselenium.py:81 | Python's `'' in s` holds for every string |
| Common.SubstringOverMatches | src/reqselenium.py:81 | the substring test ignores label boundaries: "site.com" is in "notsite.com" |
| Mixin.StripDot | src/mixin.py:50 | exactly one leading '.' is removed when present, otherwise the domain is kept; an empty domain is excluded here and handled as `EmptyDomain` by the caller |
| Mixin.AddCookieSteps | src/mixin.py:47-73 | a truthy override replaces the domain first, and an empty domain fails without touching the browser. At most one navigation, to `http://` plus the stripped domain, exactly when that domain is not a substring of the browser's fqdn ('' without a URL). At most two adds: the first with the cookie, the second with the registrable domain, made exactly when the first check failed. A normal return means the last check succeeded. A failure carries the retried cookie. Only the domain is rewritten |
| Mixin.WebDriver.EnsureAddCookie | src/mixin.py:28-73 | the imperative method produces exactly the browser state and result of `AddCookieSteps` |
| Mixin.WebDriver.IsCookieInDriver | src/mixin.py:75-86 | true iff some browser cookie has the same name and value and a domain equal to the cookie's or to '.' plus it |
| Mixin.EffectiveTimeout | src/mixin.py:136 | a falsy timeout (None or 0) becomes the driver's default, any other is kept |
| Mixin.WebDriver.EnsureElement | src/mixin.py:127-166 | an unknown locator name fails the table lookup before anything else. A state outside visible/clickable/present/invisible is a ValueError, whatever the wait would do. Otherwise the one wait, with the defaulted timeout, decides: a timeout error iff the wait timed out, no element exactly for `invisible`, otherwise the waited element. Every returned element carries ensure_click |
| Mixin.WebDriver.EnsureElementById | src/mixin.py:88-89 | the `id` wrapper is ensure_element with that locator and never fails the table lookup |
| Mixin.WebDriver.EnsureElementByName | src/mixin.py:91-92 | the same for `name` |
| Mixin.WebDriver.EnsureElementByXPath | src/mixin.py:94-95 | the same for `xpath` |
| Mixin.WebDriver.EnsureElementByLinkText | src/mixin.py:97-98 | the same for `link_text` |
| Mixin.WebDriver.EnsureElementByPartialLinkText | src/mixin.py:100-101 | the same for `partial_link_text` |
| Mixin.WebDriver.EnsureElementByTagName | src/mixin.py:103-104 | the same for `tag_name` |
| Mixin.WebDriver.EnsureElementByClassName | src/mixin.py:106-107 | the same for `class_name` |
| Mixin.WebDriver.EnsureElementByCssSelector | src/mixin.py:109-110 | the same for `css_selector` |
| Mixin.EnsureClick | src/mixin.py:188-222 | the browser sees one scroll script, then 1 to 10 click attempts in order, each failed one followed by a pause; the scroll never recurs. Every attempt before the last one raised. It succeeds iff the last attempt clicked. A failure comes only after 10 attempts and carries the 10th error message |
| Mixin.PushAll | src/reqselenium.py:81-83 | ensure_add_cookie on each selected cookie in order, stopping at the first error. It keeps the earlier history and costs at most one navigation and two adds per cookie. With no cookie it changes nothing |
| Mixin.PushAllOne | src/reqselenium.py:82-83 | one cookie pushed alone is exactly one ensure_add_cookie call, with its state and its error |
| Mixin.PushAllAppend | src/reqselenium.py:82-83 | pushing a + b pushes a first and goes on with b only if every cookie of a was added; a failure in a is the failure of the whole loop |
| ReqSelenium.ParseBrowser | src/reqselenium.py:26-32 | accepted iff the name is chrome or firefox, which selects the chrome or gecko starter; any other name is a ValueError carrying it |
| ReqSelenium.Session.Create | src/reqselenium.py:16-32 | the defaults are firefox, a 30 s timeout and no proxies. An invalid browser name fails before any driver exists. A valid one yields a fresh session holding the given browser, timeout, proxies, user agent and collaborators, with no driver, no capabilities, no last URL, an empty jar and the default headers |
| ReqSelenium.Session.constructor | src/reqselenium.py:16-25 | the session's fields as initialized; the jar is empty and `_last_requests_url` is unset |
| ReqSelenium.Session.DesiredCapabilities | src/reqselenium.py:40-53 | None unless both proxies are truthy. Otherwise a manual proxy on the FIREFOX template for firefox, else the CHROME one. Built once, and never rebuilt once cached |
| ReqSelenium.Session.Driver | src/reqselenium.py:34-38 | the initializer runs only when no driver exists (`starts` stays at most 1). Every later access returns the same instance and leaves the cached capabilities as they were |
| ReqSelenium.TransferDomain | src/reqselenium.py:74-78 | a truthy domain is used as given. Otherwise the registrable domain of a truthy last URL is used. With neither, it fails: AttributeError when the last URL was never set, the "no domain" exception when it is '' |
| ReqSelenium.Matching | src/reqselenium.py:81-83 | every selected cookie dict comes from the jar and has a domain containing the filter domain, and every such jar cookie is selected |
| ReqSelenium.MatchingOne | src/reqselenium.py:81 | a one-cookie jar yields that cookie's dict exactly when its domain contains the filter domain, else nothing |
| ReqSelenium.MatchingEmptyDomain | src/reqselenium.py:81 | an empty filter domain (the registrable domain of a URL without one) selects every jar cookie, in jar order |
| ReqSelenium.MatchingOverMatches | src/reqselenium.py:81 | the filter over-matches: a transfer for "site.com" selects a cookie of "notsite.com" |
| ReqSelenium.MatchingAppend | src/reqselenium.py:81 | the selection of a concatenated jar is the selection of the first part followed by that of the second: with MatchingOne, the matching cookies each once, in jar order |
| ReqSelenium.Session.TransferSessionCookiesToDriver | src/reqselenium.py:68-83 | a domain failure leaves the browser untouched. Otherwise the browser ends as `PushAll` over the selected cookies dictates. The driver is started iff it existed or at least one cookie was selected. A cached capabilities value is kept, and none is built unless a driver starts |
| ReqSelenium.LookupAfterPut | src/reqselenium.py:90 | after `cookies.set`, the stored cookie is found under its (name, domain, path), and every other key holds what it held |
| ReqSelenium.PutKeepsUniqueKeys | src/reqselenium.py:90 | storing a cookie keeps one jar entry per (name, domain, path) |
| ReqSelenium.LookupAfterPutAll | src/reqselenium.py:89-90 | after storing a sequence, each key holds the last cookie stored under it, and keys the loop did not touch are unchanged |
| ReqSelenium.PutAllKeepsUniqueKeys | src/reqselenium.py:89-90 | the whole loop keeps one jar entry per key |
| ReqSelenium.Session.TransferDriverCookiesToSession | src/reqselenium.py:85-90 | the user agent is copied first when the flag is set. Then the jar is the old jar with every browser cookie stored under (name, domain, '/'), in order. The browser itself is unchanged. A cached capabilities value is kept |
| ReqSelenium.PullFindsVerifiedCookie | src/reqselenium.py:89-90 | a cookie that the browser holds (with unique name/domain pairs) is in the jar after the pull. It has the same name and value, with its domain or the dotted variant |
| ReqSelenium.PushThenPull | src/reqselenium.py:81-90 | push then pull: a cookie that ensure_add_cookie reports as added comes back into the jar with the same name and value, under its domain or the dotted variant |
| ReqSelenium.Session.CopyUserAgentFromDriver | src/reqselenium.py:107-114 | starts the driver if needed, then sets the user-agent header to the browser's reported string and leaves the other headers unchanged. A cached capabilities value is kept |
| ReqSelenium.Session.Request | src/reqselenium.py:92-105 | after a verb, `_last_requests_url` is the response's final URL, and the result is a fresh wrapper with an empty selector cache |
| ReqSelenium.Session.Get | src/reqselenium.py:92-95 | `get` as such a request |
| ReqSelenium.Session.Post | src/reqselenium.py:97-100 | `post` as such a request |
| ReqSelenium.Session.Put | src/reqselenium.py:102-105 | `put` as such a request |
| Response.ReqSeleniumResponse.constructor | src/response.py:7-12 | keeps the original response; the selector cache is empty and nothing is parsed |
| Response.ReqSeleniumResponse.GetSelector | src/response.py:14-18 | the first access parses `_response.text`. Later accesses return the cached selector without parsing again, so there is at most one parse per instance |
| Response.ReqSeleniumResponse.XPath | src/response.py:20-21 | xpath is evaluated on the one cached parse of the body |
| Response.ReqSeleniumResponse.Css | src/response.py:23-24 | css is evaluated on the same cached parse |
| Response.ReqSeleniumResponse.Re | src/response.py:26-27 | re is evaluated on the same cached parse |
| Response.ReqSeleniumResponse.ReFirst | src/response.py:29-30 | re_first is evaluated on the same cached parse and is the first match of re, or None |
| Response.QueriesShareOneParse | src/response.py:14-30 | xpath, css and re_first on one wrapper answer from a single parse of the body |

## Left out

- Engine internals: browser process lifecycle, rendering, JavaScript, the effect of `get` and `add_cookie` on the cookie store, and `current_url`. They come from the `Engine` value.
- WebDriverWait polling, the expected conditions and real time (src/mixin.py:139-153). Each wait is one `Waiter` answer.
- The duration of the 0.2 s sleep between clicks (src/mixin.py:217). It appears only as a `Pause` step in the click trace.
- The geometry of the scroll script (src/mixin.py:205-208). Only the fact that it runs once, before any click, is modelled.
- Mixin.EnsureClick: only WebDriverException from a click is modelled. Any other exception would propagate out of the loop at once.
- tldextract's public-suffix rules. They are the two functions of `DomainParser`.
- The requests library's own cookie handling. A response's cookies are stored in the jar by key, in order. Its cookie-policy checks (domain, secure, expiry) are not modelled.
- The jar's iteration order. http.cookiejar iterates its cookies sorted by domain, then by path, then by name. The model keeps insertion order, with a replaced cookie staying in place.
- Header-name case-insensitivity. Headers are a map whose names are already in lower case.
- Verb arguments other than the URL (data, json, params, headers per request) and redirect history.
- The random user-agent generation (src/reqselenium.py:13, 24). The user agent is a constructor argument.
- The firefox profile directory and the filesystem (src/reqselenium.py:59-61). The `print` calls (src/reqselenium.py:112-113).
- The in-place mutation of the selenium `DesiredCapabilities` template dictionary by `add_to_capabilities` (src/reqselenium.py:51). Capabilities are a value here.
- Aliasing of the caller's cookie dict in ensure_add_cookie. The method returns the dict's final contents instead of mutating it.
- The dynamic class rebuilding in `ReqSeleniumResponse.__init__` (src/response.py:8-10), the kwargs handling in `DriverMixin.__init__` apart from its dropping of the capabilities (src/mixin.py:23-26), and the per-engine classes (src/mixin.py:225-230). One `WebDriver` class with a `BrowserName` field stands for both engines.
- The driver-side `selector`/`xpath`/`css`/`re`/`re_first` (src/mixin.py:168-185). They re-parse `page_source` on every call and hold no logic.
- Mixin.PushAll: its own contract states bounds and history preservation only. The order and the stop at the first failure are stated by `PushAllOne` and `PushAllAppend`, and `Session.TransferSessionCookiesToDriver` is proved equal to it.
- test_proxy.py: a live-network script.
- Failures of the foreign calls. The HTTP transport, `get`, `add_cookie` and `get_cookies` always return in the model. In the code, a verb whose `super()` call raises leaves `_last_requests_url` as it was (src/reqselenium.py:93-94), and an `add_cookie` that raises ends `ensure_add_cookie` before its check or retry (src/mixin.py:64, 69).
- The `timeout` keyword that `DriverMixin.__init__` reads but does not remove before calling the selenium constructor (src/mixin.py:24-26). Depending on the selenium version, that constructor may reject it with TypeError. The model starts the driver unconditionally.
- `BrowserState.cookies` stands both for the browser's cookie store and for what `get_cookies()` returns at the current URL. The browser's per-URL visibility of cookies is folded into the `Engine` functions.
- Optional arguments of the response queries (src/response.py:20-30). The model passes one query string to `xpath`, `css` and `re`. It drops their further positional and keyword arguments and the `default` of `re_first`, so `ReFirst` returns None where a default would be returned.
