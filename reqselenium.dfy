/** The unified session: an HTTP client state (cookie jar, headers, last
    visited URL) with a lazily started browser driver, and the two cookie
    transfers between them. */
module ReqSelenium {
  import opened Common
  import opened Mixin
  import opened Response

  // ---------------------------------------------------------------------------
  // The cookie jar

  /** The jar identifies a cookie by name, domain and path. */
  predicate SameKey(c: JarCookie, name: string, domain: string, path: string)
  {
    c.name == name && c.domain == domain && c.path == path
  }

  /** Storing a cookie replaces the one under the same key, in place, or adds it at the end. */
  function JarPut(jar: seq<JarCookie>, c: JarCookie): (r: seq<JarCookie>)
    ensures |r| == |jar| || |r| == |jar| + 1
    ensures c in r
  {
    if jar == [] then [c]
    else if SameKey(jar[0], c.name, c.domain, c.path) then [c] + jar[1..]
    else [jar[0]] + JarPut(jar[1..], c)
  }

  /** The jar entry under a key, if any. */
  function Lookup(jar: seq<JarCookie>, name: string, domain: string, path: string): Option<JarCookie>
  {
    if jar == [] then None
    else if SameKey(jar[0], name, domain, path) then Some(jar[0])
    else Lookup(jar[1..], name, domain, path)
  }

  predicate UniqueKeys(jar: seq<JarCookie>)
  {
    forall i, j | 0 <= i < j < |jar| :: !SameKey(jar[j], jar[i].name, jar[i].domain, jar[i].path)
  }

  /** After storing c, c is found under its key and every other key is as before. */
  lemma {:induction false} LookupAfterPut(jar: seq<JarCookie>, c: JarCookie, name: string, domain: string, path: string)
    ensures Lookup(JarPut(jar, c), name, domain, path)
      == if SameKey(c, name, domain, path) then Some(c) else Lookup(jar, name, domain, path)
  {
    if jar != [] && !SameKey(jar[0], c.name, c.domain, c.path) {
      LookupAfterPut(jar[1..], c, name, domain, path);
      assert JarPut(jar, c)[1..] == JarPut(jar[1..], c);
    }
  }

  /** The keys held after storing c: those before, and c's. */
  lemma {:induction false} KeysAfterPut(jar: seq<JarCookie>, c: JarCookie, x: JarCookie)
    requires x in JarPut(jar, c)
    ensures x == c || x in jar
  {
    if jar != [] && !SameKey(jar[0], c.name, c.domain, c.path) && x != jar[0] {
      KeysAfterPut(jar[1..], c, x);
    }
  }

  /** Storing a cookie keeps one entry per key. */
  lemma {:induction false} PutKeepsUniqueKeys(jar: seq<JarCookie>, c: JarCookie)
    requires UniqueKeys(jar)
    ensures UniqueKeys(JarPut(jar, c))
  {
    if jar != [] {
      var tail := jar[1..];
      assert UniqueKeys(tail) by {
        forall i, j | 0 <= i < j < |tail|
          ensures !SameKey(tail[j], tail[i].name, tail[i].domain, tail[i].path)
        {
          assert tail[i] == jar[i + 1] && tail[j] == jar[j + 1];
        }
      }
      if !SameKey(jar[0], c.name, c.domain, c.path) {
        PutKeepsUniqueKeys(tail, c);
        var r := JarPut(jar, c);
        assert r == [jar[0]] + JarPut(tail, c);
        forall j | 0 < j < |r|
          ensures !SameKey(r[j], jar[0].name, jar[0].domain, jar[0].path)
        {
          assert r[j] in JarPut(tail, c);
          KeysAfterPut(tail, c, r[j]);
          if r[j] != c {
            var k :| 0 <= k < |tail| && tail[k] == r[j];
            assert jar[k + 1] == r[j];
          }
        }
      } else {
        var r := JarPut(jar, c);
        forall i, j | 0 <= i < j < |r|
          ensures !SameKey(r[j], r[i].name, r[i].domain, r[i].path)
        {
          assert r[j] == jar[j];
          if i > 0 { assert r[i] == jar[i]; }
        }
      }
    }
  }

  /** Storing cookies one after the other, in order. */
  function JarPutAll(jar: seq<JarCookie>, cs: seq<JarCookie>): seq<JarCookie>
    decreases |cs|
  {
    if cs == [] then jar else JarPut(JarPutAll(jar, cs[..|cs| - 1]), cs[|cs| - 1])
  }

  /** The last cookie of cs under a key, if any. */
  function LastWithKey(cs: seq<JarCookie>, name: string, domain: string, path: string): Option<JarCookie>
    decreases |cs|
  {
    if cs == [] then None
    else if SameKey(cs[|cs| - 1], name, domain, path) then Some(cs[|cs| - 1])
    else LastWithKey(cs[..|cs| - 1], name, domain, path)
  }

  /** After storing cs, a key holds the last cookie stored under it, and a key
      none of them touched holds what it held before. */
  lemma {:induction false} LookupAfterPutAll(jar: seq<JarCookie>, cs: seq<JarCookie>, name: string, domain: string, path: string)
    ensures Lookup(JarPutAll(jar, cs), name, domain, path)
      == if LastWithKey(cs, name, domain, path).Some? then LastWithKey(cs, name, domain, path)
         else Lookup(jar, name, domain, path)
    decreases |cs|
  {
    if cs != [] {
      LookupAfterPut(JarPutAll(jar, cs[..|cs| - 1]), cs[|cs| - 1], name, domain, path);
      LookupAfterPutAll(jar, cs[..|cs| - 1], name, domain, path);
    }
  }

  lemma {:induction false} PutAllKeepsUniqueKeys(jar: seq<JarCookie>, cs: seq<JarCookie>)
    requires UniqueKeys(jar)
    ensures UniqueKeys(JarPutAll(jar, cs))
    decreases |cs|
  {
    if cs != [] {
      PutAllKeepsUniqueKeys(jar, cs[..|cs| - 1]);
      PutKeepsUniqueKeys(JarPutAll(jar, cs[..|cs| - 1]), cs[|cs| - 1]);
    }
  }

  /** cookies.set(name, value, domain=...): the jar's default path and no expiry. */
  function FromDriver(dc: DriverCookie): JarCookie
  {
    JarCookie(dc.name, dc.value, dc.domain, "/", None)
  }

  function FromDriverAll(held: seq<DriverCookie>): (r: seq<JarCookie>)
    ensures |r| == |held|
    ensures forall i | 0 <= i < |held| :: r[i] == FromDriver(held[i])
  {
    seq(|held|, i requires 0 <= i < |held| => FromDriver(held[i]))
  }

  /** The browser holds at most one cookie per name and domain. */
  predicate DriverKeysUnique(held: seq<DriverCookie>)
  {
    forall i, j | 0 <= i < j < |held| :: held[i].name != held[j].name || held[i].domain != held[j].domain
  }

  lemma {:induction false} LastWithUniqueKey(held: seq<DriverCookie>, i: nat)
    requires DriverKeysUnique(held) && i < |held|
    ensures LastWithKey(FromDriverAll(held), held[i].name, held[i].domain, "/") == Some(FromDriver(held[i]))
    decreases |held|
  {
    var n := |held|;
    var cs := FromDriverAll(held);
    if i < n - 1 {
      var front := held[..n - 1];
      assert cs[..n - 1] == FromDriverAll(front);
      assert front[i] == held[i];
      LastWithUniqueKey(front, i);
    }
  }

  /** A cookie the browser verifiably holds is found in the jar after
      transfer_driver_cookies_to_session, under its own name, with its own
      value, and under its domain or the dotted variant of it. */
  lemma PullFindsVerifiedCookie(jar: seq<JarCookie>, held: seq<DriverCookie>, c: Cookie)
    requires DriverKeysUnique(held)
    requires CookieIn(held, c)
    ensures exists d :: (DomainMatches(c.domain, d)
      && Lookup(JarPutAll(jar, FromDriverAll(held)), c.name, d, "/") == Some(JarCookie(c.name, c.value, d, "/", None)))
  {
    var i :| 0 <= i < |held| && Matches(held[i], c);
    LastWithUniqueKey(held, i);
    LookupAfterPutAll(jar, FromDriverAll(held), c.name, held[i].domain, "/");
  }

  /** Push then pull: a cookie ensure_add_cookie reports as added comes back
      into the jar with the same name and value. */
  lemma PushThenPull(s: BrowserState, e: Engine, tld: DomainParser, cookie: Cookie, jar: seq<JarCookie>)
    requires AddCookieSteps(s, e, tld, cookie, None).1.Success?
    requires DriverKeysUnique(AddCookieSteps(s, e, tld, cookie, None).0.cookies)
    ensures var (t, r) := AddCookieSteps(s, e, tld, cookie, None);
      exists d :: (DomainMatches(r.value.domain, d)
        && Lookup(JarPutAll(jar, FromDriverAll(t.cookies)), cookie.name, d, "/")
           == Some(JarCookie(cookie.name, cookie.value, d, "/", None)))
  {
    var (t, r) := AddCookieSteps(s, e, tld, cookie, None);
    PullFindsVerifiedCookie(jar, t.cookies, r.value);
  }

  // ---------------------------------------------------------------------------
  // transfer_session_cookies_to_driver: the domain and the selection

  /** The cookie dict built from a jar cookie. */
  function ToCookie(c: JarCookie): Cookie
  {
    Cookie(c.name, c.value, c.domain, Some(c.path), c.expires)
  }

  /** The filter domain: the given one if truthy, else the registrable domain
      of the last visited URL; the attribute is unset before the first verb. */
  function TransferDomain(domain: Option<string>, lastUrl: Option<string>, tld: DomainParser): (r: Result<string, Error>)
    ensures Truthy(domain) ==> r == Success(domain.value)
    ensures !Truthy(domain) && Truthy(lastUrl) ==> r == Success(tld.registeredDomain(lastUrl.value))
    ensures r.Failure? <==> !Truthy(domain) && !Truthy(lastUrl)
    ensures r.Failure? ==> (r.error == NoLastUrl <==> lastUrl.None?) && (r.error == MissingDomain <==> lastUrl == Some(""))
  {
    if !Truthy(domain) && lastUrl.None? then Failure(NoLastUrl)
    else if !Truthy(domain) && lastUrl.value != "" then Success(tld.registeredDomain(lastUrl.value))
    else if !Truthy(domain) then Failure(MissingDomain)
    else Success(domain.value)
  }

  /** The jar cookies whose domain contains the filter domain, in jar order, as cookie dicts. */
  function Matching(jar: seq<JarCookie>, domain: string): (r: seq<Cookie>)
    ensures |r| <= |jar|
    ensures forall i | 0 <= i < |r| :: Contains(r[i].domain, domain)
    ensures forall j | 0 <= j < |jar| :: Contains(jar[j].domain, domain) ==> ToCookie(jar[j]) in r
    ensures forall x | x in r :: exists j :: 0 <= j < |jar| && x == ToCookie(jar[j])
  {
    if jar == [] then []
    else
      var rest := Matching(jar[1..], domain);
      assert forall x | x in rest :: exists j :: 0 <= j < |jar| && x == ToCookie(jar[j]) by {
        forall x | x in rest ensures exists j :: 0 <= j < |jar| && x == ToCookie(jar[j]) {
          var k :| 0 <= k < |jar[1..]| && x == ToCookie(jar[1..][k]);
          assert x == ToCookie(jar[k + 1]);
        }
      }
      assert forall j | 1 <= j < |jar| :: jar[j] == jar[1..][j - 1];
      if Contains(jar[0].domain, domain) then [ToCookie(jar[0])] + rest else rest
  }

  /** A one-cookie jar yields that cookie exactly when its domain matches. */
  lemma MatchingOne(c: JarCookie, domain: string)
    ensures Matching([c], domain) == if Contains(c.domain, domain) then [ToCookie(c)] else []
  {
    assert [c][1..] == [];
  }

  /** An empty filter domain (the registrable domain of a URL without one)
      selects the whole jar, in order. */
  lemma {:induction false} MatchingEmptyDomain(jar: seq<JarCookie>)
    ensures |Matching(jar, "")| == |jar|
    ensures forall i | 0 <= i < |jar| :: Matching(jar, "")[i] == ToCookie(jar[i])
  {
    if jar != [] {
      EmptyInEverything(jar[0].domain);
      MatchingEmptyDomain(jar[1..]);
      assert forall i | 1 <= i < |jar| :: Matching(jar, "")[i] == Matching(jar[1..], "")[i - 1];
    }
  }

  /** The substring filter over-matches: a "site.com" transfer selects a
      cookie of "notsite.com". */
  lemma MatchingOverMatches(c: JarCookie)
    requires c.domain == "notsite.com"
    ensures Matching([c], "site.com") == [ToCookie(c)]
  {
    SubstringOverMatches();
    MatchingOne(c, "site.com");
  }

  /** The selection distributes over concatenation. With MatchingOne this
      fixes it completely: the matching cookies, each once, in jar order. */
  lemma {:induction false} MatchingAppend(a: seq<JarCookie>, b: seq<JarCookie>, domain: string)
    ensures Matching(a + b, domain) == Matching(a, domain) + Matching(b, domain)
    decreases |a|
  {
    if a == [] {
      assert a + b == b;
    } else {
      assert (a + b)[0] == a[0];
      assert (a + b)[1..] == a[1..] + b;
      MatchingAppend(a[1..], b, domain);
    }
  }

  // ---------------------------------------------------------------------------
  // The session

  datatype ProxyType = Manual

  datatype Proxy = Proxy(proxyType: ProxyType, httpProxy: string, sslProxy: string)

  /** selenium's DesiredCapabilities templates the session chooses between. */
  datatype Template = FirefoxTemplate | ChromeTemplate

  /** Desired capabilities: a template with a manual proxy added. */
  datatype Capabilities = Capabilities(template: Template, proxy: Proxy)

  datatype Verb = Get | Post | Put

  /** The browser name check of the constructor. */
  function ParseBrowser(name: string): (r: Result<BrowserName, Error>)
    ensures r.Success? <==> name == "chrome" || name == "firefox"
    ensures r == Success(Chrome) <==> name == "chrome"
    ensures r.Failure? ==> r.error == InvalidBrowser(name)
  {
    if name != "chrome" && name != "firefox" then Failure(InvalidBrowser(name))
    else if name == "chrome" then Success(Chrome)
    else Success(Firefox)
  }

  function ProxyCapabilities(browser: BrowserName, httpProxy: string, sslProxy: string): Capabilities
  {
    Capabilities(if browser == Firefox then FirefoxTemplate else ChromeTemplate, Proxy(Manual, httpProxy, sslProxy))
  }

  const UserAgentHeader := "user-agent"

  class Session {
    const browser: BrowserName
    const defaultTimeout: real
    const httpProxy: Option<string>
    const sslProxy: Option<string>
    const userAgent: string
    const tld: DomainParser
    const engine: Engine
    const transport: (Verb, string) -> HttpResponse

    var driver: WebDriver?                   // _driver
    ghost var starts: nat                    // how often the driver initializer has run
    var capabilities: Option<Capabilities>   // _desired_capabilities
    ghost var capabilityBuilds: nat          // how often the proxy capabilities were built
    var lastRequestsUrl: Option<string>      // None while _last_requests_url is unset
    var jar: seq<JarCookie>
    var headers: map<string, string>         // names in lower case

    predicate ProxyConfigured()
    {
      Truthy(httpProxy) && Truthy(sslProxy)
    }

    /** The firefox profile carries the session's user agent; chrome gets none. */
    function ProfileUserAgent(): Option<string>
    {
      if browser == Firefox then Some(userAgent) else None
    }

    ghost predicate Valid()
      reads this
    {
      && starts == (if driver == null then 0 else 1)
      && capabilityBuilds == (if capabilities.Some? then 1 else 0)
      && (capabilities.Some? ==>
            ProxyConfigured() && capabilities.value == ProxyCapabilities(browser, httpProxy.value, sslProxy.value))
      && (driver != null && ProxyConfigured() ==> capabilities.Some?)
      && (driver != null ==>
            driver.kind == browser && driver.defaultTimeout == defaultTimeout
            && driver.profileUserAgent == ProfileUserAgent() && driver.engine == engine)
      && UniqueKeys(jar)
    }

    /** The browser's state, or a fresh browser's if none was started yet. */
    ghost function DriverState(): BrowserState
      reads this, driver
    {
      if driver == null then InitialState(engine) else driver.State()
    }

    constructor (browser: BrowserName, defaultTimeout: real, httpProxy: Option<string>, sslProxy: Option<string>,
                 userAgent: string, defaultHeaders: map<string, string>, tld: DomainParser, engine: Engine,
                 transport: (Verb, string) -> HttpResponse)
      ensures Valid()
      ensures this.browser == browser && this.defaultTimeout == defaultTimeout
      ensures this.httpProxy == httpProxy && this.sslProxy == sslProxy && this.userAgent == userAgent
      ensures this.tld == tld && this.engine == engine && this.transport == transport
      ensures driver == null && capabilities == None && lastRequestsUrl == None
      ensures jar == [] && headers == defaultHeaders
    {
      this.browser := browser;
      this.defaultTimeout := defaultTimeout;
      this.httpProxy := httpProxy;
      this.sslProxy := sslProxy;
      this.userAgent := userAgent;
      this.tld := tld;
      this.engine := engine;
      this.transport := transport;
      driver := null;
      starts := 0;
      capabilities := None;
      capabilityBuilds := 0;
      lastRequestsUrl := None;
      jar := [];
      headers := defaultHeaders;
    }

    /** Session(browser, ...): the browser name is checked before anything starts. */
    static method Create(name: string := "firefox", defaultTimeout: real := 30.0,
                         httpProxy: Option<string> := None, sslProxy: Option<string> := None,
                         userAgent: string, defaultHeaders: map<string, string>, tld: DomainParser, engine: Engine,
                         transport: (Verb, string) -> HttpResponse)
      returns (r: Result<Session, Error>)
      ensures r.Failure? <==> ParseBrowser(name).Failure?
      ensures r.Failure? ==> r.error == InvalidBrowser(name)
      ensures r.Success? ==>
        && fresh(r.value) && r.value.Valid()
        && r.value.browser == ParseBrowser(name).value
        && r.value.defaultTimeout == defaultTimeout
        && r.value.httpProxy == httpProxy && r.value.sslProxy == sslProxy && r.value.userAgent == userAgent
        && r.value.tld == tld && r.value.engine == engine && r.value.transport == transport
        && r.value.driver == null && r.value.capabilities == None && r.value.lastRequestsUrl == None
        && r.value.jar == [] && r.value.headers == defaultHeaders
    {
      match ParseBrowser(name)
      case Failure(e) =>
        r := Failure(e);
      case Success(b) =>
        var s := new Session(b, defaultTimeout, httpProxy, sslProxy, userAgent, defaultHeaders, tld, engine, transport);
        r := Success(s);
    }

    /** desired_capabilities: built only when both proxies are set, then cached. */
    method DesiredCapabilities() returns (caps: Option<Capabilities>)
      requires Valid()
      modifies this`capabilities, this`capabilityBuilds
      ensures Valid() && caps == capabilities
      ensures capabilities
        == if ProxyConfigured() then Some(ProxyCapabilities(browser, httpProxy.value, sslProxy.value)) else None
      ensures old(capabilities).Some? ==> capabilityBuilds == old(capabilityBuilds)
    {
      if Truthy(httpProxy) && Truthy(sslProxy) && capabilities.None? {
        var template := if browser == Firefox then FirefoxTemplate else ChromeTemplate;
        capabilities := Some(Capabilities(template, Proxy(Manual, httpProxy.value, sslProxy.value)));
        capabilityBuilds := capabilityBuilds + 1;
      }
      caps := capabilities;
    }

    /** The driver property: the initializer runs on the first access only. */
    method Driver() returns (d: WebDriver)
      requires Valid()
      modifies this`driver, this`starts, this`capabilities, this`capabilityBuilds
      ensures Valid() && d == driver
      ensures old(driver) != null ==> d == old(driver) && starts == old(starts) && capabilities == old(capabilities)
      ensures old(driver) == null ==> fresh(d) && starts == 1 && d.State() == InitialState(engine)
      ensures old(capabilities).Some? ==> capabilities == old(capabilities)
      ensures DriverState() == old(DriverState())
    {
      if driver == null {
        // both starters read desired_capabilities; the driver's own
        // initializer then discards the value
        var _ := DesiredCapabilities();
        d := new WebDriver(browser, defaultTimeout, ProfileUserAgent(), engine);
        driver := d;
        starts := starts + 1;
      }
      d := driver;
    }

    /** The three HTTP verbs: send, store the response's cookies, remember the final URL. */
    method Request(verb: Verb, url: string) returns (r: ReqSeleniumResponse)
      requires Valid()
      modifies this`lastRequestsUrl, this`jar
      ensures Valid()
      ensures lastRequestsUrl == Some(transport(verb, url).url)
      ensures jar == JarPutAll(old(jar), transport(verb, url).setCookies)
      ensures fresh(r) && r.Valid() && r.response == transport(verb, url) && r.selector == None
    {
      var resp := transport(verb, url);
      PutAllKeepsUniqueKeys(jar, resp.setCookies);
      jar := JarPutAll(jar, resp.setCookies);
      lastRequestsUrl := Some(resp.url);
      r := new ReqSeleniumResponse(resp);
    }

    method Get(url: string) returns (r: ReqSeleniumResponse)
      requires Valid()
      modifies this`lastRequestsUrl, this`jar
      ensures Valid() && lastRequestsUrl == Some(transport(Verb.Get, url).url)
      ensures jar == JarPutAll(old(jar), transport(Verb.Get, url).setCookies)
      ensures fresh(r) && r.Valid() && r.response == transport(Verb.Get, url) && r.selector == None
    {
      r := Request(Verb.Get, url);
    }

    method Post(url: string) returns (r: ReqSeleniumResponse)
      requires Valid()
      modifies this`lastRequestsUrl, this`jar
      ensures Valid() && lastRequestsUrl == Some(transport(Verb.Post, url).url)
      ensures jar == JarPutAll(old(jar), transport(Verb.Post, url).setCookies)
      ensures fresh(r) && r.Valid() && r.response == transport(Verb.Post, url) && r.selector == None
    {
      r := Request(Verb.Post, url);
    }

    method Put(url: string) returns (r: ReqSeleniumResponse)
      requires Valid()
      modifies this`lastRequestsUrl, this`jar
      ensures Valid() && lastRequestsUrl == Some(transport(Verb.Put, url).url)
      ensures jar == JarPutAll(old(jar), transport(Verb.Put, url).setCookies)
      ensures fresh(r) && r.Valid() && r.response == transport(Verb.Put, url) && r.selector == None
    {
      r := Request(Verb.Put, url);
    }

    /** copy_user_agent_from_driver: starts the driver if needed and copies
        the browser's user agent into the session's headers. */
    method CopyUserAgentFromDriver()
      requires Valid()
      modifies this`driver, this`starts, this`capabilities, this`capabilityBuilds, this`headers
      ensures Valid() && driver != null
      ensures old(driver) != null ==> driver == old(driver)
      ensures headers == old(headers)[UserAgentHeader := engine.userAgent(browser, ProfileUserAgent())]
      ensures DriverState() == old(DriverState())
      ensures old(capabilities).Some? || old(driver) != null ==> capabilities == old(capabilities)
    {
      var d := Driver();
      var ua := d.NavigatorUserAgent();
      headers := headers[UserAgentHeader := ua];
    }

    /** transfer_driver_cookies_to_session: optionally the user agent, then
        every browser cookie into the jar under (name, domain, '/'). */
    method TransferDriverCookiesToSession(copyUserAgent: bool := true)
      requires Valid()
      modifies this`driver, this`starts, this`capabilities, this`capabilityBuilds, this`headers, this`jar
      ensures Valid() && driver != null
      ensures old(driver) != null ==> driver == old(driver)
      ensures headers == if copyUserAgent
        then old(headers)[UserAgentHeader := engine.userAgent(browser, ProfileUserAgent())]
        else old(headers)
      ensures DriverState() == old(DriverState())
      ensures jar == JarPutAll(old(jar), FromDriverAll(driver.cookies))
      ensures old(capabilities).Some? || old(driver) != null ==> capabilities == old(capabilities)
    {
      if copyUserAgent {
        CopyUserAgentFromDriver();
      }
      var d := Driver();
      var held := d.cookies;
      var i := 0;
      while i < |held|
        invariant 0 <= i <= |held|
        invariant Valid() && driver == d && held == d.cookies
        invariant jar == JarPutAll(old(jar), FromDriverAll(held)[..i])
        invariant headers == if copyUserAgent
          then old(headers)[UserAgentHeader := engine.userAgent(browser, ProfileUserAgent())]
          else old(headers)
        invariant old(driver) != null ==> driver == old(driver)
        invariant DriverState() == old(DriverState())
        invariant old(capabilities).Some? || old(driver) != null ==> capabilities == old(capabilities)
      {
        var next := FromDriver(held[i]);
        assert FromDriverAll(held)[..i + 1][..i] == FromDriverAll(held)[..i];
        PutKeepsUniqueKeys(jar, next);
        jar := JarPut(jar, next);
        i := i + 1;
      }
      assert FromDriverAll(held)[..i] == FromDriverAll(held);
    }

    /** transfer_session_cookies_to_driver: every jar cookie whose domain
        contains the filter domain, in order, through ensure_add_cookie. The
        driver is started by the first such cookie, and not at all without one. */
    method TransferSessionCookiesToDriver(domain: Option<string> := None) returns (r: Result<(), Error>)
      requires Valid()
      modifies this`driver, this`starts, this`capabilities, this`capabilityBuilds, driver
      ensures Valid()
      ensures var target := TransferDomain(domain, old(lastRequestsUrl), tld);
        && (target.Failure? ==> r == Failure(target.error) && driver == old(driver) && DriverState() == old(DriverState()))
        && (target.Success? ==>
              var selected := Matching(old(jar), target.value);
              && (driver != null <==> old(driver) != null || selected != [])
              && (DriverState(), r) == PushAll(old(DriverState()), engine, tld, selected))
      ensures old(driver) != null ==> driver == old(driver)
      // the cache survives; without a driver start it is not even built
      ensures old(capabilities).Some? || driver == old(driver) ==> capabilities == old(capabilities)
    {
      var target := TransferDomain(domain, lastRequestsUrl, tld);
      if target.Failure? {
        return Failure(target.error);
      }
      var selected := Matching(jar, target.value);
      ghost var start := DriverState();
      var i := 0;
      r := Success(());
      while i < |selected|
        invariant 0 <= i <= |selected|
        invariant Valid()
        invariant jar == old(jar) && lastRequestsUrl == old(lastRequestsUrl)
        invariant old(driver) != null ==> driver == old(driver)
        invariant driver != null <==> old(driver) != null || i > 0
        invariant old(driver) == null && driver != null ==> fresh(driver)
        invariant old(capabilities).Some? || driver == old(driver) ==> capabilities == old(capabilities)
        invariant PushAll(start, engine, tld, selected) == PushAll(DriverState(), engine, tld, selected[i..])
      {
        var d := Driver();
        assert DriverState() == d.State();
        var step := d.EnsureAddCookie(tld, selected[i]);
        if step.Failure? {
          return Failure(step.error);
        }
        assert selected[i..][1..] == selected[i + 1..];
        i := i + 1;
      }
    }
  }
}
