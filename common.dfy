/** Values shared by the driver helpers, the session and the response wrapper:
    optional values and results, the error taxonomy, the three cookie shapes,
    Python's substring test and the domain parser that the core consumes. */
module Common {

  datatype Option<+T> = None | Some(value: T)

  datatype Result<+T, +E> = Success(value: T) | Failure(error: E)

  /** Python truthiness of an optional string: neither None nor the empty string. */
  predicate Truthy(s: Option<string>)
  {
    s.Some? && s.value != ""
  }

  /** A cookie as handed to the browser: the dict with keys name, value, domain
      and the optional path and expiry. */
  datatype Cookie = Cookie(
    name: string,
    value: string,
    domain: string,
    path: Option<string>,
    expiry: Option<int>)

  /** A cookie as the browser reports it from get_cookies(): only the three
      entries that the bridge reads. */
  datatype DriverCookie = DriverCookie(name: string, value: string, domain: string)

  /** A cookie held in the HTTP client's jar. The jar identifies a cookie by
      its name, domain and path. */
  datatype JarCookie = JarCookie(
    name: string,
    value: string,
    domain: string,
    path: string,
    expires: Option<int>)

  /** Every way the core fails, each with the context the source attaches. */
  datatype Error =
    | InvalidBrowser(browser: string)       // ValueError from the session constructor
    | InvalidState(state: string)           // ValueError from ensure_element
    | UnknownLocator(locator: string)       // KeyError from the locator table
    | WaitTimeout(message: string)          // TimeoutException from the wait
    | ClickFailed(message: string)          // WebDriverException after ten failed clicks
    | CookieNotAdded(cookie: Cookie)        // WebDriverException after the domain retry
    | EmptyDomain(cookie: Cookie)           // IndexError from reading domain[0] of ''
    | NoLastUrl                             // AttributeError: _last_requests_url was never set
    | MissingDomain                         // Exception: no domain and a falsy last URL

  /** The domain parser (public-suffix aware), consumed as two opaque
      functions: the fully qualified host of a URL and the registrable domain. */
  datatype DomainParser = DomainParser(
    fqdn: string -> string,
    registeredDomain: string -> string)

  /** Python's `needle in hay` on strings. */
  predicate Contains(hay: string, needle: string)
    decreases |hay|
  {
    (|needle| <= |hay| && hay[..|needle|] == needle)
    || (hay != [] && Contains(hay[1..], needle))
  }

  /** needle occurs in hay starting at index i. */
  predicate OccursAt(hay: string, needle: string, i: int)
  {
    0 <= i && i + |needle| <= |hay| && hay[i..i + |needle|] == needle
  }

  /** The recursive test is the usual substring relation: some occurrence exists. */
  lemma {:induction false} ContainsIffOccurs(hay: string, needle: string)
    ensures Contains(hay, needle) <==> exists i :: OccursAt(hay, needle, i)
    decreases |hay|
  {
    if |needle| <= |hay| && hay[..|needle|] == needle {
      assert OccursAt(hay, needle, 0);
    } else if hay == [] {
      assert |needle| > 0;
    } else {
      ContainsIffOccurs(hay[1..], needle);
      if Contains(hay[1..], needle) {
        var j :| OccursAt(hay[1..], needle, j);
        assert hay[j + 1..j + 1 + |needle|] == hay[1..][j..j + |needle|];
        assert OccursAt(hay, needle, j + 1);
      }
      if exists i :: OccursAt(hay, needle, i) {
        var i :| OccursAt(hay, needle, i);
        assert i != 0;
        assert hay[1..][i - 1..i - 1 + |needle|] == hay[i..i + |needle|];
        assert OccursAt(hay[1..], needle, i - 1);
      }
    }
  }

  /** The empty string is in every string. */
  lemma EmptyInEverything(hay: string)
    ensures Contains(hay, "")
  {
    assert hay[..0] == "";
  }

  /** The substring test does not respect label boundaries: "site.com" is in
      "notsite.com". */
  lemma SubstringOverMatches()
    ensures Contains("notsite.com", "site.com")
  {
    ContainsIffOccurs("notsite.com", "site.com");
    assert OccursAt("notsite.com", "site.com", 3);
  }
}
