/** The response wrapper returned by the session's HTTP verbs: the HTTP
    library's response plus xpath/css/re/re_first queries over one parse of
    its body, built on first use. */
module Response {
  import opened Common

  /** The HTTP library's response: the final URL after redirects, the body
      text, and the cookies it stores in the session's jar. */
  datatype HttpResponse = HttpResponse(url: string, text: string, setCookies: seq<JarCookie>)

  /** A parsed document; constructing one from a text is deterministic. */
  datatype Selector = Selector(source: string)

  function Parse(text: string): Selector
  {
    Selector(text)
  }

  /** The HTML query evaluator, consumed as opaque functions; a query result
      is the list of extracted strings. */
  datatype Parsel = Parsel(
    xpath: (Selector, string) -> seq<string>,
    css: (Selector, string) -> seq<string>,
    re: (Selector, string) -> seq<string>)

  class ReqSeleniumResponse {
    const response: HttpResponse
    var selector: Option<Selector>   // _selector
    ghost var parses: nat            // how often the body has been parsed

    /** The cache is empty until the one parse, and then holds its result. */
    ghost predicate Valid()
      reads this
    {
      && parses <= 1
      && (selector.None? <==> parses == 0)
      && (selector.Some? ==> selector.value == Parse(response.text))
    }

    constructor (response: HttpResponse)
      ensures Valid()
      ensures this.response == response && selector == None && parses == 0
    {
      this.response := response;
      selector := None;
      parses := 0;
    }

    /** The selector property: parse on first access, reuse afterwards. */
    method GetSelector() returns (s: Selector)
      requires Valid()
      modifies this`selector, this`parses
      ensures Valid()
      ensures s == Parse(response.text) && selector == Some(s) && parses == 1
      ensures old(selector).Some? ==> selector == old(selector) && parses == old(parses)
    {
      if selector.None? {
        selector := Some(Parse(response.text));
        parses := parses + 1;
      }
      s := selector.value;
    }

    method XPath(parsel: Parsel, query: string) returns (r: seq<string>)
      requires Valid()
      modifies this`selector, this`parses
      ensures Valid() && parses == 1
      ensures r == parsel.xpath(Parse(response.text), query)
    {
      var s := GetSelector();
      r := parsel.xpath(s, query);
    }

    method Css(parsel: Parsel, query: string) returns (r: seq<string>)
      requires Valid()
      modifies this`selector, this`parses
      ensures Valid() && parses == 1
      ensures r == parsel.css(Parse(response.text), query)
    {
      var s := GetSelector();
      r := parsel.css(s, query);
    }

    method Re(parsel: Parsel, pattern: string) returns (r: seq<string>)
      requires Valid()
      modifies this`selector, this`parses
      ensures Valid() && parses == 1
      ensures r == parsel.re(Parse(response.text), pattern)
    {
      var s := GetSelector();
      r := parsel.re(s, pattern);
    }

    /** re_first: the first match of re, or None when there is none. */
    method ReFirst(parsel: Parsel, pattern: string) returns (r: Option<string>)
      requires Valid()
      modifies this`selector, this`parses
      ensures Valid() && parses == 1
      ensures var all := parsel.re(Parse(response.text), pattern);
        r == if all == [] then None else Some(all[0])
    {
      var s := GetSelector();
      var all := parsel.re(s, pattern);
      r := if all == [] then None else Some(all[0]);
    }
  }

  /** However many queries follow, the body is parsed once. */
  method QueriesShareOneParse(resp: HttpResponse, parsel: Parsel, q1: string, q2: string, p: string)
    returns (a: seq<string>, b: seq<string>, c: Option<string>, ghost parses: nat)
    ensures parses == 1
    ensures a == parsel.xpath(Parse(resp.text), q1) && b == parsel.css(Parse(resp.text), q2)
    ensures var all := parsel.re(Parse(resp.text), p); c == if all == [] then None else Some(all[0])
  {
    var w := new ReqSeleniumResponse(resp);
    a := w.XPath(parsel, q1);
    b := w.Css(parsel, q2);
    c := w.ReFirst(parsel, p);
    parses := w.parses;
  }
}
