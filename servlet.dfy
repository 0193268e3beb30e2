/**
 * The servlet request and response as the core sees them: a request carries an
 * HTTP method, a servlet path (possibly null) and cookies; a response is an ordered list of
 * (name, value) headers changed by setHeader and addHeader; the filter chain
 * records the requests passed on to it.
 */
module Servlet {
  import opened Wrappers

  datatype RequestCookie = RequestCookie(name: string, value: string)

  /** The parts of an HttpServletRequest the core consults: the HTTP method, the servlet path and the cookies. */
  datatype Request = Request(httpMethod: string, servletPath: Option<string>, cookies: seq<RequestCookie>)

  /**
   * A cookie as built by ResponseCookie.from(name, value)...build().
   * An attribute never set is None (domain, path); maxAge is -1 until set,
   * httpOnly false until set.
   */
  datatype ResponseCookie = ResponseCookie(
    name: string,
    value: string,
    maxAge: int,
    domain: Option<string>,
    path: Option<string>,
    httpOnly: bool)

  /** A header value: plain text, or the serialised form of a cookie. */
  datatype HeaderValue = Text(text: string) | CookieText(cookie: ResponseCookie)

  datatype Header = Header(name: string, value: HeaderValue)

  const SetCookie := "Set-Cookie"

  /** The values of the headers called `name`, in the order they appear. */
  function ValuesNamed(headers: seq<Header>, name: string): seq<HeaderValue> {
    if headers == [] then []
    else
      var last := headers[|headers| - 1];
      ValuesNamed(headers[..|headers| - 1], name) + (if last.name == name then [last.value] else [])
  }

  /** The headers left once every header called `name` is removed. */
  function WithoutName(headers: seq<Header>, name: string): (r: seq<Header>)
    ensures ValuesNamed(r, name) == []
    ensures forall other :: other != name ==> ValuesNamed(r, other) == ValuesNamed(headers, other)
    ensures |r| == |headers| - |ValuesNamed(headers, name)|
  {
    if headers == [] then []
    else
      var init, last := headers[..|headers| - 1], headers[|headers| - 1];
      var rest := WithoutName(init, name);
      if last.name == name then rest else rest + [last]
  }

  /**
   * The headers after setHeader(name, value): exactly one header is called
   * `name`, carrying `value`, and every other name keeps its values.
   */
  function WithHeaderSet(headers: seq<Header>, name: string, value: HeaderValue): (r: seq<Header>)
    ensures ValuesNamed(r, name) == [value]
    ensures forall other :: other != name ==> ValuesNamed(r, other) == ValuesNamed(headers, other)
  {
    WithoutName(headers, name) + [Header(name, value)]
  }

  /** Removing a name twice removes no more than removing it once. */
  lemma {:induction false} WithoutNameIdempotent(headers: seq<Header>, name: string)
    ensures WithoutName(WithoutName(headers, name), name) == WithoutName(headers, name)
  {
    if headers != [] {
      var init, last := headers[..|headers| - 1], headers[|headers| - 1];
      WithoutNameIdempotent(init, name);
      if last.name != name {
        var rest := WithoutName(init, name);
        assert (rest + [last])[..|rest|] == rest;
      }
    }
  }

  /**
   * A second setHeader with the same name discards what the first one wrote:
   * only the second value is left.
   */
  lemma SetHeaderTwice(headers: seq<Header>, name: string, first: HeaderValue, second: HeaderValue)
    ensures WithHeaderSet(WithHeaderSet(headers, name, first), name, second)
         == WithHeaderSet(headers, name, second)
  {
    var kept := WithoutName(headers, name);
    assert (kept + [Header(name, first)])[..|kept|] == kept;
    WithoutNameIdempotent(headers, name);
  }

  /** addHeader(name, value) appends one value and leaves the other names alone. */
  lemma AddHeaderAppends(headers: seq<Header>, name: string, value: HeaderValue)
    ensures ValuesNamed(headers + [Header(name, value)], name) == ValuesNamed(headers, name) + [value]
    ensures forall other :: other != name ==>
      ValuesNamed(headers + [Header(name, value)], other) == ValuesNamed(headers, other)
  {
  }

  /** HttpServletResponse, reduced to its header list. */
  class HttpResponse {
    var headers: seq<Header>

    constructor (initial: seq<Header>)
      ensures headers == initial
    {
      headers := initial;
    }

    /** setHeader: replaces every header called `name` by one carrying `value`, placed last. */
    method SetHeader(name: string, value: HeaderValue)
      modifies this
      ensures headers == WithHeaderSet(old(headers), name, value)
    {
      headers := WithHeaderSet(headers, name, value);
    }

    /** addHeader: appends a header, keeping any of the same name. */
    method AddHeader(name: string, value: HeaderValue)
      modifies this
      ensures headers == old(headers) + [Header(name, value)]
    {
      headers := headers + [Header(name, value)];
    }
  }

  /** The rest of the filter chain: it records every request handed on to it. */
  class FilterChain {
    var passed: seq<Request>

    constructor ()
      ensures passed == []
    {
      passed := [];
    }

    /** filterChain.doFilter(request, response). */
    method DoFilter(request: Request)
      modifies this
      ensures passed == old(passed) + [request]
    {
      passed := passed + [request];
    }
  }
}
